/**
 * The downloader's session: the catalog of resolutions and the current
 * selection, the operation that loads the catalog from a metadata query
 * (fetch_resolutions) and the download pre-flight that checks the link and
 * the selection, estimates the size, asks for confirmation and requests the
 * merged download (download_video).
 *
 * The media-extraction library, the dialogs and the file system are outside
 * the model: what they answer is passed in, and each operation returns the
 * outbound calls it made, in order, and the dialog it ends with.
 */
module Downloader {
  import opened Wrappers
  import opened PyText
  import opened Catalog

  /** What the confirmation dialog is told about the size of the download. */
  datatype SizeEstimate = Unknown | Bytes(count: int)

  /** The options of the download-and-merge call. */
  datatype DownloadRequest = DownloadRequest(
    format: string,
    ffmpegLocation: string,
    outputTemplate: seq<string>, // path components; the last one names the file
    noPlaylist: bool,
    mergeOutputFormat: string)

  /** An outbound call to a collaborator. */
  datatype Call =
    | ExtractInfo(url: string, flat: bool)            // metadata query, single video, nothing downloaded
    | AskYesNo(estimate: SizeEstimate)               // the confirmation dialog
    | EnsureFolder(path: seq<string>)                // create the folder when it does not exist
    | Download(url: string, request: DownloadRequest) // fetch and merge video and audio

  /** The dialog an operation ends with. */
  datatype Notice =
    | InvalidLink                  // error: the link is empty or blank
    | NoSelection                  // error: no catalog loaded, or the placeholder is selected
    | FetchFailed(cause: string)   // error: the fetch raised, with the exception's text
    | ResolutionsLoaded            // information: the catalog was loaded
    | Cancelled                    // the user declined: no dialog at all
    | DownloadFailed(cause: string) // error: the download raised, with the exception's text
    | Downloaded                   // information: the file was saved

  /** The destination folder, as path components under the user's home directory. */
  const DownloadsFolder: seq<string> := ["~", "Downloads", "YouTube Downloads"]

  /** Where the merge tool is looked for. */
  const FfmpegPath: string := "ffmpeg/bin/ffmpeg.exe"

  /** The file name the media library fills in: the video's title and extension. */
  const FileNameTemplate: string := "%(title)s.%(ext)s"

  /** The text of the `TypeError` raised when a string is divided by an integer. */
  const StrDivisionError: string := "unsupported operand type(s) for /: 'str' and 'int'"

  /** Python truthiness of a field value. */
  predicate Truthy(v: Field) {
    match v
    case Text(s) => s != ""
    case Number(n) => n != 0
    case Null => false
  }

  /**
   * The size estimate shown before downloading: "Unknown" unless the
   * reported `filesize` is truthy; a truthy string cannot be divided and
   * raises.
   */
  function Estimate(filesize: Option<Field>): (r: Result<SizeEstimate>)
    ensures r == Ok(Unknown) <==> filesize.None? || !Truthy(filesize.value)
    ensures r.Ok? && r.value.Bytes? ==> filesize == Some(Number(r.value.count)) && r.value.count != 0
    ensures r.Err? <==> filesize.Some? && filesize.value.Text? && filesize.value.s != ""
    ensures r.Err? ==> r.message == StrDivisionError
  {
    match filesize
    case None => Ok(Unknown)
    case Some(v) =>
      if !Truthy(v) then Ok(Unknown)
      else match v
        case Number(n) => Ok(Bytes(n))
        case Text(_) => Err(StrDivisionError)
        case Null => Ok(Unknown)
  }

  /** The format spec: the chosen video format merged with the best audio. */
  function FormatSpec(formatId: string): (r: string)
    ensures |r| == |formatId| + 10
    ensures r[..|formatId|] == formatId && r[|formatId|..] == "+bestaudio"
  {
    formatId + "+bestaudio"
  }

  /** The download options for a selected menu label. */
  function RequestFor(selection: string): (r: DownloadRequest)
    ensures r.format == FormatSpec(SplitFirst(selection))
    ensures r.noPlaylist && r.mergeOutputFormat == "mp4"
    ensures |r.outputTemplate| == |DownloadsFolder| + 1
    ensures r.outputTemplate[..|DownloadsFolder|] == DownloadsFolder  // saved inside the folder `EnsureFolder` creates
    ensures r.outputTemplate[|DownloadsFolder|] == FileNameTemplate
  {
    DownloadRequest(FormatSpec(SplitFirst(selection)), FfmpegPath, DownloadsFolder + [FileNameTemplate], true, "mp4")
  }

  /** The selection gate: a catalog is loaded and the selection is not the placeholder. */
  predicate GatePasses(catalog: seq<string>, selection: string) {
    catalog != [] && selection != SelectResolution
  }

  /**
   * The session state as the application keeps it: before the first
   * successful fetch the menu offers only the placeholder; afterwards it
   * offers the catalog, which never lists the placeholder; the selection is
   * always one of the menu's values.
   */
  predicate Consistent(catalog: seq<string>, menu: seq<string>, selection: string) {
    && (if catalog == [] then menu == [SelectResolution] else menu == catalog)
    && SelectResolution !in catalog
    && selection in menu
  }

  /** In a consistent session the gate passes exactly when a catalog has been loaded. */
  lemma GateOpensWithCatalog(catalog: seq<string>, menu: seq<string>, selection: string)
    requires Consistent(catalog, menu, selection)
    ensures GatePasses(catalog, selection) <==> catalog != []
    ensures GatePasses(catalog, selection) ==> selection in catalog
  {
  }

  /** The format id extracted from the sentinel is "No". */
  lemma SentinelFormatId()
    ensures SplitFirst(NoResolutionsFound) == "No"
  {
    assert NoResolutionsFound == "No" + " " + "Resolutions Found";
    SplitFirstOfJoin("No", "Resolutions Found");
  }

  /**
   * The sentinel passes the gate, and the format requested for it is
   * "No+bestaudio": the gate checks only for the placeholder.
   */
  lemma SentinelPassesGate()
    ensures GatePasses([NoResolutionsFound], NoResolutionsFound)
    ensures RequestFor(NoResolutionsFound).format == "No+bestaudio"
  {
    SentinelFormatId();
  }

  /**
   * Selecting a stream's label requests exactly that stream's format id,
   * merged with the best audio, when the id holds no space.
   */
  lemma RequestedFormatRoundTrip(stream: Stream)
    requires "format_id" in stream && "height" in stream
    requires ' ' !in Render(stream["format_id"])
    ensures RequestFor(LabelOf(stream)).format == Render(stream["format_id"]) + "+bestaudio"
  {
    LabelFormatIdRoundTrip(stream);
  }

  /**
   * The application session: the catalog, the option menu's values and the
   * selection. A link counts as missing when `IsBlank` holds of it, which is
   * exactly when its `Strip` is empty (StripEmptyIffBlank).
   */
  class Session {
    var catalog: seq<string>
    var menu: seq<string>
    var selection: string

    ghost predicate Valid()
      reads this
    {
      Consistent(catalog, menu, selection)
    }

    /** The session at start-up: no catalog, and the placeholder selected. */
    constructor ()
      ensures Valid()
      ensures catalog == [] && menu == [SelectResolution] && selection == SelectResolution
    {
      catalog := [];
      menu := [SelectResolution];
      selection := SelectResolution;
    }

    /**
     * Loads the catalog for `url`; `query` is what the metadata query
     * answers, or the exception it raises.
     */
    method FetchResolutions(url: string, query: Result<Info>) returns (notice: Notice, calls: seq<Call>)
      requires Valid()
      modifies this
      ensures Valid()
      ensures IsBlank(url) ==> notice == InvalidLink && calls == [] && unchanged(this)
      ensures !IsBlank(url) ==> calls == [ExtractInfo(url, false)]
      ensures !IsBlank(url) && query.Err? ==> notice == FetchFailed(query.message) && unchanged(this)
      ensures !IsBlank(url) && query.Ok? ==>
        match CatalogFor(query.value)
        case Err(e) => notice == FetchFailed(e) && unchanged(this)
        case Ok(resolutions) =>
          && notice == ResolutionsLoaded
          && catalog == menu == resolutions
          && selection == resolutions[0]
    {
      calls := [];
      if IsBlank(url) {
        notice := InvalidLink;
        return;
      }
      calls := [ExtractInfo(url, false)];
      if query.Err? {
        notice := FetchFailed(query.message);
        return;
      }
      var info := query.value;
      if info.formats.None? {
        notice := FetchFailed(KeyError("formats"));
        return;
      }
      var labels := Labels(info.formats.value);
      if labels.Err? {
        notice := FetchFailed(labels.message);
        return;
      }
      var resolutions := labels.value;
      if resolutions == [] {
        resolutions := [NoResolutionsFound];
      }
      CatalogNonEmpty(info);
      catalog := resolutions;
      menu := catalog;
      selection := catalog[0];
      notice := ResolutionsLoaded;
    }

    /** The user picks the `i`-th value of the option menu. */
    method Choose(i: nat)
      requires Valid() && i < |menu|
      modifies this
      ensures Valid()
      ensures catalog == old(catalog) && menu == old(menu)
      ensures selection == menu[i]
    {
      selection := menu[i];
    }

    /**
     * The download of the selected resolution for `url`. `probe` is what the
     * flat metadata query answers, `confirm` the user's answer to the
     * confirmation dialog, `folderFailure` and `transferFailure` the
     * exceptions, if any, raised by creating the folder and by the download.
     */
    method DownloadVideo(url: string, probe: Result<Info>, confirm: bool,
                         folderFailure: Option<string>, transferFailure: Option<string>)
      returns (notice: Notice, calls: seq<Call>)
      ensures IsBlank(url) ==> notice == InvalidLink && calls == []
      ensures !IsBlank(url) && !GatePasses(catalog, selection) ==> notice == NoSelection && calls == []
      ensures !IsBlank(url) && GatePasses(catalog, selection) ==>
        && |calls| >= 1 && calls[0] == ExtractInfo(url, true)
        && (probe.Err? ==> notice == DownloadFailed(probe.message) && |calls| == 1)
        && (probe.Ok? ==>
              match Estimate(probe.value.filesize)
              case Err(e) => notice == DownloadFailed(e) && |calls| == 1
              case Ok(estimate) =>
                && |calls| >= 2 && calls[1] == AskYesNo(estimate)
                && (!confirm ==> notice == Cancelled && |calls| == 2)
                && (confirm ==>
                      && |calls| >= 3 && calls[2] == EnsureFolder(DownloadsFolder)
                      && (folderFailure.Some? ==> notice == DownloadFailed(folderFailure.value) && |calls| == 3)
                      && (folderFailure.None? ==>
                            && |calls| == 4 && calls[3] == Download(url, RequestFor(selection))
                            && notice == (if transferFailure.Some? then DownloadFailed(transferFailure.value) else Downloaded))))
      ensures forall i :: 0 <= i < |calls| && (calls[i].EnsureFolder? || calls[i].Download?) ==>
                confirm && !IsBlank(url) && GatePasses(catalog, selection)
      ensures forall i :: 0 <= i < |calls| && calls[i].Download? ==> calls[i] == Download(url, RequestFor(selection))
    {
      if IsBlank(url) {
        return InvalidLink, [];
      }
      if catalog == [] || selection == SelectResolution {
        return NoSelection, [];
      }
      var query := ExtractInfo(url, true);
      if probe.Err? {
        return DownloadFailed(probe.message), [query];
      }
      var estimate := Estimate(probe.value.filesize);
      if estimate.Err? {
        return DownloadFailed(estimate.message), [query];
      }
      var ask := AskYesNo(estimate.value);
      if !confirm {
        return Cancelled, [query, ask];
      }
      var ensure := EnsureFolder(DownloadsFolder);
      if folderFailure.Some? {
        return DownloadFailed(folderFailure.value), [query, ask, ensure];
      }
      calls := [query, ask, ensure, Download(url, RequestFor(selection))];
      notice := if transferFailure.Some? then DownloadFailed(transferFailure.value) else Downloaded;
    }
  }
}

module SessionExamples {
  import opened Wrappers
  import opened PyText
  import opened Catalog
  import opened CatalogExamples
  import opened Downloader

  /**
   * A link whose metadata lists only an audio stream: the catalog becomes
   * the sentinel, the gate lets it through, and the download asks for
   * format "No" merged with the best audio.
   */
  method SentinelIsDownloaded(url: string) returns (fetched: Notice, notice: Notice, calls: seq<Call>)
    requires !IsBlank(url)
    ensures fetched == ResolutionsLoaded
    ensures notice == Downloaded
    ensures |calls| == 4 && calls[1] == AskYesNo(Unknown)
    ensures calls[3].Download? && calls[3].request.format == "No+bestaudio"
  {
    var session := new Session();
    AudioOnlyGivesSentinel();
    var fetchCalls;
    fetched, fetchCalls := session.FetchResolutions(url, Ok(Info(Some([AudioStream("140")]), None)));
    assert session.selection == NoResolutionsFound;
    SentinelPassesGate();
    notice, calls := session.DownloadVideo(url, Ok(Info(None, None)), true, None, None);
  }

  /**
   * A link whose metadata lists one video stream, with a format id that
   * holds no space and a non-zero size: after the fetch and the user's pick,
   * the download asks for exactly that format merged with the best audio.
   */
  method ChosenStreamIsDownloaded(url: string, stream: Stream, size: int) returns (notice: Notice, calls: seq<Call>)
    requires !IsBlank(url)
    requires Qualifies(stream) && "format_id" in stream && ' ' !in Render(stream["format_id"])
    requires size != 0
    ensures notice == Downloaded
    ensures |calls| == 4 && calls[1] == AskYesNo(Bytes(size))
    ensures calls[3].Download? && calls[3].request.format == Render(stream["format_id"]) + "+bestaudio"
  {
    var session := new Session();
    var formats := [stream];
    assert formats[0] == stream && formats[1..] == [];
    assert Labels(formats[1..]) == Ok([]);
    assert Labels(formats) == Ok([LabelOf(stream)] + []);
    var fetched, fetchCalls := session.FetchResolutions(url, Ok(Info(Some(formats), None)));
    session.Choose(0);
    RequestedFormatRoundTrip(stream);
    notice, calls := session.DownloadVideo(url, Ok(Info(None, Some(Number(size)))), true, None, None);
  }
}
