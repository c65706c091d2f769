/**
 * The resolution catalog: which entries of the metadata's `formats` list
 * become menu labels, how each label is written, and the sentinel that
 * stands in for an empty catalog (main.py, fetch_resolutions).
 */
module Catalog {
  import opened Wrappers
  import opened PyText

  /** A value stored in a stream record, as far as the catalog reads it. */
  datatype Field = Text(s: string) | Number(n: int) | Null

  /** One entry of the metadata's `formats` list: a dictionary from key to value. */
  type Stream = map<string, Field>

  /** The part of a metadata query's answer that the downloader reads. */
  datatype Info = Info(formats: Option<seq<Stream>>, filesize: Option<Field>)

  /** The single entry that replaces an empty catalog. */
  const NoResolutionsFound: string := "No Resolutions Found"

  /** The placeholder the selection holds before any catalog is loaded. */
  const SelectResolution: string := "Select Resolution"

  /** The text of the `KeyError` raised when `key` is missing from a dictionary. */
  function KeyError(key: string): string {
    "'" + key + "'"
  }

  /** How an f-string writes a field: Python's `str` of the value. */
  function Render(v: Field): (r: string)
    ensures v.Text? ==> r == v.s
    ensures v.Number? ==> ' ' !in r
    ensures v.Null? ==> r == "None"
  {
    match v
    case Text(s) => s
    case Number(n) => IntToString(n)
    case Null => "None"
  }

  /** A stream is listed when it has a height and a video codec other than "none". */
  predicate Qualifies(stream: Stream) {
    "height" in stream && "vcodec" in stream && stream["vcodec"] != Text("none")
  }

  /** The menu label `"<format_id> (<height>p)"`. */
  function Label(formatId: string, height: string): (r: string)
    ensures |r| == |formatId| + |height| + 4
    ensures r[..|formatId|] == formatId && r[|formatId|] == ' '
    ensures r[|r| - 2..] == "p)"
  {
    formatId + " (" + height + "p)"
  }

  /** The label of a stream that has both a format id and a height. */
  function LabelOf(stream: Stream): (r: string)
    requires "format_id" in stream && "height" in stream
    ensures |r| == |Render(stream["format_id"])| + |Render(stream["height"])| + 4
    ensures r[..|Render(stream["format_id"])|] == Render(stream["format_id"])
    ensures r[|r| - 2..] == "p)"
  {
    Label(Render(stream["format_id"]), Render(stream["height"]))
  }

  /**
   * The list comprehension over the `formats` list: the labels of the
   * qualifying streams, or the `KeyError` raised by a qualifying stream
   * without a format id.
   */
  function Labels(formats: seq<Stream>): (r: Result<seq<string>>)
    ensures r.Ok? <==> forall j :: 0 <= j < |formats| && Qualifies(formats[j]) ==> "format_id" in formats[j]
    ensures r.Err? ==> r.message == KeyError("format_id")
    ensures r.Ok? ==> |r.value| <= |formats|
  {
    if formats == [] then Ok([])
    else
      var stream := formats[0];
      var rest := Labels(formats[1..]);
      assert forall j :: 1 <= j < |formats| ==> formats[j] == formats[1..][j - 1];
      if !Qualifies(stream) then rest
      else if "format_id" !in stream then Err(KeyError("format_id"))
      else if rest.Err? then rest
      else Ok([LabelOf(stream)] + rest.value)
  }

  /**
   * The catalog a successful metadata query yields: the labels, or the
   * sentinel alone when no stream qualifies; or the `KeyError` the
   * comprehension raises.
   */
  function CatalogFor(info: Info): (r: Result<seq<string>>)
    ensures info.formats.None? ==> r == Err(KeyError("formats"))
    ensures info.formats.Some? ==> (r.Ok? <==> Labels(info.formats.value).Ok?)
    ensures r.Err? ==> r.message in {KeyError("formats"), KeyError("format_id")}
  {
    match info.formats
    case None => Err(KeyError("formats"))
    case Some(formats) =>
      match Labels(formats)
      case Err(e) => Err(e)
      case Ok(labels) => Ok(if labels == [] then [NoResolutionsFound] else labels)
  }

  /** `idx` lists, in increasing order, exactly the positions of the elements of `xs` that satisfy `p`. */
  ghost predicate Positions<T>(xs: seq<T>, p: T -> bool, idx: seq<nat>) {
    && (forall k :: 0 <= k < |idx| ==> idx[k] < |xs| && p(xs[idx[k]]))
    && (forall k, l :: 0 <= k < l < |idx| ==> idx[k] < idx[l])
    && (forall j :: 0 <= j < |xs| && p(xs[j]) ==> j in idx)
  }

  /** Every position moved one place on. */
  function Shift(idx: seq<nat>): (r: seq<nat>)
    ensures |r| == |idx| && forall k :: 0 <= k < |idx| ==> r[k] == idx[k] + 1
  {
    seq(|idx|, k requires 0 <= k < |idx| => idx[k] + 1)
  }

  /** One step of the comprehension: the head stream contributes its label when it qualifies. */
  lemma LabelsStep(formats: seq<Stream>)
    requires formats != [] && Labels(formats).Ok?
    ensures Labels(formats[1..]).Ok?
    ensures Qualifies(formats[0]) ==> "format_id" in formats[0]
    ensures Labels(formats).value
            == (if Qualifies(formats[0]) then [LabelOf(formats[0])] else []) + Labels(formats[1..]).value
  {
  }

  /** When the head fails `p`, the positions in the tail, moved one place on, are those of the whole list. */
  lemma PositionsSkip<T>(xs: seq<T>, p: T -> bool, rest: seq<nat>)
    requires xs != [] && !p(xs[0]) && Positions(xs[1..], p, rest)
    ensures Positions(xs, p, Shift(rest))
  {
    var shifted := Shift(rest);
    forall j | 0 <= j < |xs| && p(xs[j]) ensures j in shifted {
      assert xs[1..][j - 1] == xs[j];
      var k :| 0 <= k < |rest| && rest[k] == j - 1;
      assert shifted[k] == j;
    }
  }

  /** When the head satisfies `p`, position 0 followed by the positions in the tail moved one place on are those of the whole list. */
  lemma PositionsKeep<T>(xs: seq<T>, p: T -> bool, rest: seq<nat>)
    requires xs != [] && p(xs[0]) && Positions(xs[1..], p, rest)
    ensures Positions(xs, p, [0] + Shift(rest))
  {
    var idx := [0] + Shift(rest);
    assert forall k :: 1 <= k < |idx| ==> idx[k] == rest[k - 1] + 1;
    KeepSound(xs, p, rest);
    KeepComplete(xs, p, rest);
  }

  /** Each of position 0 and the shifted tail positions points at an element satisfying `p`. */
  lemma KeepSound<T>(xs: seq<T>, p: T -> bool, rest: seq<nat>)
    requires xs != [] && p(xs[0]) && Positions(xs[1..], p, rest)
    ensures forall k :: 0 <= k < |rest| + 1 ==> ([0] + Shift(rest))[k] < |xs| && p(xs[([0] + Shift(rest))[k]])
  {
    var idx := [0] + Shift(rest);
    forall k | 1 <= k < |idx| ensures idx[k] < |xs| && p(xs[idx[k]]) {
      assert idx[k] == rest[k - 1] + 1;
      assert xs[idx[k]] == xs[1..][rest[k - 1]];
    }
  }

  /** Every position of an element satisfying `p` is position 0 or a shifted tail position. */
  lemma KeepComplete<T>(xs: seq<T>, p: T -> bool, rest: seq<nat>)
    requires xs != [] && p(xs[0]) && Positions(xs[1..], p, rest)
    ensures forall j :: 0 <= j < |xs| && p(xs[j]) ==> j in [0] + Shift(rest)
  {
    var idx := [0] + Shift(rest);
    forall j | 0 <= j < |xs| && p(xs[j]) ensures j in idx {
      if j > 0 {
        assert xs[1..][j - 1] == xs[j];
        var k :| 0 <= k < |rest| && rest[k] == j - 1;
        assert idx[k + 1] == j;
      }
    }
  }

  /** The k-th of `labels` is the label of the stream at the k-th of the positions `idx`. */
  ghost predicate LabelsAt(formats: seq<Stream>, labels: seq<string>, idx: seq<nat>) {
    && |labels| == |idx|
    && forall k :: 0 <= k < |idx| ==>
         && idx[k] < |formats| && "format_id" in formats[idx[k]] && "height" in formats[idx[k]]
         && labels[k] == LabelOf(formats[idx[k]])
  }

  /** Labels matched in the tail stay matched one place on, behind the head's label. */
  lemma LabelsAtKeep(formats: seq<Stream>, tl: seq<string>, rest: seq<nat>)
    requires formats != [] && "format_id" in formats[0] && "height" in formats[0]
    requires LabelsAt(formats[1..], tl, rest)
    ensures LabelsAt(formats, [LabelOf(formats[0])] + tl, [0] + Shift(rest))
  {
    var labels, idx := [LabelOf(formats[0])] + tl, [0] + Shift(rest);
    forall k | 1 <= k < |idx|
      ensures idx[k] < |formats| && "format_id" in formats[idx[k]] && "height" in formats[idx[k]]
      ensures labels[k] == LabelOf(formats[idx[k]])
    {
      assert idx[k] == rest[k - 1] + 1 && labels[k] == tl[k - 1];
      assert formats[1..][rest[k - 1]] == formats[idx[k]];
    }
  }

  /** Labels matched in the tail stay matched one place on. */
  lemma LabelsAtSkip(formats: seq<Stream>, tl: seq<string>, rest: seq<nat>)
    requires formats != [] && LabelsAt(formats[1..], tl, rest)
    ensures LabelsAt(formats, tl, Shift(rest))
  {
    var idx := Shift(rest);
    forall k | 0 <= k < |idx|
      ensures idx[k] < |formats| && "format_id" in formats[idx[k]] && "height" in formats[idx[k]]
      ensures tl[k] == LabelOf(formats[idx[k]])
    {
      assert formats[1..][rest[k]] == formats[idx[k]];
    }
  }

  /**
   * The catalog has exactly one label per qualifying stream, in the order of
   * the `formats` list: the k-th label is the label of the k-th qualifying
   * stream. Nothing is dropped, merged or re-sorted.
   */
  lemma {:induction false} LabelsEnumerateQualifying(formats: seq<Stream>) returns (idx: seq<nat>)
    requires Labels(formats).Ok?
    ensures Positions(formats, Qualifies, idx)
    ensures LabelsAt(formats, Labels(formats).value, idx)
  {
    if formats == [] {
      idx := [];
    } else {
      LabelsStep(formats);
      var tail := formats[1..];
      var rest := LabelsEnumerateQualifying(tail);
      var labels, tl := Labels(formats).value, Labels(tail).value;
      if Qualifies(formats[0]) {
        PositionsKeep(formats, Qualifies, rest);
        LabelsAtKeep(formats, tl, rest);
        idx := [0] + Shift(rest);
        assert labels == [LabelOf(formats[0])] + tl;
      } else {
        PositionsSkip(formats, Qualifies, rest);
        LabelsAtSkip(formats, tl, rest);
        idx := Shift(rest);
        assert labels == tl;
      }
    }
  }

  /** Every label in the catalog is the label of a stream with a height and a video codec other than "none". */
  lemma LabelsComeFromVideoStreams(formats: seq<Stream>, i: nat)
    requires Labels(formats).Ok? && i < |Labels(formats).value|
    ensures exists j :: 0 <= j < |formats| && Qualifies(formats[j]) && "format_id" in formats[j]
                        && Labels(formats).value[i] == LabelOf(formats[j])
  {
    var idx := LabelsEnumerateQualifying(formats);
    var j := idx[i];
    assert Qualifies(formats[j]) && Labels(formats).value[i] == LabelOf(formats[j]);
  }

  /** The comprehension yields no label exactly when no stream qualifies. */
  lemma NoLabelsIffNothingQualifies(formats: seq<Stream>)
    requires Labels(formats).Ok?
    ensures Labels(formats).value == [] <==> forall j :: 0 <= j < |formats| ==> !Qualifies(formats[j])
  {
    var idx := LabelsEnumerateQualifying(formats);
    if idx != [] {
      assert Qualifies(formats[idx[0]]);
    }
  }

  /** No label can be mistaken for the sentinel or for the placeholder: a label ends in "p)". */
  lemma LabelIsNeitherSentinelNorPlaceholder(formatId: string, height: string)
    ensures Label(formatId, height) != NoResolutionsFound
    ensures Label(formatId, height) != SelectResolution
  {
    var r := Label(formatId, height);
    assert r[|r| - 1] == ')';
  }

  /** A catalog from a successful query is never empty and never lists the placeholder. */
  lemma CatalogNonEmpty(info: Info)
    requires CatalogFor(info).Ok?
    ensures CatalogFor(info).value != []
    ensures SelectResolution !in CatalogFor(info).value
  {
    var labels := Labels(info.formats.value).value;
    if labels != [] {
      forall i | 0 <= i < |labels| ensures labels[i] != SelectResolution {
        LabelsComeFromVideoStreams(info.formats.value, i);
        var j :| 0 <= j < |info.formats.value| && Qualifies(info.formats.value[j]) && "format_id" in info.formats.value[j]
                 && labels[i] == LabelOf(info.formats.value[j]);
        var s := info.formats.value[j];
        LabelIsNeitherSentinelNorPlaceholder(Render(s["format_id"]), Render(s["height"]));
      }
    }
  }

  /** The catalog is exactly the sentinel alone when, and only when, no stream qualifies. */
  lemma SentinelIffNothingQualifies(info: Info)
    requires CatalogFor(info).Ok?
    ensures CatalogFor(info).value == [NoResolutionsFound]
            <==> forall j :: 0 <= j < |info.formats.value| ==> !Qualifies(info.formats.value[j])
  {
    var formats := info.formats.value;
    var labels := Labels(formats).value;
    NoLabelsIffNothingQualifies(formats);
    if labels != [] {
      var idx := LabelsEnumerateQualifying(formats);
      var s := formats[idx[0]];
      LabelIsNeitherSentinelNorPlaceholder(Render(s["format_id"]), Render(s["height"]));
      assert labels[0] != NoResolutionsFound;
    }
  }

  /**
   * When some stream qualifies, the catalog is the comprehension itself: one
   * label per qualifying stream, in the order of the `formats` list.
   */
  lemma CatalogEnumeratesQualifying(info: Info) returns (idx: seq<nat>)
    requires CatalogFor(info).Ok?
    requires exists j :: 0 <= j < |info.formats.value| && Qualifies(info.formats.value[j])
    ensures Positions(info.formats.value, Qualifies, idx)
    ensures LabelsAt(info.formats.value, CatalogFor(info).value, idx)
  {
    var formats := info.formats.value;
    NoLabelsIffNothingQualifies(formats);
    assert CatalogFor(info).value == Labels(formats).value;
    idx := LabelsEnumerateQualifying(formats);
  }

  /**
   * The first space-separated token of a stream's label is its format id,
   * provided the id holds no space.
   */
  lemma LabelFormatIdRoundTrip(stream: Stream)
    requires "format_id" in stream && "height" in stream
    requires ' ' !in Render(stream["format_id"])
    ensures SplitFirst(LabelOf(stream)) == Render(stream["format_id"])
  {
    var id := Render(stream["format_id"]);
    var h := Render(stream["height"]);
    assert LabelOf(stream) == id + " " + ("(" + h + "p)");
    SplitFirstOfJoin(id, "(" + h + "p)");
  }
}

module CatalogExamples {
  import opened Wrappers
  import opened PyText
  import opened Catalog

  function VideoStream(formatId: string, height: int): Stream {
    map["format_id" := Text(formatId), "height" := Number(height), "vcodec" := Text("avc1")]
  }

  function AudioStream(formatId: string): Stream {
    map["format_id" := Text(formatId), "height" := Null, "vcodec" := Text("none")]
  }

  lemma ExampleHeights()
    ensures IntToString(720) == "720" && IntToString(1080) == "1080"
  {
    assert NatToString(7) == "7";
    assert NatToString(72) == "72";
    assert NatToString(1) == "1";
    assert NatToString(10) == "10";
    assert NatToString(108) == "108";
  }

  lemma ExampleLabels()
    ensures LabelOf(VideoStream("136", 720)) == "136 (720p)"
    ensures LabelOf(VideoStream("137", 1080)) == "137 (1080p)"
  {
    ExampleHeights();
  }

  /** The comprehension over two video streams and an audio stream keeps the two video streams. */
  lemma ExampleComprehension(v1: Stream, v2: Stream, audio: Stream)
    requires Qualifies(v1) && "format_id" in v1
    requires Qualifies(v2) && "format_id" in v2
    requires !Qualifies(audio)
    ensures Labels([v1, v2, audio]) == Ok([LabelOf(v1), LabelOf(v2)])
  {
    var formats := [v1, v2, audio];
    assert formats[1..][1..] == formats[2..] == [audio];
    assert [audio][1..] == [];
    assert Labels(formats[2..]) == Ok([]);
    var rest := Labels(formats[1..]);
    assert rest == Ok([LabelOf(v2)] + []);
    assert formats[0] == v1;
    assert Labels(formats) == Ok([LabelOf(v1)] + rest.value);
    assert [LabelOf(v1)] + rest.value == [LabelOf(v1), LabelOf(v2)];
  }

  /** Two video streams and an audio-only stream give the two video labels, in their order. */
  lemma TwoVideoStreamsAndAudio()
    ensures CatalogFor(Info(Some([VideoStream("136", 720), VideoStream("137", 1080), AudioStream("140")]), None))
            == Ok(["136 (720p)", "137 (1080p)"])
  {
    var v1, v2, audio := VideoStream("136", 720), VideoStream("137", 1080), AudioStream("140");
    assert "avc1" != "none";
    ExampleComprehension(v1, v2, audio);
    ExampleLabels();
  }

  /** Only an audio-only stream: the catalog is the sentinel alone. */
  lemma AudioOnlyGivesSentinel()
    ensures CatalogFor(Info(Some([AudioStream("140")]), None)) == Ok([NoResolutionsFound])
  {
    var formats := [AudioStream("140")];
    assert !Qualifies(formats[0]);
    assert Labels(formats[1..]) == Ok([]);
  }
}
