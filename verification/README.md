# YouTube downloader: resolution catalog and download gate

A model of the session logic of a small desktop YouTube downloader. The user
pastes a link and loads resolutions: a metadata query returns the video's
stream records. Each record with a height and a video codec other than
"none" becomes a menu label `"<format_id> (<height>p)"`. The label list,
or the sentinel `"No Resolutions Found"` when it is empty, replaces the
session's catalog, and the selection is reset to the first entry. Downloading
first checks the link and the selection, then does the following in order.
It takes the format id as the text before the first space of the selected
label. It asks a flat metadata query for the file size and shows `Unknown`
when none is reported. It asks the user to confirm. It makes sure the
destination folder exists. Finally it requests `"<format_id>+bestaudio"`,
merged into mp4.

Files:

- `wrappers.dfy` (module `Wrappers`): `Option` and `Result`. `Err` carries the
  text of a raised exception.
- `py_text.dfy` (module `PyText`): the Python string operations the code uses.
  These are `str.strip()` emptiness, `str.split(" ")[0]` and `str(int)`.
- `catalog.dfy` (module `Catalog`): stream records, the filter, the labels, the
  sentinel and the catalog. `CatalogExamples` holds two worked inputs.
- `downloader.dfy` (module `Downloader`): the size estimate, the gate, the
  download options, and the `Session` class. The class holds the catalog, the
  menu values and the selection, and its methods fetch, choose and download.
  `SessionExamples` composes them end to end.

Stream records are dictionaries (`map<string, Field>`). Key presence, a
missing `format_id` (a `KeyError`) and a `None` height (rendered `None`)
therefore follow Python's behaviour. The media library, the dialogs and the
file system are not executed. What they answer is a parameter. Each operation
returns the outbound calls it made, in order (`ExtractInfo`, `AskYesNo`,
`EnsureFolder`, `Download`), and the dialog it ends with (`Notice`).

## Model

| member | source | states |
|---|---|---|
| PyText.StripEmptyIffBlank | main.py:16-18 | `not url.strip()` holds exactly when every character of the link is Python whitespace, the empty link included |
| PyText.Strip | main.py:16 | `str.strip()`: whitespace is removed from both ends, so a non-empty result starts and ends with a non-whitespace character |
| PyText.SplitFirst | main.py:66 | the result is a prefix of the label with no space in it, and is followed by a space unless it is the whole label |
| PyText.SplitFirstOfJoin | main.py:66 | splitting `a + " " + b` at the first space gives back `a` when `a` has no space |
| PyText.IntToString | main.py:34 | a height renders as a non-empty string starting with `-` exactly when negative, every other character a decimal digit (its value: `IntToStringValue`) |
| PyText.NatToStringValue | main.py:34 | the digits rendered for a height denote exactly that number, and start with `0` only for zero: the decimal numeral Python writes |
| PyText.IntToStringValue | main.py:34 | a height renders as digits after an optional `-`; a negative height as `-` followed by the decimal numeral of its absolute value, a non-negative one as its decimal numeral |
| Catalog.Labels | main.py:33-37 | the comprehension succeeds exactly when every qualifying stream has a `format_id`; otherwise it raises `KeyError('format_id')`; it never yields more labels than streams |
| Catalog.Qualifies | main.py:36 | a stream is kept exactly when it has a `height` key and a `vcodec` key whose value is not the text `none` |
| Catalog.Render | main.py:34 | an f-string writes a text value as itself, a number with no space, and `None` as `None` |
| Catalog.Label | main.py:34 | a label starts with the format id followed by a space and ends in `p)` |
| Catalog.LabelOf | main.py:34 | a stream's label starts with its rendered format id and ends in `p)` |
| Catalog.LabelsEnumerateQualifying | main.py:33-37 | exactly one label per qualifying stream, in input order: there are increasing positions covering every stream with a height and a non-"none" codec, and the k-th label is the label of the k-th such stream |
| Catalog.LabelsComeFromVideoStreams | main.py:33-37 | every label is the label of a stream that has a height and a codec other than "none", so audio-only streams never appear |
| Catalog.NoLabelsIffNothingQualifies | main.py:36-40 | the comprehension is empty exactly when no stream qualifies |
| Catalog.CatalogFor | main.py:29-41 | a missing `formats` key raises `KeyError('formats')`; otherwise the catalog exists exactly when the comprehension succeeds |
| Catalog.CatalogNonEmpty | main.py:40-41 | a catalog from a successful query is never empty and never lists the placeholder |
| Catalog.SentinelIffNothingQualifies | main.py:40-41 | the catalog is exactly `["No Resolutions Found"]` when, and only when, no stream qualifies |
| Catalog.CatalogEnumeratesQualifying | main.py:33-41 | when some stream qualifies, the catalog holds exactly one label per qualifying stream, in input order |
| Catalog.LabelIsNeitherSentinelNorPlaceholder | main.py:34 | a label ends in `p)`, so it never equals the sentinel or the placeholder |
| Catalog.LabelFormatIdRoundTrip | main.py:34 | the first space-separated token of a stream's label is its format id, when the id has no space |
| CatalogExamples.ExampleComprehension | main.py:33-37 | for two qualifying streams followed by a non-qualifying one, the comprehension gives the two labels in order |
| CatalogExamples.TwoVideoStreamsAndAudio | main.py:33-37 | video streams of heights 720 and 1080 plus an audio-only stream give exactly the two video labels, in that order |
| CatalogExamples.AudioOnlyGivesSentinel | main.py:40-41 | metadata with only an audio-only stream yields the sentinel alone |
| Downloader.Estimate | main.py:79-84 | the estimate is `Unknown` exactly when `filesize` is absent, null, 0 or empty; only a non-zero byte count gives a numeric estimate; a non-empty string raises the division `TypeError` |
| Downloader.Truthy | main.py:80 | Python truthiness of the reported size: a non-empty text or a non-zero number is true, null is false |
| Downloader.RequestFor | main.py:106-112 | the download options ask for the selected label's first token with `+bestaudio`, a single video, merged into mp4, saved as `%(title)s.%(ext)s` inside the downloads folder that `EnsureFolder` creates |
| Downloader.FormatSpec | main.py:108 | the format spec is the format id followed by `+bestaudio` |
| Downloader.GatePasses | main.py:60-62 | the gate passes exactly when the catalog is non-empty and the selection is not `Select Resolution`; nothing else is checked |
| Downloader.GateOpensWithCatalog | main.py:60-62 | in a consistent session the gate passes exactly when a catalog is loaded, and a selection that passes is a catalog entry |
| Downloader.SentinelFormatId | main.py:66 | the format id taken from the sentinel label is `No` |
| Downloader.SentinelPassesGate | main.py:60-108 | the sentinel passes the gate, and the requested format is `No+bestaudio` |
| Downloader.RequestedFormatRoundTrip | main.py:34-108 | picking a stream's label requests exactly that stream's format id with `+bestaudio` |
| Downloader.Session.constructor | main.py:9-10 | the session starts with no catalog, the menu holding only the placeholder (as built at main.py:140), and the placeholder selected |
| Downloader.Session.FetchResolutions | main.py:12-50 | a blank link stops with the invalid-link error, before any query and with the state unchanged. Otherwise it makes exactly one non-flat query. A raised exception leaves the catalog and selection unchanged. A success replaces catalog and menu with the new catalog and selects its first entry. The session invariant is kept |
| Downloader.Session.Choose | main.py:140 | the user's pick from the option menu becomes the selection; the catalog and menu are unchanged |
| Downloader.Session.DownloadVideo | main.py:52-120 | a blank link, then an empty catalog or the placeholder, each stop with their error before any call. Otherwise come the flat query, the estimate, the confirmation prompt, the folder and the download of `RequestFor(selection)`, each stopping on its failure. Declining ends with no dialog and no folder or download call. A folder or download call happens only after confirmation, a valid link and a passed gate |
| SessionExamples.SentinelIsDownloaded | main.py:40-66 | after a fetch that finds only audio, the download passes the gate and requests `No+bestaudio` |
| SessionExamples.ChosenStreamIsDownloaded | main.py:33-108 | after a fetch of one video stream and the user's pick, the download requests that stream's format id with `+bestaudio` |

The gate at main.py:60 compares the selection only with `"Select Resolution"`.
So the sentinel `"No Resolutions Found"` passes, its format id is `No`, and the
download asks for `No+bestaudio` (`Downloader.SentinelPassesGate`,
`SessionExamples.SentinelIsDownloaded`).

## Left out

- Widgets, the main loop and the dialogs (main.py:1-2, 6, 122-146): a dialog
  is the `Notice` an operation returns, and the confirmation is a boolean
  parameter. The option menu is kept only as the `menu` field, and choosing
  from it is `Session.Choose`.
- The media library's `extract_info` and `download` (main.py:29-30, 75-76,
  115-116): their results or raised messages are parameters.
- Home-directory expansion, path joining, the existence test and `makedirs`
  (main.py:96-100, 109): the folder is the list of path components
  `["~", "Downloads", "YouTube Downloads"]`. Creating it is the `EnsureFolder`
  call, and its failure is a parameter. The output template joined at line 109
  is that list with the file-name template appended, so the file goes into the
  downloads folder; the text of the joined path is not computed.
- Downloader.Estimate: keeps the byte count. It does not compute the division
  by 1024*1024 or the rounding to two decimals (main.py:81-82), which are
  floating-point arithmetic. So it does not show that 104857600 bytes read as
  100.0 MB.
- Exception texts are kept only as the cause string. The fixed prefix that
  the error dialogs add to it is not modelled.
- A `format_id` or `height` of a type other than string, integer or None is
  not modelled. Neither is a `formats` value that is not a list.
