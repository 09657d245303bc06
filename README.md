# Context Combiner — a Dafny model of its sidebar provider

Context Combiner is an editor extension. Its sidebar panel lists the text
files of the open workspace, lets the user pick some, and combines their
contents into one text. That text can be saved to a timestamped file in the
workspace or copied to the clipboard. All the logic sits in one class,
`ContextCombinerViewProvider` in `extension.js`. This project models the
parts of that class that decide something:

- **`NodePath`**: Node's POSIX `path.extname`, which the provider calls but
  does not define, plus ASCII lower-casing. `path.extname` drops trailing
  `/`s and takes the last segment. It returns the segment from its last `.`
  to the end, or `""` when the segment has no `.`, when its only `.` leads
  it (`.gitignore`), or when the segment is `..`. A trailing dot gives `"."`.
- **`TextFiles`**: `_isTextFile`, which tests the lower-cased extension
  against the provider's 47 suffixes and also accepts an empty extension.
- **`Catalog`**: the `map`/`filter` pipeline of `_sendFileList`. It turns
  the URIs found by the host into `{path, fullPath}` entries and keeps the
  text files, in the host's order.
- **`SaveName`**: the name `_saveFile` gives the saved file. `:` and `.` in
  the ISO time become `-`, the last five characters are dropped, and the
  result is wrapped in `context_<ts>.txt`.
- **`Provider`**: the class itself. It holds the `_view` guard, the `switch`
  on each panel message's `type` and the four handlers. The editor host is
  an input (`Host`): the workspace folder, search results, relative paths,
  file reads, the clock and whether writes and copies succeed. Everything
  the provider does to the host goes into logs: replies posted to the panel,
  notifications, saved files and clipboard writes. Each handler is specified
  by a function from the host's answers to these effects. The class methods
  follow the source's control flow and are proved to append exactly those
  effects.

`_readFile` joins the requested path to the workspace folder without checking
it (extension.js:165), so the model promises no containment of reads. Which
directories are skipped is decided by the host's search glob
(extension.js:111-114), so the model proves nothing about it.

## Model

| member | source | states |
|---|---|---|
| NodePath.ExtName | extension.js:151 | the extension is `""`, or a `.` followed by no other `.` and no `/` |
| NodePath.SegmentExt | extension.js:151 | one segment's extension is empty or a `.` with no further `.`, and it is a suffix of the segment |
| NodePath.ExtNameEmptyIff | extension.js:151-152 | the extension is `""` exactly when the last segment has no `.`, is a dotfile, or is `..` |
| NodePath.SegmentExtEmptyIff | extension.js:151-152 | the same characterisation for a single segment |
| NodePath.ExtNameOfLastSegment | extension.js:151 | a leading directory part never changes the extension: only the final segment counts |
| NodePath.ExtNameIgnoresTrailingSlash | extension.js:151 | a trailing `/` does not change the extension |
| NodePath.ExtNameOfStemAndSuffix | extension.js:151 | a segment `stem.e` with a non-empty stem that is not `..` has extension `.e` |
| NodePath.ExtNameOfPath | extension.js:151 | the same inside any directory: `dir/stem.e` has extension `.e` |
| NodePath.TrimTrailingSlashesSpec | extension.js:151 | only the trailing run of `/` is removed before the segment is taken |
| NodePath.ExtNameLower | extension.js:151 | lower-casing a path lower-cases its extension and changes nothing else about it |
| TextFiles.NoExtensionIsText | extension.js:152 | every path without an extension is accepted |
| TextFiles.DotfileIsText | extension.js:151-152 | a dotfile such as `.gitignore` is accepted in any directory |
| TextFiles.IsTextFileIgnoresCase | extension.js:151-152 | two paths equal up to ASCII case are both accepted or both rejected |
| TextFiles.IsTextFileBySuffix | extension.js:143-152 | `dir/stem.e` is accepted exactly when the lower-cased `.e` is one of the listed suffixes |
| TextFiles.DoubleSuffixExample | extension.js:143-152 | `<stem>.gz` (for example `a.tar.gz`) has extension `.gz` and is rejected |
| TextFiles.DirectoryDotExample | extension.js:143-152 | `dir.py/Makefile` has no extension and is accepted |
| TextFiles.DotfileExample | extension.js:151-152 | `.gitignore` has no extension and is accepted |
| TextFiles.TrailingDotExample | extension.js:151-152 | `foo.` has extension `.` and is rejected |
| TextFiles.UpperCaseExample | extension.js:143-152 | `X.JS` has extension `.JS` and is accepted |
| TextFiles.GzUnlisted | extension.js:143-149 | `.gz` is not among the listed suffixes |
| TextFiles.DotUnlisted | extension.js:143-149 | `.` is not among the listed suffixes |
| Catalog.ToEntries | extension.js:118-125 | one entry per URI, in order, pairing the relative path with the URI's file-system path |
| Catalog.KeepTextFiles | extension.js:126 | kept entries are exactly the input entries whose path passes the text-file test, and there are no more of them than inputs |
| Catalog.KeepTextFilesIsSubsequence | extension.js:126 | the filter keeps the original order |
| Catalog.KeepTextFilesCounts | extension.js:126 | every copy of a text-file entry is kept and no copy of any other entry |
| Catalog.CatalogSound | extension.js:118-126 | catalog entries are text files built from found URIs; every found text file is listed; the order is the host's |
| SaveName.DashPunctuation | extension.js:195 | same length, no `:` or `.` left, `:` and `.` become `-`, all other characters kept |
| SaveName.DropLastFive | extension.js:195 | `slice(0, -5)`: the result is a prefix of its input, five characters shorter (empty for inputs under five), and putting the last five back restores the input |
| SaveName.TimestampIsDashedPrefix | extension.js:195 | the timestamp is the first `length - 5` characters with `:`/`.` mapped to `-` |
| SaveName.IsoTimestampShape | extension.js:195-196 | for `YYYY-MM-DDTHH:mm:ss.sssZ` the name is `context_YYYY-MM-DDTHH-mm-ss.txt`, with a 19-character timestamp free of `:` and `.` |
| SaveName.SameNameIffSameSecond | extension.js:195-196 | two saves get the same name exactly when their ISO times agree to the second |
| SaveName.NameFromParts | extension.js:195-196 | `<date>:<mm>:<ss>.<sssZ>` is saved as `context_<date>-<mm>-<ss>.txt`: milliseconds and zone dropped, time separators turned into `-` |
| SaveName.Example | extension.js:195-196 | every save during 2024-01-15T10:30:45 UTC, whatever its milliseconds, goes to `context_2024-01-15T10-30-45.txt` |
| Provider.ContextCombinerViewProvider.constructor | extension.js:32-35 | a new provider has no view and has done nothing |
| Provider.ContextCombinerViewProvider.ResolveWebviewView | extension.js:40-80 | the view becomes set and the first file list is sent |
| Provider.ContextCombinerViewProvider.Refresh | extension.js:85-87 | a refresh sends the file list when the view is set and does nothing otherwise |
| Provider.ContextCombinerViewProvider.SendFileList | extension.js:92-137 | no view: nothing; no workspace: an empty list; failed search: an error notification; otherwise the catalog |
| Provider.ContextCombinerViewProvider.ReadFile | extension.js:158-181 | no view or no workspace: nothing; otherwise one `fileContent` reply with the text or the error placeholder |
| Provider.ContextCombinerViewProvider.SaveFile | extension.js:186-211 | the content is written under the derived name, or the failure is reported; no view check |
| Provider.ContextCombinerViewProvider.CopyToClipboard | extension.js:70-73 | the content is copied and a notification follows; a failed copy does neither |
| Provider.ContextCombinerViewProvider.OnMessage | extension.js:55-76 | a message has exactly the effects of the handler its `type` selects |
| Provider.HandlerForExactly | extension.js:57-75 | each of the four types selects its own handler, and every other type selects none |
| Provider.UnknownTypeIsIgnored | extension.js:57-75 | a message of any other type has no effect |
| Provider.NoWorkspaceEmptyList | extension.js:99-106 | without a workspace folder the reply is an empty file list, whatever the search would give |
| Provider.FileListIsCatalog | extension.js:109-132 | a successful search gives one `fileList` reply that holds exactly the catalog, and no notification |
| Provider.ReadAlwaysReplies | extension.js:158-181 | in an open workspace a read gives exactly one reply for the requested path; a failure becomes `[Error reading file: <msg>]` and is never reported as an error |
| Provider.PlaceholderKeepsMessage | extension.js:178 | the placeholder is the fixed prefix, the whole message and `]` |
| Provider.PlaceholderInjective | extension.js:178 | different read errors give different placeholders |
| Provider.SaveWritesTimestampedFile | extension.js:186-211 | a successful write stores the content verbatim under the derived name in the workspace folder; a failed write stores nothing and reports `Failed to save file: <msg>` |
| Provider.HandlersStayInTheirLane | extension.js:55-76 | only saves write files, only copies touch the clipboard, and only file-list and read requests with a view post to the panel |

## Left out

- The host's file search (`findFiles`) and its exclude glob, `asRelativePath`, message delivery to the panel, notifications, opening the saved document and the clipboard are host calls. Their results are inputs; the directory exclusion is not modelled.
- File reading and writing, UTF-8 decoding and `path.join` normalisation are I/O. A read is a function from the requested relative path to text or an error message, and a save is recorded as folder, name and content. Nothing checks that a joined path stays inside the workspace, because the code does not check it either.
- The clock: the ISO time string is an input.
- `_getNonce` (it uses `Math.random`) and `_getHtmlForWebview` (it reads a template file); `activate`, `deactivate`, command registration and console logging.
- Interleaving of concurrent requests: each handler runs to completion before the next message.
- Payload fields that are missing or not strings: `path` and `content` are always strings in the model.
- NodePath.ExtName: models the POSIX flavour only. On Windows, `path.extname` also splits on `\`.
- NodePath.Lower: maps only `A`-`Z`. JavaScript's `toLowerCase` is full Unicode, so a non-ASCII letter that lower-cases to an ASCII one (such as the Kelvin sign) is not covered.
- Provider.ContextCombinerViewProvider.SendFileList: only a failed search reaches the `catch`. An exception from `asRelativePath` or `postMessage` is not modelled.
- SaveName.IsoTimestampShape: covers years 0000-9999 only. For the six-digit years `toISOString` uses outside that range, only the general `TimestampIsDashedPrefix` applies.
- Provider.ContextCombinerViewProvider.CopyToClipboard: a failed copy is modelled as having no effect. In the source it is an unhandled promise rejection.
- Order across kinds of effect: replies, notifications, saved files and clipboard writes go into four separate logs. The order within each log is kept, but not the order between them, for example that the file is written before `Saved to …` is shown (extension.js:200-206).
