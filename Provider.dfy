/** The sidebar provider (`ContextCombinerViewProvider`): its `_view` guard,
    the `switch` on the `type` of each message from the panel, and the four
    handlers behind it.

    Everything the provider asks of the editor host is an input, bundled in
    `Host`: the first workspace folder, the result of the file search, the
    relative-path conversion, file reads, the current time as an ISO string,
    and whether writing, opening and copying succeed. Everything it does to
    the host is recorded: replies posted to the panel, notifications shown,
    files saved and text copied to the clipboard. Each handler is specified
    by a function giving those effects; the class applies them. */
module Provider {
  import opened TextFiles
  import opened Catalog
  import opened SaveName

  datatype Option<T> = None | Some(value: T)

  /** A host call that yields a value or fails with an error message. */
  datatype Outcome<T> = Ok(value: T) | Err(message: string)

  /** A host call that yields nothing or fails with an error message. */
  datatype Status = Done | Failed(message: string)

  /** A message the provider posts to its panel. */
  datatype Reply =
    | FileList(files: seq<FileEntry>)
    | FileContent(path: string, content: string)

  /** A notification shown by the host window. */
  datatype Notice = Info(text: string) | Error(text: string)

  /** A file written by a save: the workspace folder, the file name inside
      it and the text written. */
  datatype SavedFile = SavedFile(folder: string, name: string, content: string)

  /** A message from the panel: its `type` and the `path` and `content`
      fields that the handlers read. */
  datatype Message = Message(kind: string, path: string, content: string)

  /** The host's side of one request. */
  datatype Host = Host(
    workspaceFolder: Option<string>,      // file-system path of the first workspace folder
    search: Outcome<seq<Uri>>,            // `findFiles` with the provider's globs
    asRelativePath: Uri -> string,        // `workspace.asRelativePath`
    readFile: string -> Outcome<string>,  // reading a workspace-relative path as UTF-8
    isoNow: string,                       // `new Date().toISOString()`
    writeStatus: Status,                  // `fs.writeFileSync` of the saved file
    showStatus: Status,                   // opening and showing the saved file
    clipboardStatus: Status)              // `clipboard.writeText`

  /** What one request does to the host, each list in the order it happens. */
  datatype Effects = Effects(
    posts: seq<Reply>,
    notices: seq<Notice>,
    saves: seq<SavedFile>,
    copies: seq<string>)

  const Quiet: Effects := Effects([], [], [], [])

  function Then(a: Effects, b: Effects): Effects {
    Effects(a.posts + b.posts, a.notices + b.notices, a.saves + b.saves, a.copies + b.copies)
  }

  // The handlers, for a provider whose view is set.

  /** `_sendFileList`: with no workspace folder an empty list and no search;
      otherwise the catalog of what the search found, or an error
      notification when the search fails. */
  function FileListEffects(host: Host): Effects {
    if host.workspaceFolder.None? then Effects([FileList([])], [], [], [])
    else match host.search
      case Err(m) => Effects([], [Error("Failed to load files: " + m)], [], [])
      case Ok(uris) => Effects([FileList(BuildCatalog(uris, host.asRelativePath))], [], [], [])
  }

  /** The content sent in place of a file that could not be read. */
  function ErrorPlaceholder(message: string): string {
    "[Error reading file: " + message + "]"
  }

  /** `_readFile`: with no workspace folder nothing; otherwise one
      `fileContent` reply for the requested path, carrying the text read or
      the error placeholder. */
  function ReadFileEffects(host: Host, relativePath: string): Effects {
    if host.workspaceFolder.None? then Quiet
    else match host.readFile(relativePath)
      case Ok(text) => Effects([FileContent(relativePath, text)], [], [], [])
      case Err(m) => Effects([FileContent(relativePath, ErrorPlaceholder(m))], [], [], [])
  }

  /** `_saveFile`: writes the content verbatim to `context_<timestamp>.txt`
      in the workspace folder, opens it and says so; any failure becomes an
      error notification (a file already written stays written). */
  function SaveFileEffects(host: Host, content: string): Effects {
    match host.workspaceFolder
    case None => Effects([], [Error("No workspace folder open")], [], [])
    case Some(folder) =>
      var name := SaveFileName(host.isoNow);
      match host.writeStatus
      case Failed(m) => Effects([], [Error("Failed to save file: " + m)], [], [])
      case Done =>
        match host.showStatus
        case Failed(m) => Effects([], [Error("Failed to save file: " + m)], [SavedFile(folder, name, content)], [])
        case Done => Effects([], [Info("Saved to " + name)], [SavedFile(folder, name, content)], [])
  }

  /** The `copyToClipboard` case: copy, then say so. A failed copy rejects
      the handler's promise before the notification. */
  function CopyEffects(host: Host, content: string): Effects {
    match host.clipboardStatus
    case Done => Effects([], [Info("Content copied to clipboard!")], [], [content])
    case Failed(_) => Quiet
  }

  /** The handler a message `type` selects. */
  datatype Handler = GetFiles | ReadFile | SaveFile | CopyToClipboard | NoHandler

  function HandlerFor(kind: string): Handler {
    if kind == "getFiles" then GetFiles
    else if kind == "readFile" then ReadFile
    else if kind == "saveFile" then SaveFile
    else if kind == "copyToClipboard" then CopyToClipboard
    else NoHandler
  }

  /** One message, handled by a provider whose view is set or not. Only the
      file-list and read handlers check the view. */
  function HandleEffects(host: Host, hasView: bool, msg: Message): Effects {
    match HandlerFor(msg.kind)
    case GetFiles => if hasView then FileListEffects(host) else Quiet
    case ReadFile => if hasView then ReadFileEffects(host, msg.path) else Quiet
    case SaveFile => SaveFileEffects(host, msg.content)
    case CopyToClipboard => CopyEffects(host, msg.content)
    case NoHandler => Quiet
  }

  class ContextCombinerViewProvider {
    /** Whether `_view` is set. */
    var hasView: bool
    /** Everything posted to the panel, oldest first. */
    var posted: seq<Reply>
    /** Every notification shown. */
    var notices: seq<Notice>
    /** Every file written. */
    var saved: seq<SavedFile>
    /** Every text written to the clipboard. */
    var copied: seq<string>

    function Log(): Effects
      reads this
    {
      Effects(posted, notices, saved, copied)
    }

    constructor ()
      ensures !hasView && Log() == Quiet
    {
      hasView := false;
      posted, notices, saved, copied := [], [], [], [];
    }

    /** `resolveWebviewView`: remember the view, then send the first file
        list. */
    method ResolveWebviewView(host: Host)
      modifies this
      ensures hasView
      ensures Log() == Then(old(Log()), FileListEffects(host))
    {
      hasView := true;
      SendFileList(host);
    }

    /** `refresh`. */
    method Refresh(host: Host)
      modifies this
      ensures hasView == old(hasView)
      ensures Log() == Then(old(Log()), if hasView then FileListEffects(host) else Quiet)
    {
      SendFileList(host);
    }

    method SendFileList(host: Host)
      modifies this
      ensures hasView == old(hasView)
      ensures Log() == Then(old(Log()), if hasView then FileListEffects(host) else Quiet)
    {
      if !hasView {
        return;
      }
      if host.workspaceFolder.None? {
        posted := posted + [FileList([])];
        return;
      }
      match host.search {
        case Err(m) =>
          notices := notices + [Error("Failed to load files: " + m)];
        case Ok(uris) =>
          var files := BuildCatalog(uris, host.asRelativePath);
          posted := posted + [FileList(files)];
      }
    }

    method ReadFile(host: Host, relativePath: string)
      modifies this
      ensures hasView == old(hasView)
      ensures Log() == Then(old(Log()), if hasView then ReadFileEffects(host, relativePath) else Quiet)
    {
      if !hasView {
        return;
      }
      if host.workspaceFolder.None? {
        return;
      }
      match host.readFile(relativePath) {
        case Ok(text) =>
          posted := posted + [FileContent(relativePath, text)];
        case Err(m) =>
          posted := posted + [FileContent(relativePath, ErrorPlaceholder(m))];
      }
    }

    method SaveFile(host: Host, content: string)
      modifies this
      ensures hasView == old(hasView)
      ensures Log() == Then(old(Log()), SaveFileEffects(host, content))
    {
      if host.workspaceFolder.None? {
        notices := notices + [Error("No workspace folder open")];
        return;
      }
      var name := SaveFileName(host.isoNow);
      if host.writeStatus.Failed? {
        notices := notices + [Error("Failed to save file: " + host.writeStatus.message)];
        return;
      }
      saved := saved + [SavedFile(host.workspaceFolder.value, name, content)];
      if host.showStatus.Failed? {
        notices := notices + [Error("Failed to save file: " + host.showStatus.message)];
        return;
      }
      notices := notices + [Info("Saved to " + name)];
    }

    method CopyToClipboard(host: Host, content: string)
      modifies this
      ensures hasView == old(hasView)
      ensures Log() == Then(old(Log()), CopyEffects(host, content))
    {
      if host.clipboardStatus.Failed? {
        return;
      }
      copied := copied + [content];
      notices := notices + [Info("Content copied to clipboard!")];
    }

    /** The message listener installed by `resolveWebviewView`. */
    method OnMessage(host: Host, msg: Message)
      modifies this
      ensures hasView == old(hasView)
      ensures Log() == Then(old(Log()), HandleEffects(host, hasView, msg))
    {
      match HandlerFor(msg.kind) {
        case GetFiles => SendFileList(host);
        case ReadFile => ReadFile(host, msg.path);
        case SaveFile => SaveFile(host, msg.content);
        case CopyToClipboard => CopyToClipboard(host, msg.content);
        case NoHandler =>
      }
    }
  }

  // Properties of the handlers.

  /** Each of the four message types selects its own handler and no other
      type selects any. */
  lemma HandlerForExactly(kind: string)
    ensures HandlerFor(kind) == GetFiles <==> kind == "getFiles"
    ensures HandlerFor(kind) == ReadFile <==> kind == "readFile"
    ensures HandlerFor(kind) == SaveFile <==> kind == "saveFile"
    ensures HandlerFor(kind) == CopyToClipboard <==> kind == "copyToClipboard"
    ensures HandlerFor(kind) == NoHandler <==>
      kind !in ["getFiles", "readFile", "saveFile", "copyToClipboard"]
  {
  }

  /** A message of any other type has no effect at all. */
  lemma UnknownTypeIsIgnored(host: Host, hasView: bool, msg: Message)
    requires msg.kind !in ["getFiles", "readFile", "saveFile", "copyToClipboard"]
    ensures HandleEffects(host, hasView, msg) == Quiet
  {
  }

  /** Without a workspace folder the file list is empty and the result of
      the search plays no part. */
  lemma NoWorkspaceEmptyList(host: Host, search: Outcome<seq<Uri>>)
    requires host.workspaceFolder.None?
    ensures FileListEffects(host) == Effects([FileList([])], [], [], [])
    ensures FileListEffects(host.(search := search)) == FileListEffects(host)
  {
  }

  /** A successful file list holds exactly the catalog: text files only, each
      built from a found URI, every found text file present, in the host's
      order. */
  lemma FileListIsCatalog(host: Host)
    requires host.workspaceFolder.Some? && host.search.Ok?
    ensures var e := FileListEffects(host);
      && e.notices == [] && |e.posts| == 1 && e.posts[0].FileList?
      && var files := e.posts[0].files;
         var uris := host.search.value;
         && (forall f :: f in files ==> IsTextFile(f.path))
         && (forall f :: f in files ==> exists i :: 0 <= i < |uris| && f == EntryOf(uris[i], host.asRelativePath))
         && (forall i :: 0 <= i < |uris| && IsTextFile(host.asRelativePath(uris[i])) ==>
               EntryOf(uris[i], host.asRelativePath) in files)
         && IsSubsequence(files, ToEntries(uris, host.asRelativePath))
  {
    CatalogSound(host.search.value, host.asRelativePath);
  }

  /** A read request in an open workspace always gets exactly one reply for
      the path it asked about and never an error notification; when the read
      fails, the reply carries the placeholder for the error message. */
  lemma ReadAlwaysReplies(host: Host, relativePath: string)
    requires host.workspaceFolder.Some?
    ensures var e := ReadFileEffects(host, relativePath);
      && e.notices == [] && e.saves == [] && e.copies == []
      && |e.posts| == 1 && e.posts[0].FileContent? && e.posts[0].path == relativePath
      && (host.readFile(relativePath).Err? ==>
            e.posts[0].content == "[Error reading file: " + host.readFile(relativePath).message + "]")
      && (host.readFile(relativePath).Ok? ==>
            e.posts[0].content == host.readFile(relativePath).value)
  {
  }

  /** The placeholder keeps the whole error message: it can be read back
      from between the fixed prefix and the closing bracket. */
  lemma {:induction false} PlaceholderKeepsMessage(m: string)
    ensures var p := ErrorPlaceholder(m);
      |p| == |m| + 22 && p[..21] == "[Error reading file: " && p[|p| - 1] == ']' &&
      p[21..|p| - 1] == m
  {
  }

  /** Different read errors give different placeholders. */
  lemma PlaceholderInjective(m1: string, m2: string)
    requires ErrorPlaceholder(m1) == ErrorPlaceholder(m2)
    ensures m1 == m2
  {
    PlaceholderKeepsMessage(m1);
    PlaceholderKeepsMessage(m2);
  }

  /** A save in an open workspace whose write succeeds stores the content
      verbatim, in the workspace folder, under the name derived from the
      current time; a failed write stores nothing and reports the error. */
  lemma SaveWritesTimestampedFile(host: Host, content: string)
    requires host.workspaceFolder.Some?
    ensures var e := SaveFileEffects(host, content);
      && e.posts == [] && e.copies == [] && |e.notices| == 1
      && (host.writeStatus.Done? ==>
            e.saves == [SavedFile(host.workspaceFolder.value, SaveFileName(host.isoNow), content)])
      && (host.writeStatus.Failed? ==>
            e.saves == [] && e.notices == [Error("Failed to save file: " + host.writeStatus.message)])
      && (host.writeStatus.Done? && host.showStatus.Done? ==>
            e.notices == [Info("Saved to " + SaveFileName(host.isoNow))])
  {
  }

  /** Every message is handled on its own: what it does depends only on the
      host's answers, the view flag and the message. In particular a save or
      a copy never posts to the panel, and only saves write files. */
  lemma HandlersStayInTheirLane(host: Host, hasView: bool, msg: Message)
    ensures var e := HandleEffects(host, hasView, msg);
      && (e.saves != [] ==> msg.kind == "saveFile")
      && (e.copies != [] ==> msg.kind == "copyToClipboard" && e.copies == [msg.content])
      && (e.posts != [] ==> hasView && msg.kind in ["getFiles", "readFile"])
  {
  }
}
