/** The catalog the provider sends to its panel (`_sendFileList`): every URI
    the host's file search returned is turned into a `{path, fullPath}` entry
    (the workspace-relative path and the absolute file-system path), and the
    entries whose relative path fails the text-file test are dropped, keeping
    the host's order. The search itself and `asRelativePath` belong to the
    host and are given as inputs. */
module Catalog {
  import opened TextFiles

  /** A URI returned by the host's file search; only its file-system path is
      read by the provider. */
  datatype Uri = Uri(fsPath: string)

  /** One catalog entry: `path` is relative to the workspace, `fullPath`
      absolute. */
  datatype FileEntry = FileEntry(path: string, fullPath: string)

  /** The entry built from one URI. */
  function EntryOf(uri: Uri, asRelativePath: Uri -> string): FileEntry {
    FileEntry(asRelativePath(uri), uri.fsPath)
  }

  /** The `.map(...)` step: one entry per URI, in the same order. */
  function ToEntries(uris: seq<Uri>, asRelativePath: Uri -> string): (r: seq<FileEntry>)
    ensures |r| == |uris|
    ensures forall i :: 0 <= i < |uris| ==> r[i] == EntryOf(uris[i], asRelativePath)
  {
    if uris == [] then []
    else ToEntries(uris[..|uris| - 1], asRelativePath) + [EntryOf(uris[|uris| - 1], asRelativePath)]
  }

  /** `sub` is `s` with some elements removed and the rest kept in order. */
  predicate IsSubsequence<T(==)>(sub: seq<T>, s: seq<T>)
    decreases |s|
  {
    if sub == [] then true
    else if s == [] then false
    else if sub[|sub| - 1] == s[|s| - 1] then IsSubsequence(sub[..|sub| - 1], s[..|s| - 1])
    else IsSubsequence(sub, s[..|s| - 1])
  }

  /** The `.filter(...)` step: the entries whose relative path is a text file,
      in their original order. */
  function KeepTextFiles(entries: seq<FileEntry>): (r: seq<FileEntry>)
    ensures forall e :: e in r ==> e in entries && IsTextFile(e.path)
    ensures forall e :: e in entries && IsTextFile(e.path) ==> e in r
    ensures |r| <= |entries|
  {
    if entries == [] then []
    else
      var init := KeepTextFiles(entries[..|entries| - 1]);
      var last := entries[|entries| - 1];
      assert forall e :: e in entries ==> e in entries[..|entries| - 1] || e == last;
      if IsTextFile(last.path) then init + [last] else init
  }

  /** The catalog for a list of URIs. */
  function BuildCatalog(uris: seq<Uri>, asRelativePath: Uri -> string): seq<FileEntry> {
    KeepTextFiles(ToEntries(uris, asRelativePath))
  }

  /** The filter keeps the original order: its result is a subsequence of its
      input. */
  lemma {:induction false} KeepTextFilesIsSubsequence(entries: seq<FileEntry>)
    ensures IsSubsequence(KeepTextFiles(entries), entries)
    decreases |entries|
  {
    if entries != [] {
      var init := entries[..|entries| - 1];
      var last := entries[|entries| - 1];
      KeepTextFilesIsSubsequence(init);
      if IsTextFile(last.path) {
        var r := KeepTextFiles(entries);
        assert r[..|r| - 1] == KeepTextFiles(init);
      } else {
        var r := KeepTextFiles(entries);
        if r != [] {
          SubsequenceLastDiffers(r, init, last);
        }
      }
    }
  }

  /** Dropping a last element that is not wanted keeps a subsequence one. */
  lemma {:induction false} SubsequenceLastDiffers(sub: seq<FileEntry>, s: seq<FileEntry>, x: FileEntry)
    requires IsSubsequence(sub, s) && sub != [] && !IsTextFile(x.path)
    requires forall e :: e in sub ==> IsTextFile(e.path)
    ensures IsSubsequence(sub, s + [x])
  {
  }

  /** The filter keeps every copy of a text-file entry and no copy of any
      other entry. */
  lemma {:induction false} KeepTextFilesCounts(entries: seq<FileEntry>, e: FileEntry)
    ensures multiset(KeepTextFiles(entries))[e] ==
      if IsTextFile(e.path) then multiset(entries)[e] else 0
    decreases |entries|
  {
    if entries != [] {
      var init := entries[..|entries| - 1];
      assert entries == init + [entries[|entries| - 1]];
      KeepTextFilesCounts(init, e);
    }
  }

  /** Every catalog entry passes the text-file test and is the entry built
      from one of the given URIs; every URI whose relative path passes the
      test has its entry in the catalog; and the catalog lists them in the
      host's order. */
  lemma CatalogSound(uris: seq<Uri>, asRelativePath: Uri -> string)
    ensures var c := BuildCatalog(uris, asRelativePath);
      && (forall e :: e in c ==> IsTextFile(e.path))
      && (forall e :: e in c ==> exists i :: 0 <= i < |uris| && e == EntryOf(uris[i], asRelativePath))
      && (forall i :: 0 <= i < |uris| && IsTextFile(asRelativePath(uris[i])) ==>
            EntryOf(uris[i], asRelativePath) in c)
      && IsSubsequence(c, ToEntries(uris, asRelativePath))
  {
    var entries := ToEntries(uris, asRelativePath);
    KeepTextFilesIsSubsequence(entries);
    forall e | e in entries
      ensures exists i :: 0 <= i < |uris| && e == EntryOf(uris[i], asRelativePath)
    {
      var i :| 0 <= i < |entries| && entries[i] == e;
    }
    forall i | 0 <= i < |uris| ensures EntryOf(uris[i], asRelativePath) in entries {
      assert entries[i] == EntryOf(uris[i], asRelativePath);
    }
  }
}
