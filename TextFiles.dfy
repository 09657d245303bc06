/** The provider's text-file test (`_isTextFile`): a relative path is offered
    in the catalog when its lower-cased `path.extname` is one of a fixed list
    of suffixes, or when it has no extension at all. */
module TextFiles {
  import opened NodePath

  /** The 47 recognised suffixes, in the order the provider lists them (one
      display per line of the provider's array literal). */
  const TextExtensions: seq<string> :=
    [".js", ".jsx", ".ts", ".tsx", ".json", ".html", ".css", ".scss", ".sass"] +
    [".md", ".txt", ".py", ".java", ".c", ".cpp", ".h", ".cs", ".php", ".rb"] +
    [".go", ".rs", ".swift", ".kt", ".dart", ".vue", ".svelte", ".xml", ".yaml"] +
    [".yml", ".toml", ".ini", ".cfg", ".conf", ".sh", ".bash", ".sql", ".r"] +
    [".m", ".scala", ".clj", ".ex", ".exs", ".erl", ".hs", ".lua", ".pl", ".pm"]

  predicate IsTextFile(path: string) {
    var ext := Lower(ExtName(path));
    ext in TextExtensions || ext == ""
  }

  /** Every path without an extension is accepted, dotfiles included. */
  lemma {:induction false} NoExtensionIsText(path: string)
    requires ExtName(path) == ""
    ensures IsTextFile(path)
  {
  }

  /** A path whose last segment is a dotfile (a `.` and then no other `.`)
      is accepted, whatever the directories before it are called. */
  lemma {:induction false} DotfileIsText(dir: string, name: string)
    requires Lacks(name, '.') && Lacks(name, '/')
    ensures IsTextFile("." + name)
    ensures IsTextFile(dir + "/." + name)
  {
    var b := "." + name;
    assert Lacks(b, '/') by {
      forall i | 0 <= i < |b| ensures b[i] != '/' {
        if i > 0 { assert b[i] == name[i - 1]; }
      }
    }
    assert b[1..] == name;
    NoSlashInSegment(b);
    SegmentExtEmptyIff(b);
    NoExtensionIsText(b);
    assert dir + "/." + name == dir + "/" + b;
    ExtNameOfLastSegment(dir, b);
    NoExtensionIsText(dir + "/" + b);
  }

  lemma {:induction false} NoSlashInSegment(b: string)
    requires b != [] && Lacks(b, '/')
    ensures LastSegment(b) == b
  {
  }

  /** The test is case-insensitive: two paths that differ only in the case of
      ASCII letters are both accepted or both rejected. */
  lemma {:induction false} IsTextFileIgnoresCase(p: string, q: string)
    requires Lower(p) == Lower(q)
    ensures IsTextFile(p) <==> IsTextFile(q)
  {
    ExtNameLower(p);
    ExtNameLower(q);
    LowerIdempotent(ExtName(p));
    LowerIdempotent(ExtName(q));
  }

  lemma {:induction false} LowerIdempotent(s: string)
    ensures Lower(Lower(s)) == Lower(s)
  {
  }

  /** The decision depends only on the suffix after the last `.` of the final
      segment: `dir/stem.e` is accepted exactly when `.e`, lower-cased, is
      listed (the stem being neither empty nor `.` alone with `e` empty). */
  lemma {:induction false} IsTextFileBySuffix(dir: string, stem: string, e: string)
    requires stem != [] && Lacks(stem, '/') && Lacks(e, '/') && Lacks(e, '.')
    requires stem != "." || e != ""
    ensures IsTextFile(dir + "/" + stem + "." + e) <==> Lower("." + e) in TextExtensions
    ensures IsTextFile(stem + "." + e) <==> Lower("." + e) in TextExtensions
  {
    ExtNameOfPath(dir, stem, e);
    ExtNameOfStemAndSuffix(stem, e);
    assert |Lower("." + e)| > 0;
  }

  // Worked cases. Each names its path through a parameter so that the
  // verifier reasons with the lemmas above instead of unfolding the
  // recursive definitions character by character.

  /** An archive with a double suffix is judged by its last suffix only:
      `a.tar.gz`, and any other `<stem>.gz`, has the unlisted extension `.gz`.
      The suffix `e` is fixed to `gz` by the precondition. */
  lemma DoubleSuffixExample(stem: string, e: string)
    requires stem != [] && Lacks(stem, '/') && e == "gz"
    ensures ExtName(stem + "." + e) == ".gz" && !IsTextFile(stem + "." + e)
  {
    assert Lacks(e, '/') && Lacks(e, '.');
    ExtNameOfStemAndSuffix(stem, e);
    assert Lower("." + e) == ".gz";
    GzUnlisted();
  }

  lemma GzUnlisted()
    ensures ".gz" !in TextExtensions
  {
  }

  /** A directory name that looks like an extension is ignored. The path
      `p` and its last segment `name` are fixed by the precondition. */
  lemma DirectoryDotExample(p: string, name: string)
    requires p == "dir.py/Makefile" && name == "Makefile"
    ensures ExtName(p) == "" && IsTextFile(p)
  {
    assert p == "dir.py" + "/" + name;
    assert Lacks(name, '.') && Lacks(name, '/');
    NoSlashInSegment(name);
    SegmentExtEmptyIff(name);
    ExtNameOfLastSegment("dir.py", name);
    NoExtensionIsText(p);
  }

  /** A dotfile is kept. The path `p` (`.gitignore`) and the name after its
      dot are fixed by the precondition. */
  lemma DotfileExample(p: string, name: string)
    requires p == ".gitignore" && name == "gitignore"
    ensures ExtName(p) == "" && IsTextFile(p)
  {
    assert Lacks(name, '.') && Lacks(name, '/');
    assert p == "." + name;
    DotfileIsText("", name);
    assert Lacks(p, '/') by {
      forall i | 0 <= i < |p| ensures p[i] != '/' {
        if i > 0 { assert p[i] == name[i - 1]; }
      }
    }
    assert p[1..] == name;
    NoSlashInSegment(p);
    SegmentExtEmptyIff(p);
  }

  /** A trailing dot gives the extension "." and is rejected: `foo.`, and
      any other `<stem>.` whose stem is not `.`. */
  lemma TrailingDotExample(stem: string)
    requires stem != [] && stem != "." && Lacks(stem, '/')
    ensures ExtName(stem + ".") == "." && !IsTextFile(stem + ".")
  {
    ExtNameOfStemAndSuffix(stem, "");
    assert stem + "." + "" == stem + ".";
    assert Lower(".") == ".";
    DotUnlisted();
  }

  lemma DotUnlisted()
    ensures "." !in TextExtensions
  {
  }

  /** A listed suffix is accepted in any case: `X.JS`, like `X.js`. The
      suffix `e` is fixed to `JS` by the precondition. */
  lemma UpperCaseExample(stem: string, e: string)
    requires stem != [] && Lacks(stem, '/') && e == "JS"
    ensures ExtName(stem + "." + e) == ".JS" && IsTextFile(stem + "." + e)
  {
    assert Lacks(e, '/') && Lacks(e, '.');
    ExtNameOfStemAndSuffix(stem, e);
    assert Lower("." + e) == ".js";
    assert ".js" in TextExtensions;
  }
}
