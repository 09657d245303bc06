/** A model of the part of Node's POSIX `path` module that the provider relies
    on: `path.extname`, together with the ASCII lower-casing that is applied to
    its result.

    `path.extname(p)` ignores trailing `/` characters, looks only at the last
    `/`-separated segment of what remains, and returns that segment from its
    last `.` to its end. It returns "" when the segment has no `.`, when its
    only `.` is the leading one (a dotfile such as `.gitignore`), and when the
    segment is exactly `..`. A trailing `.` gives ".". */
module NodePath {

  /** `s` contains no occurrence of `c`. */
  predicate Lacks(s: string, c: char) {
    forall i :: 0 <= i < |s| ==> s[i] != c
  }

  /** The index of the last occurrence of `c` in `s`, or -1 when there is none. */
  function LastIndexOf(s: string, c: char): (r: int)
    ensures -1 <= r < |s|
    ensures r >= 0 ==> s[r] == c
    ensures forall i :: r < i < |s| ==> s[i] != c
    ensures r == -1 <==> Lacks(s, c)
  {
    if s == [] then -1
    else if s[|s| - 1] == c then |s| - 1
    else LastIndexOf(s[..|s| - 1], c)
  }

  /** `p` without the run of `/` characters at its end. */
  function TrimTrailingSlashes(p: string): string
  {
    if p != [] && p[|p| - 1] == '/' then TrimTrailingSlashes(p[..|p| - 1]) else p
  }

  /** What is trimmed is exactly the trailing run of slashes: the result is a
      prefix of `p` that does not end in `/`, and everything after it is `/`. */
  lemma {:induction false} TrimTrailingSlashesSpec(p: string)
    ensures var r := TrimTrailingSlashes(p);
      r <= p && (r == [] || r[|r| - 1] != '/') &&
      forall i :: |r| <= i < |p| ==> p[i] == '/'
    decreases |p|
  {
    if p != [] && p[|p| - 1] == '/' {
      TrimTrailingSlashesSpec(p[..|p| - 1]);
    }
  }

  /** The last `/`-separated segment of `p` once trailing slashes are dropped
      (what `path.basename` returns). */
  function LastSegment(p: string): (r: string)
    ensures Lacks(r, '/')
  {
    var t := TrimTrailingSlashes(p);
    t[LastIndexOf(t, '/') + 1..]
  }

  /** The extension of one path segment: from its last `.` to its end, or ""
      when it has no `.`, when its only `.` leads it, or when it is `..`. */
  function SegmentExt(b: string): (r: string)
    ensures r == "" || (r[0] == '.' && Lacks(r[1..], '.'))
    ensures |r| <= |b| && r == b[|b| - |r|..]
  {
    var d := LastIndexOf(b, '.');
    if d <= 0 || b == ".." then "" else b[d..]
  }

  /** Node's `path.extname` on a POSIX host. */
  function ExtName(p: string): (r: string)
    ensures r == "" || (r[0] == '.' && Lacks(r[1..], '.') && Lacks(r, '/'))
  {
    var b := LastSegment(p);
    var r := SegmentExt(b);
    LacksSuffix(b, |b| - |r|, '/');
    r
  }

  lemma LacksSuffix(s: string, i: nat, c: char)
    requires i <= |s| && Lacks(s, c)
    ensures Lacks(s[i..], c)
  {
  }

  /** The extension of a segment is empty exactly when the segment has no
      `.`, when its only `.` is the leading one, or when it is `..`. */
  lemma SegmentExtEmptyIff(b: string)
    ensures SegmentExt(b) == "" <==>
      (Lacks(b, '.') || (b[0] == '.' && Lacks(b[1..], '.')) || b == "..")
  {
  }

  /** The same for a whole path: `path.extname` is "" exactly when the last
      segment has no `.`, is a dotfile such as `.gitignore`, or is `..`. */
  lemma ExtNameEmptyIff(p: string)
    ensures var b := LastSegment(p);
      ExtName(p) == "" <==> (Lacks(b, '.') || (b[0] == '.' && Lacks(b[1..], '.')) || b == "..")
  {
  }

  /** A leading directory part never affects the extension: only the final
      segment counts. */
  lemma {:induction false} ExtNameOfLastSegment(dir: string, name: string)
    requires name != [] && Lacks(name, '/')
    ensures ExtName(dir + "/" + name) == ExtName(name)
  {
    var p := dir + "/" + name;
    assert TrimTrailingSlashes(p) == p;
    assert TrimTrailingSlashes(name) == name;
    assert p[|p| - |name|..] == name;
    NoSlashIndex(name);
    SlashIndexAfterDir(dir, name);
  }

  lemma {:induction false} NoSlashIndex(s: string)
    requires Lacks(s, '/')
    ensures LastIndexOf(s, '/') == -1
  {
  }

  lemma {:induction false} SlashIndexAfterDir(dir: string, name: string)
    requires Lacks(name, '/')
    ensures LastIndexOf(dir + "/" + name, '/') == |dir|
  {
    var p := dir + "/" + name;
    var k := LastIndexOf(p, '/');
    assert p[|dir|] == '/';
  }

  /** Slashes at the end of a path are ignored. */
  lemma {:induction false} ExtNameIgnoresTrailingSlash(p: string)
    ensures ExtName(p + "/") == ExtName(p)
  {
    var q := p + "/";
    assert q[..|q| - 1] == p;
    assert TrimTrailingSlashes(q) == TrimTrailingSlashes(p);
    assert LastSegment(q) == LastSegment(p);
  }

  /** The constructive direction: a final segment `stem.e`, whose stem is not
      empty and which is not `..`, has the extension `.e`. */
  lemma {:induction false} ExtNameOfStemAndSuffix(stem: string, e: string)
    requires stem != [] && Lacks(stem, '/') && Lacks(e, '/') && Lacks(e, '.')
    requires stem != "." || e != ""
    ensures ExtName(stem + "." + e) == "." + e
  {
    var b := stem + "." + e;
    assert Lacks(b, '/') by {
      forall i | 0 <= i < |b| ensures b[i] != '/' {
        if i < |stem| { assert b[i] == stem[i]; }
        else if i > |stem| { assert b[i] == e[i - |stem| - 1]; }
      }
    }
    NoSlashIndex(b);
    assert b[|b| - 1] != '/';
    assert TrimTrailingSlashes(b) == b;
    assert LastSegment(b) == b;
    var d := LastIndexOf(b, '.');
    assert b[|stem|] == '.';
    assert d == |stem|;
    assert b[d..] == "." + e;
  }

  /** The same inside a directory: `dir/stem.e` has the extension `.e`. */
  lemma {:induction false} ExtNameOfPath(dir: string, stem: string, e: string)
    requires stem != [] && Lacks(stem, '/') && Lacks(e, '/') && Lacks(e, '.')
    requires stem != "." || e != ""
    ensures ExtName(dir + "/" + stem + "." + e) == "." + e
  {
    var name := stem + "." + e;
    assert Lacks(name, '/') by {
      forall i | 0 <= i < |name| ensures name[i] != '/' {
        if i < |stem| { assert name[i] == stem[i]; }
        else if i > |stem| { assert name[i] == e[i - |stem| - 1]; }
      }
    }
    ExtNameOfStemAndSuffix(stem, e);
    AppendAssoc(dir + "/", stem, "." + e);
    AppendAssoc(dir + "/" + stem, ".", e);
    AppendAssoc(stem, ".", e);
    ExtNameOfLastSegment(dir, name);
  }

  lemma AppendAssoc(a: string, b: string, c: string)
    ensures a + b + c == a + (b + c)
  {
  }

  // ASCII lower-casing (`String.prototype.toLowerCase` restricted to A-Z).

  function LowerChar(c: char): (r: char)
    ensures 'A' <= c <= 'Z' ==> r as int == c as int + 32
    ensures !('A' <= c <= 'Z') ==> r == c
  {
    if 'A' <= c <= 'Z' then (c as int + 32) as char else c
  }

  function Lower(s: string): (r: string)
    ensures |r| == |s|
    ensures forall i :: 0 <= i < |s| ==> r[i] == LowerChar(s[i])
  {
    seq(|s|, i requires 0 <= i < |s| => LowerChar(s[i]))
  }

  /** Lower-casing changes no `/` and no `.`, and creates none. */
  lemma LowerKeepsSeparators(c: char)
    ensures LowerChar(c) == '/' <==> c == '/'
    ensures LowerChar(c) == '.' <==> c == '.'
  {
  }

  lemma {:induction false} LowerPrefix(s: string, i: nat)
    requires i <= |s|
    ensures Lower(s[..i]) == Lower(s)[..i]
  {
  }

  lemma {:induction false} LowerSuffix(s: string, i: nat)
    requires i <= |s|
    ensures Lower(s[i..]) == Lower(s)[i..]
  {
  }

  lemma {:induction false} LastIndexOfLower(s: string, c: char)
    requires c == '/' || c == '.'
    ensures LastIndexOf(Lower(s), c) == LastIndexOf(s, c)
    decreases |s|
  {
  }

  lemma {:induction false} TrimLower(p: string)
    ensures TrimTrailingSlashes(Lower(p)) == Lower(TrimTrailingSlashes(p))
    decreases |p|
  {
    if p != [] {
      var l := Lower(p);
      LowerKeepsSeparators(p[|p| - 1]);
      LowerPrefix(p, |p| - 1);
      assert l[..|l| - 1] == Lower(p[..|p| - 1]);
      TrimLower(p[..|p| - 1]);
    }
  }

  lemma LowerDotDot(s: string)
    ensures Lower(s) == ".." <==> s == ".."
  {
  }

  lemma {:induction false} LastSegmentLower(p: string)
    ensures LastSegment(Lower(p)) == Lower(LastSegment(p))
  {
    var t := TrimTrailingSlashes(p);
    TrimLower(p);
    assert TrimTrailingSlashes(Lower(p)) == Lower(t);
    LastIndexOfLower(t, '/');
    var k := LastIndexOf(t, '/') + 1;
    LowerSuffix(t, k);
    assert LastSegment(Lower(p)) == Lower(t)[k..];
  }

  lemma {:induction false} SegmentExtLower(b: string)
    ensures SegmentExt(Lower(b)) == Lower(SegmentExt(b))
  {
    LastIndexOfLower(b, '.');
    LowerDotDot(b);
    var d := LastIndexOf(b, '.');
    if d > 0 && b != ".." {
      LowerSuffix(b, d);
    }
  }

  /** Lower-casing a path lower-cases its extension and nothing else about it:
      the extension of `Lower(p)` is `Lower` of the extension of `p`. */
  lemma {:induction false} ExtNameLower(p: string)
    ensures ExtName(Lower(p)) == Lower(ExtName(p))
  {
    LastSegmentLower(p);
    SegmentExtLower(LastSegment(p));
  }
}
