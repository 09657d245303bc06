/** The name of the file the provider saves combined content to
    (`_saveFile`). The current time is rendered by
    `Date.prototype.toISOString` (for present-day dates the 24 characters
    `YYYY-MM-DDTHH:mm:ss.sssZ`); every `:` and `.` in it is replaced by `-`,
    the last five characters (`-sssZ`, the milliseconds and the zone) are cut
    off with `slice(0, -5)`, and the rest is wrapped as `context_<ts>.txt`.
    The clock is not modelled: the ISO string is an input. */
module SaveName {

  /** `String.prototype.replace(/[:.]/g, '-')` on one character. */
  function DashChar(c: char): char {
    if c == ':' || c == '.' then '-' else c
  }

  /** `String.prototype.replace(/[:.]/g, '-')`: a character-for-character
      rewrite that leaves the length alone. */
  function DashPunctuation(s: string): (r: string)
    ensures |r| == |s|
    ensures forall i :: 0 <= i < |s| ==> r[i] != ':' && r[i] != '.'
    ensures forall i :: 0 <= i < |s| && s[i] != ':' && s[i] != '.' ==> r[i] == s[i]
    ensures forall i :: 0 <= i < |s| && (s[i] == ':' || s[i] == '.') ==> r[i] == '-'
  {
    seq(|s|, i requires 0 <= i < |s| => DashChar(s[i]))
  }

  /** `String.prototype.slice(0, -5)`: all but the last five characters, and
      the empty string when there are fewer than five. */
  function DropLastFive(s: string): (r: string)
    ensures r <= s
    ensures |r| == if |s| >= 5 then |s| - 5 else 0
    ensures |s| >= 5 ==> r + s[|s| - 5..] == s
  {
    if |s| >= 5 then s[..|s| - 5] else ""
  }

  /** The timestamp part of the saved file's name. */
  function Timestamp(iso: string): string {
    DropLastFive(DashPunctuation(iso))
  }

  const Prefix: string := "context_"
  const Suffix: string := ".txt"

  /** The saved file's name: `context_<timestamp>.txt`. */
  function SaveFileName(iso: string): string {
    Prefix + Timestamp(iso) + Suffix
  }

  /** The two steps commute: the timestamp is the first `|iso| - 5`
      characters of `iso` with `:` and `.` turned into `-`. */
  lemma {:induction false} TimestampIsDashedPrefix(iso: string)
    requires |iso| >= 5
    ensures Timestamp(iso) == DashPunctuation(iso[..|iso| - 5])
  {
  }

  predicate IsDigit(c: char) {
    '0' <= c <= '9'
  }

  /** A `toISOString` result for a year between 0 and 9999:
      `YYYY-MM-DDTHH:mm:ss.sssZ`, digits everywhere but at the separators. */
  predicate IsIsoTimestamp(s: string) {
    && |s| == 24
    && s[4] == '-' && s[7] == '-' && s[10] == 'T'
    && s[13] == ':' && s[16] == ':' && s[19] == '.' && s[23] == 'Z'
    && forall i :: 0 <= i < 24 && i !in {4, 7, 10, 13, 16, 19, 23} ==> IsDigit(s[i])
  }

  /** For such a string the timestamp is `YYYY-MM-DDTHH-mm-ss`: 19
      characters, no `:` or `.`, the date and the time to the second kept and
      the two time separators turned into `-`. */
  lemma {:induction false} IsoTimestampShape(iso: string)
    requires IsIsoTimestamp(iso)
    ensures var ts := Timestamp(iso);
      && |ts| == 19
      && (forall i :: 0 <= i < 19 ==> ts[i] != ':' && ts[i] != '.')
      && ts == iso[..13] + "-" + iso[14..16] + "-" + iso[17..19]
      && SaveFileName(iso) == "context_" + iso[..13] + "-" + iso[14..16] + "-" + iso[17..19] + ".txt"
      && |SaveFileName(iso)| == 31
  {
  }

  /** Two saves in the same second get the same name and saves in different
      seconds get different names: the name determines the ISO time up to the
      second and nothing finer. */
  lemma {:induction false} SameNameIffSameSecond(a: string, b: string)
    requires IsIsoTimestamp(a) && IsIsoTimestamp(b)
    ensures SaveFileName(a) == SaveFileName(b) <==> a[..19] == b[..19]
  {
    IsoTimestampShape(a);
    IsoTimestampShape(b);
    var ta, tb := Timestamp(a), Timestamp(b);
    if SaveFileName(a) == SaveFileName(b) {
      assert ta == SaveFileName(a)[8..27];
      assert tb == SaveFileName(b)[8..27];
      forall i | 0 <= i < 19 ensures a[i] == b[i] {
        assert ta[i] == tb[i];
        if i != 13 && i != 16 {
          assert a[i] == ta[i] == tb[i] == b[i];
        }
      }
    }
    if a[..19] == b[..19] {
      forall i | 0 <= i < 19 ensures ta[i] == tb[i] {
        assert a[i] == a[..19][i];
        assert b[i] == b[..19][i];
      }
      assert ta == tb;
    }
  }

  /** No `:` and no `.`: the characters the rewrite replaces. */
  predicate Plain(s: string) {
    forall i :: 0 <= i < |s| ==> s[i] != ':' && s[i] != '.'
  }

  /** Assembled from its parts, `<date>:<mm>:<ss>.<frac>` (with `frac` the
      four characters `sssZ`) is saved as `context_<date>-<mm>-<ss>.txt`:
      the milliseconds and the zone are dropped and the two time separators
      become `-`. */
  lemma {:induction false} NameFromParts(date: string, mm: string, ss: string, frac: string)
    requires Plain(date) && Plain(mm) && Plain(ss) && |frac| == 4
    ensures SaveFileName(date + ":" + mm + ":" + ss + "." + frac)
      == Prefix + date + "-" + mm + "-" + ss + Suffix
  {
    var iso := date + ":" + mm + ":" + ss + "." + frac;
    var want := date + "-" + mm + "-" + ss;
    var ts := Timestamp(iso);
    assert |ts| == |want|;
    forall i | 0 <= i < |want| ensures ts[i] == want[i] {
      if i < |date| {
        assert iso[i] == date[i] && want[i] == date[i];
      } else if i == |date| {
      } else if i < |date| + 1 + |mm| {
        assert iso[i] == mm[i - |date| - 1] && want[i] == mm[i - |date| - 1];
      } else if i == |date| + 1 + |mm| {
      } else {
        assert iso[i] == ss[i - |date| - |mm| - 2] && want[i] == ss[i - |date| - |mm| - 2];
      }
    }
  }

  /** A worked case: every save during the second 10:30:45 of 15 January
      2024 (UTC), whatever its milliseconds, goes to
      `context_2024-01-15T10-30-45.txt`. The parts of the time are fixed by
      the precondition rather than written in as literals, so that the
      verifier reasons with `NameFromParts` instead of evaluating the name
      character by character. */
  lemma {:induction false} Example(date: string, mm: string, ss: string, frac: string)
    requires date == "2024-01-15T10" && mm == "30" && ss == "45" && |frac| == 4
    ensures SaveFileName(date + ":" + mm + ":" + ss + "." + frac)
      == "context_2024-01-15T10-30-45.txt"
  {
    ExamplePartsArePlain(date, mm, ss);
    NameFromParts(date, mm, ss, frac);
    ExampleName(date, mm, ss);
  }

  lemma ExamplePartsArePlain(date: string, mm: string, ss: string)
    requires date == "2024-01-15T10" && mm == "30" && ss == "45"
    ensures Plain(date) && Plain(mm) && Plain(ss)
  {
  }

  lemma ExampleName(date: string, mm: string, ss: string)
    requires date == "2024-01-15T10" && mm == "30" && ss == "45"
    ensures Prefix + date + "-" + mm + "-" + ss + Suffix == "context_2024-01-15T10-30-45.txt"
  {
  }
}
