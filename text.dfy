/** The few Python string operations the CSV importer relies on:
    `str.strip()`, `str.lstrip('#')`, `str.split(',')` and the substring
    test `name in h`, over characters as the file's Latin-1 decoding yields them. */
module Text {

  /** Python's `str.isspace` restricted to the 256 code points a Latin-1
      decoded file can contain. */
  predicate IsSpace(c: char) {
    c in {'\t', '\n', '\U{0B}', '\U{0C}', '\r', '\U{1C}', '\U{1D}', '\U{1E}', '\U{1F}', ' ', '\U{85}', '\U{A0}'}
  }

  /** `s.lstrip()` */
  function LStrip(s: string): string
    decreases |s|
  {
    if |s| > 0 && IsSpace(s[0]) then LStrip(s[1..]) else s
  }

  /** `s.rstrip()` */
  function RStrip(s: string): string
    decreases |s|
  {
    if |s| > 0 && IsSpace(s[|s| - 1]) then RStrip(s[..|s| - 1]) else s
  }

  /** `s.strip()` */
  function Strip(s: string): string {
    RStrip(LStrip(s))
  }

  /** `s.lstrip('#')` */
  function LStripHash(s: string): string
    decreases |s|
  {
    if |s| > 0 && s[0] == '#' then LStripHash(s[1..]) else s
  }

  /** `lstrip` keeps a suffix of `s`, cuts only whitespace, and leaves a
      string that does not start with whitespace. */
  lemma {:induction false} LStripSpec(s: string)
    ensures |LStrip(s)| <= |s| && LStrip(s) == s[|s| - |LStrip(s)|..]
    ensures forall i | 0 <= i < |s| - |LStrip(s)| :: IsSpace(s[i])
    ensures LStrip(s) == [] || !IsSpace(LStrip(s)[0])
    decreases |s|
  {
    if |s| > 0 && IsSpace(s[0]) {
      LStripSpec(s[1..]);
    }
  }

  /** `rstrip` keeps a prefix of `s`, cuts only whitespace, and leaves a
      string that does not end with whitespace. */
  lemma {:induction false} RStripSpec(s: string)
    ensures |RStrip(s)| <= |s| && RStrip(s) == s[..|RStrip(s)|]
    ensures forall i | |RStrip(s)| <= i < |s| :: IsSpace(s[i])
    ensures RStrip(s) == [] || !IsSpace(RStrip(s)[|RStrip(s)| - 1])
    decreases |s|
  {
    if |s| > 0 && IsSpace(s[|s| - 1]) {
      RStripSpec(s[..|s| - 1]);
    }
  }

  /** `lstrip('#')` keeps a suffix of `s`, cuts only `#`s, and leaves a
      string that does not start with `#`. */
  lemma {:induction false} LStripHashSpec(s: string)
    ensures |LStripHash(s)| <= |s| && LStripHash(s) == s[|s| - |LStripHash(s)|..]
    ensures forall i | 0 <= i < |s| - |LStripHash(s)| :: s[i] == '#'
    ensures LStripHash(s) == [] || LStripHash(s)[0] != '#'
    decreases |s|
  {
    if |s| > 0 && s[0] == '#' {
      LStripHashSpec(s[1..]);
    }
  }

  /** `strip` keeps the slice of `s` that starts after its leading
      whitespace and cuts only whitespace after it. */
  lemma StripSpec(s: string)
    ensures |LStrip(s)| <= |s|
    ensures var a := |s| - |LStrip(s)|;
      a + |Strip(s)| <= |s| && s[a..a + |Strip(s)|] == Strip(s)
      && (forall i | 0 <= i < a :: IsSpace(s[i]))
      && (forall i | a + |Strip(s)| <= i < |s| :: IsSpace(s[i]))
  {
    var front := LStrip(s);
    LStripSpec(s);
    RStripSpec(front);
    var r := RStrip(front);
    var a := |s| - |front|;
    assert s[a..a + |r|] == r by {
      assert s[a..a + |r|] == s[a..][..|r|];
    }
    forall i | a + |r| <= i < |s|
      ensures IsSpace(s[i])
    {
      assert s[i] == front[i - a];
    }
  }

  /** What `strip` leaves neither starts nor ends with whitespace. */
  lemma StripEdges(s: string)
    ensures Strip(s) == [] || (!IsSpace(Strip(s)[0]) && !IsSpace(Strip(s)[|Strip(s)| - 1]))
  {
    var front := LStrip(s);
    LStripSpec(s);
    RStripSpec(front);
    var r := RStrip(front);
    assert r != [] ==> r[0] == front[0];
  }

  /** `s.split(sep)`: always at least one part, and no part holds `sep`. */
  function Split(s: string, sep: char): (parts: seq<string>)
    ensures |parts| >= 1
    ensures forall i | 0 <= i < |parts| :: sep !in parts[i]
    decreases |s|
  {
    if |s| == 0 then [""]
    else
      var rest := Split(s[1..], sep);
      if s[0] == sep then [""] + rest
      else [[s[0]] + rest[0]] + rest[1..]
  }

  /** `sep.join(parts)`, the inverse of `Split`. */
  function Join(parts: seq<string>, sep: char): string
  {
    if |parts| == 0 then ""
    else if |parts| == 1 then parts[0]
    else parts[0] + [sep] + Join(parts[1..], sep)
  }

  /** Splitting loses nothing: joining the parts back gives the input. */
  lemma {:induction false} JoinSplit(s: string, sep: char)
    ensures Join(Split(s, sep), sep) == s
    decreases |s|
  {
    if |s| > 0 {
      var rest := Split(s[1..], sep);
      JoinSplit(s[1..], sep);
      if s[0] == sep {
        assert Split(s, sep) == [""] + rest;
        assert ([""] + rest)[1..] == rest;
      } else {
        var parts := [[s[0]] + rest[0]] + rest[1..];
        assert Split(s, sep) == parts;
        if |rest| > 1 {
          assert parts[1..] == rest[1..];
          assert Join(rest, sep) == rest[0] + [sep] + Join(rest[1..], sep);
        }
        assert [s[0]] + s[1..] == s;
      }
    }
  }

  /** `len(s.split(sep)) == s.count(sep) + 1`. */
  lemma {:induction false} SplitCount(s: string, sep: char)
    ensures |Split(s, sep)| == multiset(s)[sep] + 1
    decreases |s|
  {
    if |s| > 0 {
      SplitCount(s[1..], sep);
      assert s == [s[0]] + s[1..];
      assert multiset(s) == multiset([s[0]]) + multiset(s[1..]);
    }
  }

  /** Python's `needle in hay` on strings. */
  predicate IsSubstring(needle: string, hay: string) {
    exists k | 0 <= k <= |hay| - |needle| :: OccursAt(needle, hay, k)
  }

  predicate OccursAt(needle: string, hay: string, k: nat) {
    k + |needle| <= |hay| && hay[k..k + |needle|] == needle
  }
}
