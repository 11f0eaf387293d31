/** The string operations the agent uses: Python's `str.replace(pat, "")`,
    `str.strip()` and `" ".join(words)`. The program itself never splits a
    string; `SplitOnSpace` is here only as the inverse of `Join`, to show that
    a composed query keeps its terms. */
module Text {

  /** `pat` occurs in `s` starting at position `i`. */
  predicate OccursAt(s: string, pat: string, i: int) {
    0 <= i <= |s| - |pat| && s[i..i + |pat|] == pat
  }

  /** `pat` occurs somewhere in `s`. */
  ghost predicate Contains(s: string, pat: string) {
    exists i :: OccursAt(s, pat, i)
  }

  /** An occurrence in a suffix is an occurrence in the whole string. */
  lemma OccursInSuffix(s: string, pat: string, k: nat, i: int)
    requires k <= |s| && OccursAt(s[k..], pat, i)
    ensures OccursAt(s, pat, k + i)
  {
    assert s[k + i..k + i + |pat|] == s[k..][i..i + |pat|];
  }

  /** An occurrence in a prefix is an occurrence in the whole string. */
  lemma OccursInPrefix(s: string, pat: string, k: nat, i: int)
    requires k <= |s| && OccursAt(s[..k], pat, i)
    ensures OccursAt(s, pat, i)
  {
    assert s[i..i + |pat|] == s[..k][i..i + |pat|];
  }

  // ---------------------------------------------------------------- replace

  /** `s.replace(pat, "")`: scans left to right and deletes every
      non-overlapping occurrence of `pat`. */
  function RemoveAll(s: string, pat: string): (r: string)
    requires |pat| > 0
    ensures |r| <= |s|
    decreases |s|
  {
    if |s| < |pat| then s
    else if s[..|pat|] == pat then RemoveAll(s[|pat|..], pat)
    else [s[0]] + RemoveAll(s[1..], pat)
  }

  /** Nothing is removed from a string in which the pattern's first character never appears. */
  lemma {:induction false} RemoveAllAbsent(s: string, pat: string)
    requires |pat| > 0 && pat[0] !in s
    ensures RemoveAll(s, pat) == s
    decreases |s|
  {
    if |s| >= |pat| {
      assert s[..|pat|][0] == s[0];
      RemoveAllAbsent(s[1..], pat);
    }
  }

  /** A leading stretch free of the pattern's first character passes through unchanged. */
  lemma {:induction false} RemoveAllKeepsPrefix(a: string, b: string, pat: string)
    requires |pat| > 0 && pat[0] !in a
    ensures RemoveAll(a + b, pat) == a + RemoveAll(b, pat)
    decreases |a|
  {
    if a == [] {
      assert a + b == b;
    } else {
      var s := a + b;
      assert s[0] == a[0];
      if |s| < |pat| {
        assert RemoveAll(b, pat) == b;
      } else {
        assert s[..|pat|][0] == a[0];
        assert s[1..] == a[1..] + b;
        assert RemoveAll(s, pat) == [a[0]] + RemoveAll(a[1..] + b, pat);
        RemoveAllKeepsPrefix(a[1..], b, pat);
        assert a == [a[0]] + a[1..];
      }
    }
  }

  /** An occurrence of the pattern at the front is deleted. */
  lemma RemoveAllLeading(s: string, pat: string)
    requires |pat| > 0
    ensures RemoveAll(pat + s, pat) == RemoveAll(s, pat)
  {
    assert (pat + s)[..|pat|] == pat;
    assert (pat + s)[|pat|..] == s;
  }

  // ------------------------------------------------------------------ strip

  /** The characters Python's `str.isspace()` accepts. */
  predicate IsSpace(c: char) {
    || c == ' ' || c == '\t' || c == '\n' || c == '\r'
    || c == '\U{B}' || c == '\U{C}'
    || ('\U{1C}' <= c <= '\U{1F}')
    || c == '\U{85}' || c == '\U{A0}' || c == '\U{1680}'
    || ('\U{2000}' <= c <= '\U{200A}')
    || c == '\U{2028}' || c == '\U{2029}' || c == '\U{202F}' || c == '\U{205F}'
    || c == '\U{3000}'
  }

  /** `s.lstrip()` */
  function StripLeft(s: string): (r: string)
    ensures |r| <= |s| && r == s[|s| - |r|..]
    ensures forall i :: 0 <= i < |s| - |r| ==> IsSpace(s[i])
    ensures r == [] || !IsSpace(r[0])
    decreases |s|
  {
    if |s| > 0 && IsSpace(s[0]) then StripLeft(s[1..]) else s
  }

  /** `s.rstrip()` */
  function StripRight(s: string): (r: string)
    ensures |r| <= |s| && r == s[..|r|]
    ensures forall i :: |r| <= i < |s| ==> IsSpace(s[i])
    ensures r == [] || !IsSpace(r[|r| - 1])
    decreases |s|
  {
    if |s| > 0 && IsSpace(s[|s| - 1]) then StripRight(s[..|s| - 1]) else s
  }

  /** `s.strip()`: the longest stretch of `s` that neither starts nor ends
      with whitespace, obtained by dropping whitespace at both ends. */
  function Strip(s: string): (r: string)
    ensures r == [] || (!IsSpace(r[0]) && !IsSpace(r[|r| - 1]))
  {
    var l := StripLeft(s);
    var r := StripRight(l);
    assert r != [] ==> r[0] == l[0];
    r
  }

  /** `s.strip()` removes whitespace only, and only at the two ends: the result
      is the stretch of `s` after its leading whitespace, and everything after
      that stretch is whitespace. */
  lemma StripWindow(s: string)
    ensures var k, r := |s| - |StripLeft(s)|, Strip(s);
      && k + |r| <= |s| && r == s[k..k + |r|]
      && (forall i :: 0 <= i < k ==> IsSpace(s[i]))
      && (forall i :: k + |r| <= i < |s| ==> IsSpace(s[i]))
  {
    var l := StripLeft(s);
    var r := StripRight(l);
    var k := |s| - |l|;
    assert l == s[k..];
    assert r == l[..|r|];
    assert r == s[k..k + |r|];
    forall i | k + |r| <= i < |s|
      ensures IsSpace(s[i])
    {
      assert s[i] == l[i - k];
    }
  }

  /** Stripping cannot create an occurrence of a pattern: one in the stripped
      string is one in the original. */
  lemma StripKeepsAbsence(s: string, pat: string)
    ensures Contains(Strip(s), pat) ==> Contains(s, pat)
  {
    if Contains(Strip(s), pat) {
      var i :| OccursAt(Strip(s), pat, i);
      var l := StripLeft(s);
      OccursInPrefix(l, pat, |Strip(s)|, i);
      OccursInSuffix(s, pat, |s| - |l|, i);
    }
  }

  // ------------------------------------------------------------ join, split

  /** `" ".join(words)` */
  function Join(words: seq<string>): string
    decreases |words|
  {
    if |words| == 0 then ""
    else if |words| == 1 then words[0]
    else words[0] + " " + Join(words[1..])
  }

  /** The pieces between single spaces, empty pieces included, as Python's
      `s.split(" ")` gives them: the inverse of `Join` on space-free words. */
  function SplitOnSpace(s: string): (r: seq<string>)
    ensures |r| > 0
    decreases |s|
  {
    if |s| == 0 then [""]
    else
      var rest := SplitOnSpace(s[1..]);
      if s[0] == ' ' then [""] + rest
      else [[s[0]] + rest[0]] + rest[1..]
  }

  lemma JoinCons(w: string, ws: seq<string>)
    ensures Join([w] + ws) == if ws == [] then w else w + " " + Join(ws)
  {
    assert ([w] + ws)[1..] == ws;
  }

  /** A word without spaces splits into itself. */
  lemma {:induction false} SplitWord(w: string)
    requires ' ' !in w
    ensures SplitOnSpace(w) == [w]
    decreases |w|
  {
    if |w| > 0 {
      SplitWord(w[1..]);
      assert w == [w[0]] + w[1..];
    }
  }

  /** A word without spaces followed by a space splits off as the first piece. */
  lemma {:induction false} SplitWordThen(w: string, s: string)
    requires ' ' !in w
    ensures SplitOnSpace(w + " " + s) == [w] + SplitOnSpace(s)
    decreases |w|
  {
    var t := w + " " + s;
    if |w| == 0 {
      assert t[0] == ' ' && t[1..] == s;
    } else {
      assert t[0] == w[0] && t[1..] == w[1..] + " " + s;
      SplitWordThen(w[1..], s);
      assert w == [w[0]] + w[1..];
    }
  }

  /** Splitting a join of space-free words gives back the words. */
  lemma {:induction false} SplitJoin(ws: seq<string>)
    requires ws != []
    requires forall k :: 0 <= k < |ws| ==> ' ' !in ws[k]
    ensures SplitOnSpace(Join(ws)) == ws
    decreases |ws|
  {
    if |ws| == 1 {
      SplitWord(ws[0]);
    } else {
      SplitJoin(ws[1..]);
      SplitWordThen(ws[0], Join(ws[1..]));
      assert ws == [ws[0]] + ws[1..];
    }
  }
}
