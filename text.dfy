/** The few Python string operations the core relies on: `sub in s`, `s.replace(pat, rep)` and
    `sep.join(items)`. */
module Text {

  /** Python's `sub in s`. */
  predicate Contains(s: string, sub: string)
    decreases |s|
  {
    sub <= s || (|s| > 0 && Contains(s[1..], sub))
  }

  /** Python's `s.replace(pat, rep)` for a non-empty pattern: every non-overlapping occurrence is
      replaced, scanning from left to right. */
  function ReplaceAll(s: string, pat: string, rep: string): string
    requires |pat| > 0
    decreases |s|
  {
    if |s| == 0 then ""
    else if pat <= s then rep + ReplaceAll(s[|pat|..], pat, rep)
    else [s[0]] + ReplaceAll(s[1..], pat, rep)
  }

  /** Python's `sep.join(items)`. */
  function Join(items: seq<string>, sep: string): string
  {
    if |items| == 0 then ""
    else if |items| == 1 then items[0]
    else items[0] + sep + Join(items[1..], sep)
  }

  /** A one-character string occurs exactly when its character does. */
  lemma {:induction false} ContainsChar(s: string, c: char)
    ensures Contains(s, [c]) <==> c in s
  {
    if |s| > 0 {
      ContainsChar(s[1..], c);
      assert s == [s[0]] + s[1..];
    }
  }

  /** A pattern whose first character is absent does not occur. */
  lemma {:induction false} FirstCharAbsent(s: string, pat: string)
    requires |pat| > 0 && pat[0] !in s
    ensures !Contains(s, pat)
  {
    if |s| > 0 {
      assert s[0] != pat[0];
      FirstCharAbsent(s[1..], pat);
    }
  }

  /** Replacing a pattern that does not occur changes nothing. */
  lemma {:induction false} ReplaceAbsent(s: string, pat: string, rep: string)
    requires |pat| > 0 && !Contains(s, pat)
    ensures ReplaceAll(s, pat, rep) == s
  {
    if |s| > 0 {
      ReplaceAbsent(s[1..], pat, rep);
      assert s == [s[0]] + s[1..];
    }
  }

  /** Text free of the pattern's first character holds no occurrence of it and is kept as it is. */
  lemma {:induction false} ReplaceSkips(x: string, y: string, pat: string, rep: string)
    requires |pat| > 0 && pat[0] !in x
    ensures ReplaceAll(x + y, pat, rep) == x + ReplaceAll(y, pat, rep)
  {
    if |x| > 0 {
      assert (x + y)[0] == x[0] != pat[0];
      assert !(pat <= x + y);
      assert (x + y)[1..] == x[1..] + y;
      ReplaceSkips(x[1..], y, pat, rep);
      calc {
        ReplaceAll(x + y, pat, rep);
        [x[0]] + ReplaceAll(x[1..] + y, pat, rep);
        [x[0]] + (x[1..] + ReplaceAll(y, pat, rep));
        { assert x == [x[0]] + x[1..]; }
        x + ReplaceAll(y, pat, rep);
      }
    } else {
      assert x + y == y;
    }
  }

  /** An occurrence at the front is replaced and the scan resumes just after it. */
  lemma ReplaceAtFront(y: string, pat: string, rep: string)
    requires |pat| > 0
    ensures ReplaceAll(pat + y, pat, rep) == rep + ReplaceAll(y, pat, rep)
  {
    assert pat <= pat + y;
    assert (pat + y)[|pat|..] == y;
  }

  /** A one-character pattern is replaced independently in both halves of a concatenation. */
  lemma {:induction false} ReplaceCharConcat(x: string, y: string, pat: string, rep: string)
    requires |pat| == 1
    ensures ReplaceAll(x + y, pat, rep) == ReplaceAll(x, pat, rep) + ReplaceAll(y, pat, rep)
  {
    if |x| > 0 {
      assert (x + y)[1..] == x[1..] + y;
      ReplaceCharConcat(x[1..], y, pat, rep);
      if x[0] == pat[0] {
        assert pat <= x + y && pat <= x;
        assert (x + y)[|pat|..] == x[|pat|..] + y;
      } else {
        assert !(pat <= x + y) && !(pat <= x);
        assert [x[0]] + ReplaceAll(x[1..], pat, rep) + ReplaceAll(y, pat, rep)
            == [x[0]] + (ReplaceAll(x[1..], pat, rep) + ReplaceAll(y, pat, rep));
      }
    } else {
      assert x + y == y;
    }
  }
}
