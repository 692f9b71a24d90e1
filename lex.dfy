/** Hand-written matchers for the regex fragments the parser variants share,
    each reproducing Python's greedy matching. */
module Lex {
  import opened Text

  /** Number of consecutive digits at s[p..], at most `max`: what a greedy
      `\d{0,max}` takes there (`\d{1,max}` fails when it is 0). */
  function DigitRun(s: string, p: nat, max: nat): (n: nat)
    requires p <= |s|
    ensures n <= max && p + n <= |s| && AllDigits(s[p..p + n])
    ensures n < max && p + n < |s| ==> !IsDigit(s[p + n])
    decreases max
  {
    if max == 0 || p == |s| || !IsDigit(s[p]) then 0
    else 1 + DigitRun(s, p + 1, max - 1)
  }

  /** Position of the first '\n' at or after p, or |s|: where `.*` stops. */
  function LineEnd(s: string, p: nat): (q: nat)
    requires p <= |s|
    ensures p <= q <= |s| && '\n' !in s[p..q]
    ensures q < |s| ==> s[q] == '\n'
    decreases |s| - p
  {
    if p == |s| || s[p] == '\n' then p else LineEnd(s, p + 1)
  }

  /** Where Python's `$` matches: at the end, or just before a final '\n'. */
  predicate EndOfLine(s: string, q: nat)
  {
    q == |s| || (q == |s| - 1 && s[q] == '\n')
  }

  /** Greedy length of the time group `\d{1,2}:?\d{0,2}` at the start of s
      (of babyplot.py and main.py), 0 when s does not start with a digit. */
  function LooseTimeLength(s: string): (n: nat)
    ensures n <= |s|
    ensures n == 0 <==> s == [] || !IsDigit(s[0])
  {
    var a := DigitRun(s, 0, 2);
    if a == 0 then 0
    else
      var b := if a < |s| && s[a] == ':' then a + 1 else a;
      b + DigitRun(s, b, 2)
  }

  /** Length of a side part `[LR]\d{1,2}` at position p, 0 when none is there. */
  function SideLength(s: string, p: nat): (n: nat)
    requires p <= |s|
    ensures n == 0 || (2 <= n <= 3 && p + n <= |s|)
    ensures n != 0 ==> (s[p] == 'L' || s[p] == 'R') && AllDigits(s[p + 1..p + n])
  {
    if p < |s| && (s[p] == 'L' || s[p] == 'R') && 0 < DigitRun(s, p + 1, 2) then
      1 + DigitRun(s, p + 1, 2)
    else 0
  }

  /** A digit run of length d that ends at the cap, the end or a non-digit
      is exactly what `DigitRun` measures. */
  lemma {:induction false} DigitRunIs(s: string, p: nat, d: nat, max: nat)
    requires p + d <= |s| && d <= max && AllDigits(s[p..p + d])
    requires d == max || p + d == |s| || !IsDigit(s[p + d])
    ensures DigitRun(s, p, max) == d
    decreases d
  {
    if d > 0 {
      assert IsDigit(s[p..p + d][0]);
      assert s[p + 1..p + d] == s[p..p + d][1..];
      DigitRunIs(s, p + 1, d - 1, max - 1);
    }
  }

  /** Without a newline after p, `.*` runs to the end. */
  lemma LineEndNoNewline(s: string, p: nat)
    requires p <= |s| && '\n' !in s[p..]
    ensures LineEnd(s, p) == |s|
  {
  }

  /** `\d{0,2}` matches x whole. */
  predicate UpToTwoDigits(x: string) { |x| <= 2 && AllDigits(x) }

  /** `:?\d{0,2}` matches x whole. */
  predicate ColonDigits(x: string)
  {
    UpToTwoDigits(x) || (x != [] && x[0] == ':' && UpToTwoDigits(x[1..]))
  }

  /** `\d{1,2}:?\d{0,2}` matches g whole, in one way or another: one or two
      digits, then the rest. */
  predicate LooseTime(g: string)
  {
    || (1 <= |g| && IsDigit(g[0]) && ColonDigits(g[1..]))
    || (2 <= |g| && IsDigit(g[0]) && IsDigit(g[1]) && ColonDigits(g[2..]))
  }

  /** The greedy time group is a way of matching the time pattern. */
  lemma LooseTimeLengthMatches(s: string)
    requires LooseTimeLength(s) != 0
    ensures LooseTime(s[..LooseTimeLength(s)])
  {
    var n := LooseTimeLength(s);
    var a := DigitRun(s, 0, 2);
    var b := if a < |s| && s[a] == ':' then a + 1 else a;
    var g := s[..n];
    assert g[a..] == s[a..n] && g[..a] == s[..a];
    assert s[b..n] == s[b..b + DigitRun(s, b, 2)];
    if a == 1 {
      assert g[1..] == s[1..n];
    } else {
      assert g[2..] == s[2..n];
    }
    if b == a + 1 {
      assert g[a..][1..] == s[b..n];
    } else {
      assert g[a..] == s[b..n];
    }
  }

  /** Backtracking finds no other end for the time group: any way of
      matching the time pattern on a prefix of s that is followed by the end
      or by a character that is neither a digit nor ':' ends where the
      greedy match ends. */
  lemma LooseTimeStop(s: string, e: nat)
    requires e <= |s| && LooseTime(s[..e])
    requires e == |s| || (!IsDigit(s[e]) && s[e] != ':')
    ensures LooseTimeLength(s) == e
  {
    var g := s[..e];
    assert forall i :: 0 <= i < e ==> s[i] == g[i];
    var a := DigitRun(s, 0, 2);
    assert a != 0 by { assert IsDigit(s[0]); }
    var b := if a < |s| && s[a] == ':' then a + 1 else a;
    var m := DigitRun(s, b, 2);
    if a == 1 {
      assert e == 1 || !IsDigit(s[1]);
    }
  }
}
