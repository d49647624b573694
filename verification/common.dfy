// Shared value types of the card builder (lib/types.ts) and the numeric
// helpers that stand in for JavaScript's Math functions.
module Common {

  datatype Option<+T> = None | Some(value: T)

  /** A length in pixels or percent that the source never lets go negative. */
  type NonNeg = r: real | 0.0 <= r

  /** `o ?? d`: the value when there is one, else the default. */
  function OrDefault<T>(o: Option<T>, d: T): (r: T)
    ensures o.Some? ==> r == o.value
    ensures o.None? ==> r == d
  {
    if o.Some? then o.value else d
  }

  function Min(a: real, b: real): real { if a <= b then a else b }
  function Max(a: real, b: real): real { if a >= b then a else b }

  /** `Math.min(hi, Math.max(lo, v))`, the clamp idiom used throughout the builder. */
  function Clamp(v: real, lo: real, hi: real): (r: real)
    requires lo <= hi
    ensures lo <= r <= hi
    ensures lo <= v <= hi ==> r == v
    ensures v < lo ==> r == lo
    ensures hi < v ==> r == hi
  {
    Min(hi, Max(lo, v))
  }

  lemma ClampIdempotent(v: real, lo: real, hi: real)
    requires lo <= hi
    ensures Clamp(Clamp(v, lo, hi), lo, hi) == Clamp(v, lo, hi)
  {
  }

  /** JavaScript `Math.round`: halves round toward positive infinity. */
  function Round(x: real): (n: int)
    ensures x - 0.5 < n as real <= x + 0.5
  {
    (x + 0.5).Floor
  }

  lemma RoundOfInt(n: int)
    ensures Round(n as real) == n
  {
  }

  lemma RoundMonotone(a: real, b: real)
    requires a <= b
    ensures Round(a) <= Round(b)
  {
  }

  /** The integer nearest `x` that is at most `n`, when `x <= n`. */
  lemma RoundBelowInt(x: real, n: int)
    requires x <= n as real
    ensures Round(x) <= n
  {
    RoundMonotone(x, n as real);
  }

  // ---------------------------------------------------------------- strings

  /** JavaScript's white-space and line-terminator characters (the ones `trim` removes). */
  predicate IsJsWhitespace(c: char)
  {
    c == ' ' || c == '\t' || c == '\n' || c == '\r' || c == '\U{000B}' || c == '\U{000C}'
    || c == '\U{00A0}' || c == '\U{1680}' || ('\U{2000}' <= c <= '\U{200A}')
    || c == '\U{2028}' || c == '\U{2029}' || c == '\U{202F}' || c == '\U{205F}'
    || c == '\U{3000}' || c == '\U{FEFF}'
  }

  /** `!value.trim()`: the string is empty after trimming. */
  predicate IsBlank(s: string)
  {
    forall i :: 0 <= i < |s| ==> IsJsWhitespace(s[i])
  }

  /** `s.split(sep)[1]`: the text between the first and second separator, if there is a first one. */
  function SecondSegment(s: string, sep: char): (r: Option<string>)
    ensures r.None? <==> sep !in s
    ensures r.Some? ==> sep !in r.value
    ensures r.Some? ==> exists i :: 0 <= i < |s| && s[i] == sep && sep !in s[..i]
                                    && r.value <= s[i+1..]
                                    && (i + 1 + |r.value| == |s| || s[i + 1 + |r.value|] == sep)
  {
    var i := IndexOf(s, sep);
    if i == |s| then None else Some(TakeUntil(s[i+1..], sep))
  }

  /** Index of the first `c` in `s`, or `|s|` when there is none. */
  function IndexOf(s: string, c: char): (i: nat)
    ensures i <= |s|
    ensures c !in s[..i]
    ensures i < |s| ==> s[i] == c
  {
    if |s| == 0 then 0
    else if s[0] == c then 0
    else
      var j := IndexOf(s[1..], c);
      assert s[..j+1] == [s[0]] + s[1..][..j];
      j + 1
  }

  /** The prefix of `s` before the first `c` (`s.split(c)[0]`). */
  function TakeUntil(s: string, c: char): (r: string)
    ensures c !in r
    ensures r <= s
    ensures |r| < |s| ==> s[|r|] == c
  {
    s[..IndexOf(s, c)]
  }

  /** No element occurs twice. */
  predicate Distinct<T(==)>(s: seq<T>)
  {
    forall i, j :: 0 <= i < j < |s| ==> s[i] != s[j]
  }

  /** ASCII `toLowerCase`. */
  function ToLowerAscii(s: string): (r: string)
    ensures |r| == |s|
    ensures forall i :: 0 <= i < |s| && !('A' <= s[i] <= 'Z') ==> r[i] == s[i]
    ensures forall i :: 0 <= i < |s| && 'A' <= s[i] <= 'Z' ==> r[i] as int == s[i] as int + 32
  {
    if |s| == 0 then []
    else
      var c := s[0];
      [if 'A' <= c <= 'Z' then (c as int + 32) as char else c] + ToLowerAscii(s[1..])
  }

  /** ASCII `toUpperCase`. */
  function ToUpperAscii(s: string): (r: string)
    ensures |r| == |s|
    ensures forall i :: 0 <= i < |s| && !('a' <= s[i] <= 'z') ==> r[i] == s[i]
    ensures forall i :: 0 <= i < |s| && 'a' <= s[i] <= 'z' ==> r[i] as int == s[i] as int - 32
  {
    if |s| == 0 then []
    else
      var c := s[0];
      [if 'a' <= c <= 'z' then (c as int - 32) as char else c] + ToUpperAscii(s[1..])
  }

  /** `s.includes(t)` for a non-empty `t`. */
  predicate Contains(s: string, t: string)
    requires |t| > 0
  {
    FindFirst(s, t).Some?
  }

  /** Decimal rendering of a natural number (what a template literal does with it). */
  function NatToString(n: nat): (r: string)
    ensures |r| >= 1
    ensures forall i :: 0 <= i < |r| ==> '0' <= r[i] <= '9'
    decreases n
  {
    if n < 10 then [DigitChar(n)] else NatToString(n / 10) + [DigitChar(n % 10)]
  }

  function DigitChar(d: nat): (c: char)
    requires d < 10
    ensures '0' <= c <= '9'
  {
    (48 + d) as char
  }

  /** Decimal rendering of an integer, with a leading minus sign when negative. */
  function IntToString(n: int): (r: string)
    ensures |r| >= 1
    ensures n >= 0 ==> r == NatToString(n)
    ensures n < 0 ==> r == "-" + NatToString(-n)
  {
    if n >= 0 then NatToString(n) else "-" + NatToString(-n)
  }

  /** `pat` occurs in `s` starting at index `j`. */
  predicate OccursAt(s: string, pat: string, j: int)
  {
    0 <= j && j + |pat| <= |s| && s[j..j + |pat|] == pat
  }

  /**
   * The first index at which `pat` occurs in `s`, or None when it occurs
   * nowhere.
   */
  function FindFirst(s: string, pat: string): (i: Option<nat>)
    requires |pat| > 0
    ensures i.Some? ==> OccursAt(s, pat, i.value)
    ensures forall j :: 0 <= j && (i.None? || j < i.value) ==> !OccursAt(s, pat, j)
    decreases |s|
  {
    if pat <= s then
      assert s[0..|pat|] == pat;
      Some(0)
    else if |s| == 0 then None
    else
      var k := FindFirst(s[1..], pat);
      assert !OccursAt(s, pat, 0);
      assert forall j :: 1 <= j ==> OccursAt(s, pat, j) == OccursAt(s[1..], pat, j - 1);
      if k.None? then None else Some(k.value + 1)
  }

  /** `s.replace(pat, rep)` with a string pattern: only the first occurrence is replaced. */
  function ReplaceFirst(s: string, pat: string, rep: string): (r: string)
    requires |pat| > 0
    ensures FindFirst(s, pat).None? ==> r == s
    ensures FindFirst(s, pat).Some? ==>
              var i := FindFirst(s, pat).value; r == s[..i] + rep + s[i + |pat|..]
    decreases |s|
  {
    if pat <= s then
      assert s[..0] == [];
      rep + s[|pat|..]
    else if |s| == 0 then s
    else
      var rest := ReplaceFirst(s[1..], pat, rep);
      var k := FindFirst(s[1..], pat);
      if k.Some? then
        (assert FindFirst(s, pat) == Some(k.value + 1);
         SpliceCons(s, k.value, |pat|, rep);
         [s[0]] + rest)
      else
        (ReplaceFirstNone(s, pat, rest);
         [s[0]] + rest)
  }

  /** Putting the head back in front of a splice of the tail gives the same splice of the whole, one index on. */
  lemma SpliceCons<T>(s: seq<T>, k: nat, len: nat, rep: seq<T>)
    requires 0 < |s| && k + len <= |s| - 1
    ensures [s[0]] + (s[1..][..k] + rep + s[1..][k + len..]) == s[..k + 1] + rep + s[k + 1 + len..]
  {
    var head, tail := s[1..][..k], s[1..][k + len..];
    assert s[..k + 1] == [s[0]] + head;
    assert s[k + 1 + len..] == tail;
    SeqAssoc4([s[0]], head, rep, tail);
  }

  /** With no occurrence in the tail (nor at the head) there is none at all, and nothing is replaced. */
  lemma ReplaceFirstNone(s: string, pat: string, rest: string)
    requires |pat| > 0 && |s| > 0 && !(pat <= s)
    requires FindFirst(s[1..], pat).None? && rest == s[1..]
    ensures FindFirst(s, pat).None? && [s[0]] + rest == s
  {
  }

  lemma SeqAssoc4<T>(a: seq<T>, b: seq<T>, c: seq<T>, d: seq<T>)
    ensures a + (b + c + d) == (a + b) + c + d
  {
  }
}
