/** The Python string operations the gateway relies on, restricted to ASCII:
    `strip`, `lower`, `in` (substring), `find`, `split(',')`, `','.join`,
    `split('/', 1)`, `rsplit('.', 1)[0]` and `int(...)` on text. */
module Strings {
  import opened Wrappers

  // ---------------------------------------------------------------------------
  // strip and lower

  /** `c.isspace()` for the ASCII range. */
  predicate IsSpace(c: char) {
    c == ' ' || 9 <= c as int <= 13 || 28 <= c as int <= 31
  }

  function TrimLeft(s: string): (r: string)
    ensures |r| <= |s| && r == s[|s| - |r|..]
    ensures r == [] || !IsSpace(r[0])
    decreases |s|
  {
    if |s| > 0 && IsSpace(s[0]) then TrimLeft(s[1..]) else s
  }

  function TrimRight(s: string): (r: string)
    ensures |r| <= |s| && r == s[..|r|]
    ensures r == [] || !IsSpace(r[|r| - 1])
    decreases |s|
  {
    if |s| > 0 && IsSpace(s[|s| - 1]) then TrimRight(s[..|s| - 1]) else s
  }

  /** `s.strip()`: the longest infix of `s` that neither starts nor ends with white space. */
  function Strip(s: string): (r: string)
  {
    TrimRight(TrimLeft(s))
  }

  lemma StripKeepsAbsent(s: string, c: char)
    requires c !in s
    ensures c !in Strip(s)
  {
    var l := TrimLeft(s);
    assert forall x :: x in l ==> x in s;
    assert forall x :: x in TrimRight(l) ==> x in l;
  }

  function LowerChar(c: char): char {
    if 'A' <= c <= 'Z' then (c as int + 32) as char else c
  }

  /** `s.lower()` for the ASCII range. */
  function Lower(s: string): (r: string)
    ensures |r| == |s|
    ensures forall i :: 0 <= i < |s| ==> r[i] == LowerChar(s[i])
  {
    seq(|s|, i requires 0 <= i < |s| => LowerChar(s[i]))
  }

  /** Lower-casing maps every capital to its small letter, leaves every other character as
      it is, leaves no capital behind, and so changes nothing the second time. */
  lemma LowerMeaning(s: string)
    ensures forall i :: 0 <= i < |s| && 'A' <= s[i] <= 'Z' ==> 'a' <= Lower(s)[i] <= 'z' && Lower(s)[i] as int == s[i] as int + 32
    ensures forall i :: 0 <= i < |s| && !('A' <= s[i] <= 'Z') ==> Lower(s)[i] == s[i]
    ensures forall c :: 'A' <= c <= 'Z' ==> c !in Lower(s)
    ensures Lower(Lower(s)) == Lower(s)
  {
  }

  lemma LowerKeepsAbsent(s: string, c: char)
    requires c !in s && !('a' <= c <= 'z')
    ensures c !in Lower(s)
  {
    var r := Lower(s);
    forall i | 0 <= i < |r| ensures r[i] != c {
      assert r[i] == LowerChar(s[i]) && s[i] != c;
    }
  }

  // ---------------------------------------------------------------------------
  // substring search

  predicate StartsWith(s: string, p: string) {
    |p| <= |s| && s[..|p|] == p
  }

  predicate EndsWith(s: string, p: string) {
    |p| <= |s| && s[|s| - |p|..] == p
  }

  /** Python's `pat in s`. */
  predicate Contains(s: string, pat: string)
    decreases |s|
  {
    StartsWith(s, pat) || (|s| > 0 && Contains(s[1..], pat))
  }

  /** An occurrence at position `j` means `pat in s`. */
  lemma {:induction false} OccurrenceContains(s: string, pat: string, j: nat)
    requires j + |pat| <= |s| && s[j..j + |pat|] == pat
    ensures Contains(s, pat)
    decreases j
  {
    if j > 0 {
      assert s[1..][j - 1..j - 1 + |pat|] == s[j..j + |pat|];
      OccurrenceContains(s[1..], pat, j - 1);
    }
  }

  /** `pat in s` means an occurrence somewhere. */
  lemma {:induction false} ContainsOccurrence(s: string, pat: string) returns (j: nat)
    requires Contains(s, pat)
    ensures j + |pat| <= |s| && s[j..j + |pat|] == pat
    decreases |s|
  {
    if StartsWith(s, pat) {
      j := 0;
    } else {
      var k := ContainsOccurrence(s[1..], pat);
      j := k + 1;
      assert s[1..][k..k + |pat|] == s[j..j + |pat|];
    }
  }

  lemma ContainsSuffix(s: string, pat: string)
    ensures Contains(s + pat, pat)
  {
    OccurrenceContains(s + pat, pat, |s|);
  }

  lemma ContainsExtend(s: string, t: string, pat: string)
    requires Contains(s, pat)
    ensures Contains(s + t, pat)
  {
    var j := ContainsOccurrence(s, pat);
    assert (s + t)[j..j + |pat|] == s[j..j + |pat|];
    OccurrenceContains(s + t, pat, j);
  }

  /** Every character of `pat` occurs in any text containing it. */
  lemma ContainsChars(s: string, pat: string)
    requires Contains(s, pat)
    ensures forall c :: c in pat ==> c in s
  {
    var j := ContainsOccurrence(s, pat);
    forall c | c in pat ensures c in s {
      var i :| 0 <= i < |pat| && pat[i] == c;
      assert s[j..j + |pat|][i] == s[j + i];
    }
  }

  lemma ContainsNeedsChar(s: string, pat: string, c: char)
    requires c in pat && c !in s
    ensures !Contains(s, pat)
  {
    if Contains(s, pat) {
      ContainsChars(s, pat);
    }
  }

  lemma Assoc<T>(a: seq<T>, b: seq<T>, c: seq<T>)
    ensures a + b + c == a + (b + c)
  {
  }

  /** `pat` occurs in `s` at position `j`. */
  predicate OccursAt(s: string, pat: string, j: nat) {
    j + |pat| <= |s| && s[j..j + |pat|] == pat
  }

  /** Python's `s.find(pat, i)`: the first occurrence of `pat` at or after `i`, or -1. */
  function FindFrom(s: string, pat: string, i: nat): (r: int)
    ensures r == -1 || (i <= r && OccursAt(s, pat, r))
    decreases |s| - i
  {
    if i + |pat| > |s| then -1
    else if s[i..i + |pat|] == pat then i
    else FindFrom(s, pat, i + 1)
  }

  /** `find` answers the first occurrence: none lies between `i` and the answer, and none
      at all lies after `i` when the answer is -1. */
  lemma {:induction false} FindFromFirst(s: string, pat: string, i: nat)
    ensures FindFrom(s, pat, i) >= 0 ==> forall j :: i <= j < FindFrom(s, pat, i) ==> !OccursAt(s, pat, j)
    ensures FindFrom(s, pat, i) < 0 ==> forall j :: i <= j ==> !OccursAt(s, pat, j)
    decreases |s| - i
  {
    if i + |pat| <= |s| && s[i..i + |pat|] != pat {
      FindFromFirst(s, pat, i + 1);
    }
  }

  lemma FindFromAbsent(s: string, pat: string, i: nat)
    requires !Contains(s, pat)
    ensures FindFrom(s, pat, i) == -1
  {
    var r := FindFrom(s, pat, i);
    if r >= 0 {
      OccurrenceContains(s, pat, r);
    }
  }

  // ---------------------------------------------------------------------------
  // split and join on one separator character

  /** Python's `s.split(c)`: never empty, and no piece holds the separator. */
  function Split(s: string, c: char): (r: seq<string>)
    ensures |r| >= 1
    ensures forall i :: 0 <= i < |r| ==> c !in r[i]
    decreases |s|
  {
    if |s| == 0 then [""]
    else
      var rest := Split(s[1..], c);
      if s[0] == c then [""] + rest
      else [[s[0]] + rest[0]] + rest[1..]
  }

  /** Python's `c.join(xs)`. */
  function Join(xs: seq<string>, c: char): string
    decreases |xs|
  {
    if |xs| == 0 then ""
    else if |xs| == 1 then xs[0]
    else xs[0] + [c] + Join(xs[1..], c)
  }

  lemma {:induction false} SplitPrefix(a: string, t: string, c: char)
    requires c !in a
    ensures Split(a + t, c) == [a + Split(t, c)[0]] + Split(t, c)[1..]
    decreases |a|
  {
    if |a| > 0 {
      assert (a + t)[1..] == a[1..] + t;
      SplitPrefix(a[1..], t, c);
      assert [a[0]] + (a[1..] + Split(t, c)[0]) == a + Split(t, c)[0];
    } else {
      assert a + t == t;
      assert a + Split(t, c)[0] == Split(t, c)[0];
    }
  }

  /** Splitting a join gives back the pieces. */
  lemma {:induction false} SplitJoin(xs: seq<string>, c: char)
    requires |xs| >= 1
    requires forall i :: 0 <= i < |xs| ==> c !in xs[i]
    ensures Split(Join(xs, c), c) == xs
    decreases |xs|
  {
    if |xs| == 1 {
      SplitPrefix(xs[0], "", c);
      assert xs[0] + "" == xs[0];
    } else {
      var t := Join(xs[1..], c);
      SplitJoin(xs[1..], c);
      assert xs[0] + [c] + t == xs[0] + ([c] + t);
      SplitPrefix(xs[0], [c] + t, c);
      assert ([c] + t)[1..] == t;
      assert Split([c] + t, c) == [""] + xs[1..];
      assert xs[0] + "" == xs[0];
    }
  }

  /** A text without the separator is its own one piece. */
  lemma SplitNoSeparator(s: string, c: char)
    requires c !in s
    ensures Split(s, c) == [s]
  {
    SplitJoin([s], c);
  }

  /** Python's `s.split(c, 1)` when `c in s`, and `('', s)` otherwise (views.py:452-456). */
  function SplitFirst(s: string, c: char): (r: (string, string))
    decreases |s|
  {
    if |s| == 0 then ("", s)
    else if s[0] == c then ("", s[1..])
    else if c !in s[1..] then ("", s)
    else
      var (p, v) := SplitFirst(s[1..], c);
      ([s[0]] + p, v)
  }

  lemma {:induction false} SplitFirstOf(p: string, v: string, c: char)
    requires c !in p
    ensures SplitFirst(p + [c] + v, c) == (p, v)
    decreases |p|
  {
    var s := p + [c] + v;
    if |p| == 0 {
      assert s[0] == c && s[1..] == v;
    } else {
      assert s[1..] == p[1..] + [c] + v;
      assert c in s[1..] by { assert s[1..][|p| - 1] == c; }
      SplitFirstOf(p[1..], v, c);
      assert [p[0]] + p[1..] == p;
    }
  }

  lemma {:induction false} SplitFirstNone(s: string, c: char)
    requires c !in s
    ensures SplitFirst(s, c) == ("", s)
  {
    if |s| > 0 {
      assert s[0] in s;
      assert forall x :: x in s[1..] ==> x in s;
    }
  }

  /** Python's `s.rsplit(c, 1)[0]`: everything before the last `c`, or `s` itself. */
  function BeforeLast(s: string, c: char): (r: string)
    ensures |r| <= |s|
    decreases |s|
  {
    if c !in s then s
    else if s[|s| - 1] == c then s[..|s| - 1]
    else BeforeLast(s[..|s| - 1], c)
  }

  lemma {:induction false} BeforeLastOf(p: string, q: string, c: char)
    requires c !in q
    ensures BeforeLast(p + [c] + q, c) == p
    decreases |q|
  {
    var s := p + [c] + q;
    assert s[|p|] == c;
    if |q| == 0 {
      assert s[..|s| - 1] == p;
    } else {
      assert s[|s| - 1] == q[|q| - 1];
      assert s[..|s| - 1] == p + [c] + q[..|q| - 1];
      assert forall x :: x in q[..|q| - 1] ==> x in q;
      BeforeLastOf(p, q[..|q| - 1], c);
    }
  }

  // ---------------------------------------------------------------------------
  // integers as text

  predicate IsDigit(c: char) {
    '0' <= c <= '9'
  }

  predicate AllDigits(s: string) {
    forall i :: 0 <= i < |s| ==> IsDigit(s[i])
  }

  function DigitsValue(s: string): nat
    requires AllDigits(s)
    decreases |s|
  {
    if |s| == 0 then 0 else DigitsValue(s[..|s| - 1]) * 10 + (s[|s| - 1] as int - '0' as int)
  }

  /** Python's `int(s)` for a text `s`: optional surrounding white space, an optional sign and
      at least one decimal digit; anything else raises ValueError, here `None`. */
  function ParseInt(s: string): Option<int>
  {
    var t := Strip(s);
    if |t| > 0 && (t[0] == '-' || t[0] == '+') then
      var d := t[1..];
      if |d| > 0 && AllDigits(d) then
        var v: int := DigitsValue(d);
        Some(if t[0] == '-' then -v else v)
      else None
    else if |t| > 0 && AllDigits(t) then Some(DigitsValue(t))
    else None
  }

  function DigitChar(d: nat): char
    requires d < 10
  {
    ('0' as int + d) as char
  }

  function NatToString(n: nat): (r: string)
    decreases n
  {
    if n < 10 then [DigitChar(n)] else NatToString(n / 10) + [DigitChar(n % 10)]
  }

  /** Python's `str(n)`. */
  function IntToString(n: int): string {
    if n < 0 then "-" + NatToString(-n) else NatToString(n)
  }

  lemma {:induction false} NatToStringDigits(n: nat)
    ensures |NatToString(n)| > 0 && AllDigits(NatToString(n))
    ensures DigitsValue(NatToString(n)) == n
    decreases n
  {
    var s := NatToString(n);
    if n >= 10 {
      NatToStringDigits(n / 10);
      assert s[..|s| - 1] == NatToString(n / 10);
    }
  }

  /** A text that starts and ends with no white space is its own strip. */
  lemma StripUnpadded(s: string)
    requires |s| > 0 && !IsSpace(s[0]) && !IsSpace(s[|s| - 1])
    ensures Strip(s) == s
  {
    assert TrimLeft(s) == s;
    assert TrimRight(s) == s;
  }

  /** A digit string parses to its value. */
  lemma ParseIntDigits(d: string)
    requires |d| > 0 && AllDigits(d)
    ensures ParseInt(d) == Some(DigitsValue(d))
  {
    StripUnpadded(d);
    assert d[0] != '-' && d[0] != '+' by {
      assert IsDigit(d[0]);
    }
  }

  /** A digit string after `-` parses to the negated value. */
  lemma ParseIntNegDigits(d: string, t: string)
    requires |d| > 0 && AllDigits(d) && t == "-" + d
    ensures ParseInt(t) == Some(-(DigitsValue(d) as int))
  {
    assert t[0] == '-' && t[|t| - 1] == d[|d| - 1];
    StripUnpadded(t);
    assert t[1..] == d;
  }

  /** `int(str(n)) == n`. */
  lemma ParseIntToString(n: int)
    ensures ParseInt(IntToString(n)) == Some(n)
  {
    var m: nat := if n < 0 then -n else n;
    NatToStringDigits(m);
    if n < 0 {
      ParseIntNegDigits(NatToString(m), IntToString(n));
    } else {
      ParseIntDigits(NatToString(m));
    }
  }
}
