/** String helpers shared by the Python back end and the browser code.
    Strings are `seq<char>`; only the operations the program uses are defined,
    each with the semantics of the language that calls it. */
module Strings {

  datatype Option<T> = None | Some(value: T)

  /** `s.startswith(p)` (Python) and `s.indexOf(p) === 0` / `s.startsWith(p)` (JavaScript). */
  predicate StartsWith(s: string, p: string) {
    |p| <= |s| && s[..|p|] == p
  }

  /** `s.endswith(p)` (Python). */
  predicate EndsWith(s: string, p: string) {
    |p| <= |s| && s[|s| - |p|..] == p
  }

  /** Occurrence of `sub` at position `i` of `s`. */
  predicate OccursAt(s: string, sub: string, i: int) {
    0 <= i && i + |sub| <= |s| && s[i..i + |sub|] == sub
  }

  /** `sub in s` (Python) and `s.includes(sub)` (JavaScript). */
  function Contains(s: string, sub: string): (r: bool)
    ensures r <==> exists i :: OccursAt(s, sub, i)
    decreases |s|
  {
    if StartsWith(s, sub) then
      assert OccursAt(s, sub, 0);
      true
    else if |s| == 0 then
      assert forall i :: OccursAt(s, sub, i) ==> i == 0;
      false
    else
      var r := Contains(s[1..], sub);
      assert forall i :: OccursAt(s[1..], sub, i) ==> OccursAt(s, sub, i + 1);
      assert forall i :: OccursAt(s, sub, i) && i > 0 ==> OccursAt(s[1..], sub, i - 1);
      r
  }

  /** A string that `Contains` is also found in any extension of it. */
  lemma ContainsInConcat(a: string, b: string, sub: string)
    requires Contains(a, sub) || Contains(b, sub)
    ensures Contains(a + b, sub)
  {
    if Contains(a, sub) {
      var i :| OccursAt(a, sub, i);
      assert (a + b)[i..i + |sub|] == a[i..i + |sub|];
      assert OccursAt(a + b, sub, i);
    } else {
      var i :| OccursAt(b, sub, i);
      assert (a + b)[|a| + i..|a| + i + |sub|] == b[i..i + |sub|];
      assert OccursAt(a + b, sub, |a| + i);
    }
  }

  /** Position of the leftmost occurrence of a non-empty `d` in `s` at or
      after `k`. */
  function IndexFrom(s: string, d: string, k: nat): (r: Option<nat>)
    requires |d| > 0 && k <= |s|
    ensures r.Some? ==> k <= r.value && OccursAt(s, d, r.value)
                        && forall j :: k <= j < r.value ==> !OccursAt(s, d, j)
    ensures r.None? ==> forall j :: k <= j ==> !OccursAt(s, d, j)
    decreases |s| - k
  {
    if |s| - k < |d| then None
    else if s[k..k + |d|] == d then Some(k)
    else IndexFrom(s, d, k + 1)
  }

  /** Position of the leftmost occurrence of a non-empty `d` in `s`. */
  function IndexOf(s: string, d: string): (r: Option<nat>)
    requires |d| > 0
    ensures r.Some? ==> OccursAt(s, d, r.value) && forall j :: 0 <= j < r.value ==> !OccursAt(s, d, j)
    ensures r.None? ==> forall j :: !OccursAt(s, d, j)
  {
    IndexFrom(s, d, 0)
  }

  /** A leftmost occurrence inside `a` stays the leftmost one in `a + c`. */
  lemma IndexOfExtend(a: string, c: string, d: string)
    requires |d| > 0 && IndexOf(a, d).Some?
    ensures IndexOf(a + c, d) == IndexOf(a, d)
  {
    var i := IndexOf(a, d).value;
    assert (a + c)[i..i + |d|] == a[i..i + |d|];
    assert OccursAt(a + c, d, i);
    forall j | 0 <= j < i
      ensures !OccursAt(a + c, d, j)
    {
      assert !OccursAt(a, d, j);
      assert (a + c)[j..j + |d|] == a[j..j + |d|];
    }
  }

  /** `s.split(d)` for a non-empty separator, Python and JavaScript alike:
      leftmost, non-overlapping occurrences of `d` cut `s`. */
  function Split(s: string, d: string): (parts: seq<string>)
    requires |d| > 0
    ensures |parts| >= 1
    decreases |s|
  {
    match IndexOf(s, d)
    case None => [s]
    case Some(i) => [s[..i]] + Split(s[i + |d|..], d)
  }

  /** `d.join(parts)` (Python) and `parts.join(d)` (JavaScript). */
  function Join(parts: seq<string>, d: string): string {
    if |parts| == 0 then ""
    else if |parts| == 1 then parts[0]
    else parts[0] + d + Join(parts[1..], d)
  }

  /** Splitting and joining back on the same separator gives the input. */
  lemma {:induction false} JoinSplit(s: string, d: string)
    requires |d| > 0
    ensures Join(Split(s, d), d) == s
    decreases |s|
  {
    var o := IndexOf(s, d);
    if o.Some? {
      var i := o.value;
      var rest := s[i + |d|..];
      SplitAt(s, d, i);
      JoinCons(s[..i], Split(rest, d), d);
      JoinSplit(rest, d);
      AroundOccurrence(s, d, i);
    }
  }

  lemma JoinCons(x: string, r: seq<string>, d: string)
    requires |r| >= 1
    ensures Join([x] + r, d) == x + d + Join(r, d)
  {
    assert ([x] + r)[1..] == r;
  }

  /** A string is what precedes an occurrence, the occurrence, and what follows. */
  lemma AroundOccurrence(s: string, d: string, i: nat)
    requires OccursAt(s, d, i)
    ensures s == s[..i] + d + s[i + |d|..]
  {
    assert s == s[..i] + s[i..i + |d|] + s[i + |d|..];
  }

  /** No part of a split holds the separator. */
  lemma {:induction false} SplitPartsFree(s: string, d: string)
    requires |d| > 0
    ensures forall k :: 0 <= k < |Split(s, d)| ==> !Contains(Split(s, d)[k], d)
    decreases |s|
  {
    match IndexOf(s, d)
    case None =>
    case Some(i) =>
      var rest := s[i + |d|..];
      SplitPartsFree(rest, d);
      forall j | OccursAt(s[..i], d, j) ensures false {
        assert s[j..j + |d|] == s[..i][j..j + |d|];
        assert OccursAt(s, d, j);
      }
  }

  /** The position of the first occurrence of `x` in `xs`. */
  function FirstIndex<T(==)>(xs: seq<T>, x: T): (i: nat)
    requires x in xs
    ensures i < |xs| && xs[i] == x && forall k :: 0 <= k < i ==> xs[k] != x
  {
    if xs[0] == x then 0 else 1 + FirstIndex(xs[1..], x)
  }

  /** Appending leaves the first occurrence of an element already present in place. */
  lemma FirstIndexSnoc<T>(xs: seq<T>, y: T, x: T)
    requires x in xs
    ensures FirstIndex(xs + [y], x) == FirstIndex(xs, x)
  {
    var i := FirstIndex(xs, x);
    assert (xs + [y])[i] == x;
    forall k | 0 <= k < i
      ensures (xs + [y])[k] != x
    {
      assert (xs + [y])[k] == xs[k];
    }
  }

  /** The positions of the elements satisfying `p`, in increasing order:
      every such position, and no other. */
  function Positions<T>(xs: seq<T>, p: T -> bool): (pos: seq<nat>)
    ensures forall k :: 0 <= k < |pos| ==> pos[k] < |xs| && p(xs[pos[k]])
    ensures forall k, l :: 0 <= k < l < |pos| ==> pos[k] < pos[l]
    ensures forall i :: 0 <= i < |xs| && p(xs[i]) ==> i in pos
  {
    if xs == [] then []
    else
      var init := Positions(xs[..|xs| - 1], p);
      assert forall k :: 0 <= k < |init| ==> xs[init[k]] == xs[..|xs| - 1][init[k]];
      init + (if p(xs[|xs| - 1]) then [|xs| - 1] else [])
  }

  lemma TakeSnoc<T>(s: seq<T>, i: nat)
    requires i < |s|
    ensures s[..i + 1] == s[..i] + [s[i]]
  {
  }

  lemma ConcatAssoc<T>(x: seq<T>, y: seq<T>, z: seq<T>)
    ensures x + (y + z) == (x + y) + z
  {
  }

  /** One step of `Split`: the part before the leftmost separator, then the
      split of what follows it. */
  lemma SplitAt(s: string, d: string, i: nat)
    requires |d| > 0 && IndexOf(s, d) == Some(i)
    ensures Split(s, d) == [s[..i]] + Split(s[i + |d|..], d)
  {
  }

  /** Splitting `a + c` re-uses every complete part of `a`: only the last part
      of `a` is joined with `c` and split again. */
  lemma {:induction false} SplitAppend(a: string, c: string, d: string)
    requires |d| > 0
    ensures Split(a + c, d) == Split(a, d)[..|Split(a, d)| - 1] + Split(Split(a, d)[|Split(a, d)| - 1] + c, d)
    decreases |a|
  {
    var o := IndexOf(a, d);
    if o.Some? {
      var i := o.value;
      IndexOfExtend(a, c, d);
      var rest := a[i + |d|..];
      assert (a + c)[i + |d|..] == rest + c;
      assert (a + c)[..i] == a[..i];
      SplitAt(a, d, i);
      SplitAt(a + c, d, i);
      SplitAppend(rest, c, d);
      var r := Split(rest, d);
      ReplaceLast(a[..i], r, Split(a + c, d), Split(r[|r| - 1] + c, d));
    }
  }

  /** Prepending one part commutes with replacing the last part by several. */
  lemma ReplaceLast<T>(x: T, r: seq<T>, whole: seq<T>, tail: seq<T>)
    requires |r| >= 1 && whole == [x] + (r[..|r| - 1] + tail)
    ensures var sa := [x] + r; whole == sa[..|sa| - 1] + tail
  {
    var sa := [x] + r;
    assert sa[..|sa| - 1] == [x] + r[..|r| - 1];
    ConcatAssoc([x], r[..|r| - 1], tail);
  }

  /** ASCII lower-casing of one character. */
  function LowerChar(c: char): char {
    if 'A' <= c <= 'Z' then (c as int + 32) as char else c
  }

  /** `s.lower()` / `s.toLowerCase()` restricted to ASCII letters. */
  function Lower(s: string): (r: string)
    ensures |r| == |s|
    ensures forall i :: 0 <= i < |s| ==> r[i] == LowerChar(s[i])
  {
    if |s| == 0 then "" else [LowerChar(s[0])] + Lower(s[1..])
  }

  /** Python's `str.isspace()` for one character (code points listed by value). */
  predicate PyIsSpace(c: char) {
    var n := c as int;
    n == 0x20 || 0x09 <= n <= 0x0D || 0x1C <= n <= 0x1F || n == 0x85 || n == 0xA0
    || n == 0x1680 || 0x2000 <= n <= 0x200A || n == 0x2028 || n == 0x2029
    || n == 0x202F || n == 0x205F || n == 0x3000
  }

  /** The characters JavaScript's `String.prototype.trim` removes. */
  predicate JsIsSpace(c: char) {
    var n := c as int;
    n == 0x20 || 0x09 <= n <= 0x0D || n == 0xA0 || n == 0xFEFF
    || n == 0x1680 || 0x2000 <= n <= 0x200A || n == 0x2028 || n == 0x2029
    || n == 0x202F || n == 0x205F || n == 0x3000
  }

  /** Drops the leading characters that satisfy `ws`. */
  function TrimStart(s: string, ws: char -> bool): (r: string)
    ensures |r| <= |s| && r == s[|s| - |r|..]
    ensures |r| > 0 ==> !ws(r[0])
    ensures forall i {:trigger ws(s[i])} :: 0 <= i < |s| - |r| ==> ws(s[i])
  {
    if |s| > 0 && ws(s[0]) then
      var r := TrimStart(s[1..], ws);
      assert forall i :: 1 <= i < |s| ==> s[i] == s[1..][i - 1];
      r
    else s
  }

  /** Drops the trailing characters that satisfy `ws`. */
  function TrimEnd(s: string, ws: char -> bool): (r: string)
    ensures |r| <= |s| && r == s[..|r|]
    ensures |r| > 0 ==> !ws(r[|r| - 1])
    ensures forall i {:trigger ws(s[i])} :: |r| <= i < |s| ==> ws(s[i])
  {
    if |s| > 0 && ws(s[|s| - 1]) then
      var r := TrimEnd(s[..|s| - 1], ws);
      assert forall i :: 0 <= i < |s| - 1 ==> s[i] == s[..|s| - 1][i];
      r
    else s
  }

  /** Python `s.strip()`. */
  function PyStrip(s: string): string {
    TrimEnd(TrimStart(s, PyIsSpace), PyIsSpace)
  }

  /** No leading or trailing character satisfies `ws`. */
  predicate TrimmedBy(s: string, ws: char -> bool) {
    |s| == 0 || (!ws(s[0]) && !ws(s[|s| - 1]))
  }

  /** `strip` leaves no whitespace at either end and removes only whitespace. */
  lemma PyStripTrimmed(s: string)
    ensures TrimmedBy(PyStrip(s), PyIsSpace)
    ensures PyStrip(s) == s ==> TrimmedBy(s, PyIsSpace) || s == ""
    ensures TrimmedBy(s, PyIsSpace) ==> PyStrip(s) == s
  {
    var t := TrimStart(s, PyIsSpace);
    var r := TrimEnd(t, PyIsSpace);
    if |r| > 0 {
      assert r[0] == t[0];
    }
  }

  /** JavaScript `s.trim()`. */
  function JsTrim(s: string): string {
    TrimEnd(TrimStart(s, JsIsSpace), JsIsSpace)
  }

  /** Python `s.rstrip('/')`. */
  function RStripSlashes(s: string): string {
    TrimEnd(s, c => c == '/')
  }

  /** Decimal digits of a natural number, as `str(n)` and `String(n)` print it. */
  function NatToString(n: nat): (r: string)
    ensures |r| >= 1
    ensures forall i :: 0 <= i < |r| ==> '0' <= r[i] <= '9'
    ensures |r| > 1 ==> r[0] != '0'
  {
    if n < 10 then [DigitChar(n)] else NatToString(n / 10) + [DigitChar(n % 10)]
  }

  function DigitChar(d: nat): char
    requires d < 10
  {
    ['0', '1', '2', '3', '4', '5', '6', '7', '8', '9'][d]
  }

  /** Decimal value of a digit string (the inverse of NatToString). */
  function DigitsValue(s: string): int {
    if |s| == 0 then 0 else 10 * DigitsValue(s[..|s| - 1]) + (s[|s| - 1] as int - '0' as int)
  }

  /** Printing a number and reading its digits back gives the number. */
  lemma {:induction false} NatToStringRoundTrip(n: nat)
    ensures DigitsValue(NatToString(n)) == n
  {
    var r := NatToString(n);
    if n < 10 {
      assert r[..0] == "";
    } else {
      NatToStringRoundTrip(n / 10);
      assert r[..|r| - 1] == NatToString(n / 10);
    }
  }

  /** `String(n)` for any integer. */
  function IntToString(n: int): (r: string)
    ensures |r| >= 1
    ensures n < 0 <==> r[0] == '-'
  {
    if n < 0 then "-" + NatToString(-n) else NatToString(n)
  }
}
