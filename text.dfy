/**
 * The Python string operations the tracker's rules are built from: str.isspace, strip,
 * split on one character, join, rsplit(d, 1), ASCII lower-casing, substring search,
 * int() on a string and str() of an int. Characters are Unicode scalar values, as
 * Python's code points are.
 */
module Text {
  import opened Wrappers

  /** The characters for which Python's str.isspace() holds; strip() and int() remove them. */
  predicate IsSpace(c: char) {
    c == ' ' || ('\t' <= c <= '\r') || ('\U{1C}' <= c <= '\U{1F}') || c == '\U{85}' || c == '\U{A0}'
    || c == '\U{1680}' || ('\U{2000}' <= c <= '\U{200A}') || c == '\U{2028}' || c == '\U{2029}'
    || c == '\U{202F}' || c == '\U{205F}' || c == '\U{3000}'
  }

  /** A string with no whitespace at either end (what strip() returns). */
  predicate IsStripped(s: string) {
    s == [] || (!IsSpace(s[0]) && !IsSpace(s[|s| - 1]))
  }

  /** Every character of `s` is whitespace (a blank line). */
  predicate AllSpace(s: string) {
    forall i :: 0 <= i < |s| ==> IsSpace(s[i])
  }

  lemma AllSpaceConcat(a: string, b: string)
    requires AllSpace(a) && AllSpace(b)
    ensures AllSpace(a + b)
  {
    forall i | 0 <= i < |a + b| ensures IsSpace((a + b)[i]) {
      if i >= |a| {
        assert (a + b)[i] == b[i - |a|];
      }
    }
  }

  function TrimLeft(s: string): (r: string)
    ensures |r| <= |s| && r == s[|s| - |r|..]
    ensures r == [] || !IsSpace(r[0])
  {
    if |s| > 0 && IsSpace(s[0]) then TrimLeft(s[1..]) else s
  }

  /** What TrimLeft removes is whitespace. */
  lemma {:induction false} TrimLeftSpace(s: string)
    ensures AllSpace(s[..|s| - |TrimLeft(s)|])
  {
    if |s| > 0 && IsSpace(s[0]) {
      TrimLeftSpace(s[1..]);
      var r := TrimLeft(s);
      assert s[..|s| - |r|] == [s[0]] + s[1..][..|s| - 1 - |r|];
      AllSpaceConcat([s[0]], s[1..][..|s| - 1 - |r|]);
    }
  }

  function TrimRight(s: string): (r: string)
    ensures |r| <= |s| && r == s[..|r|]
    ensures r == [] || !IsSpace(r[|r| - 1])
  {
    if |s| > 0 && IsSpace(s[|s| - 1]) then TrimRight(s[..|s| - 1]) else s
  }

  /** What TrimRight removes is whitespace. */
  lemma {:induction false} TrimRightSpace(s: string)
    ensures AllSpace(s[|TrimRight(s)|..])
  {
    if |s| > 0 && IsSpace(s[|s| - 1]) {
      TrimRightSpace(s[..|s| - 1]);
      var r := TrimRight(s);
      assert s[|r|..] == s[..|s| - 1][|r|..] + [s[|s| - 1]];
      AllSpaceConcat(s[..|s| - 1][|r|..], [s[|s| - 1]]);
    }
  }

  /** Where the text that `s.strip()` keeps begins. */
  function StripStart(s: string): (k: nat)
    ensures k <= |s|
  {
    |s| - |TrimLeft(s)|
  }

  /**
   * Python's `s.strip()`: the slice of `s` that remains once the whitespace at both
   * ends is removed (StripRemovesSpace says what is removed).
   */
  function Strip(s: string): (r: string)
    ensures IsStripped(r)
    ensures StripStart(s) + |r| <= |s| && r == s[StripStart(s)..StripStart(s) + |r|]
  {
    var left := TrimLeft(s);
    var r := TrimRight(left);
    StripSlice(s, left, r, |s| - |left|);
    StripEnds(left, r);
    r
  }

  lemma {:induction false} StripSlice(s: string, left: string, r: string, k: nat)
    requires k <= |s| && left == s[k..] && |r| <= |left| && r == left[..|r|]
    ensures k + |r| <= |s| && r == s[k..k + |r|]
  {
  }

  lemma {:induction false} StripEnds(left: string, r: string)
    requires left == [] || !IsSpace(left[0])
    requires |r| <= |left| && r == left[..|r|] && (r == [] || !IsSpace(r[|r| - 1]))
    ensures IsStripped(r)
  {
    if r != [] {
      assert r[0] == left[0];
    }
  }

  /** What `s.strip()` removes from either end is whitespace. */
  lemma {:induction false} StripRemovesSpace(s: string)
    ensures AllSpace(s[..StripStart(s)]) && AllSpace(s[StripStart(s) + |Strip(s)|..])
  {
    var left := TrimLeft(s);
    var r := TrimRight(left);
    TrimLeftSpace(s);
    TrimRightSpace(left);
    assert s[|s| - |left| + |r|..] == left[|r|..];
  }

  /** `s.strip()` leaves nothing exactly when `s` is blank. */
  lemma {:induction false} StripEmpty(s: string)
    ensures Strip(s) == [] <==> AllSpace(s)
  {
    var left := TrimLeft(s);
    var r := TrimRight(left);
    var k := |s| - |left|;
    if r == [] {
      TrimLeftSpace(s);
      TrimRightSpace(left);
      assert s == s[..k] + left;
      AllSpaceConcat(s[..k], left);
    } else {
      assert s[k] == r[0];
    }
  }

  /** Stripping a string that is already stripped changes nothing. */
  lemma StripStripped(s: string)
    requires IsStripped(s)
    ensures Strip(s) == s
  {
  }

  /** Python's `s.split(d)` for a one-character separator: never empty, no piece holds `d`. */
  function Split(s: string, d: char): (r: seq<string>)
    ensures |r| >= 1
    ensures forall i :: 0 <= i < |r| ==> d !in r[i]
  {
    if s == [] then [[]]
    else
      var rest := Split(s[1..], d);
      if s[0] == d then [[]] + rest
      else [[s[0]] + rest[0]] + rest[1..]
  }

  /** Python's `d.join(parts)` for a one-character separator. */
  function Join(parts: seq<string>, d: char): string {
    if |parts| == 0 then []
    else if |parts| == 1 then parts[0]
    else parts[0] + [d] + Join(parts[1..], d)
  }

  lemma {:induction false} SplitWithout(a: string, d: char)
    requires d !in a
    ensures Split(a, d) == [a]
  {
    if a != [] {
      SplitWithout(a[1..], d);
      assert [a[0]] + a[1..] == a;
    }
  }

  lemma {:induction false} SplitAt(a: string, b: string, d: char)
    requires d !in a
    ensures Split(a + [d] + b, d) == [a] + Split(b, d)
  {
    if a == [] {
      assert a + [d] + b == [d] + b;
      assert ([d] + b)[1..] == b;
    } else {
      assert (a + [d] + b)[1..] == a[1..] + [d] + b;
      SplitAt(a[1..], b, d);
      assert [a[0]] + a[1..] == a;
    }
  }

  /** Splitting what was joined gives back the pieces, when no piece holds the separator. */
  lemma {:induction false} SplitJoin(parts: seq<string>, d: char)
    requires |parts| >= 1
    requires forall i :: 0 <= i < |parts| ==> d !in parts[i]
    ensures Split(Join(parts, d), d) == parts
  {
    if |parts| == 1 {
      SplitWithout(parts[0], d);
    } else {
      SplitJoin(parts[1..], d);
      SplitAt(parts[0], Join(parts[1..], d), d);
      assert [parts[0]] + parts[1..] == parts;
    }
  }

  /** Joining the pieces of a split gives back the string. */
  lemma {:induction false} JoinSplit(s: string, d: char)
    ensures Join(Split(s, d), d) == s
  {
    if s != [] {
      var rest := Split(s[1..], d);
      JoinSplit(s[1..], d);
      if s[0] == d {
        assert ([[]] + rest)[1..] == rest;
        assert Join([[]] + rest, d) == [] + [d] + Join(rest, d);
        assert [d] + s[1..] == s;
      } else {
        var parts := [[s[0]] + rest[0]] + rest[1..];
        if |rest| == 1 {
          assert [s[0]] + s[1..] == s;
        } else {
          assert parts[1..] == rest[1..];
          assert Join(rest, d) == rest[0] + [d] + Join(rest[1..], d);
          assert [s[0]] + s[1..] == s;
        }
      }
    }
  }

  /** The position of the last `d` in `s`, if any. */
  function LastIndexOf(s: string, d: char): (r: Option<nat>)
    ensures r.None? <==> d !in s
    ensures r.Some? ==> r.value < |s| && s[r.value] == d && d !in s[r.value + 1..]
  {
    if s == [] then None
    else if s[|s| - 1] == d then Some(|s| - 1)
    else
      var r := LastIndexOf(s[..|s| - 1], d);
      assert s == s[..|s| - 1] + [s[|s| - 1]];
      if r.Some? then
        assert s[r.value + 1..] == s[..|s| - 1][r.value + 1..] + [s[|s| - 1]];
        r
      else r
  }

  /** The last piece of splitting `a + [d] + b`, for `b` without `d`, is `b`; there are at least two pieces. */
  lemma {:induction false} SplitLastAfter(a: string, b: string, d: char)
    requires d !in b
    ensures |Split(a + [d] + b, d)| >= 2
    ensures Split(a + [d] + b, d)[|Split(a + [d] + b, d)| - 1] == b
  {
    if a == [] {
      assert a + [d] + b == [d] + b;
      assert ([d] + b)[1..] == b;
      SplitWithout(b, d);
    } else {
      assert (a + [d] + b)[1..] == a[1..] + [d] + b;
      SplitLastAfter(a[1..], b, d);
    }
  }

  /** `s.split(d)[-1]`: the text after the last `d`, or all of `s` when there is none. */
  lemma {:induction false} SplitLast(s: string, d: char)
    ensures LastIndexOf(s, d).None? ==> Split(s, d)[|Split(s, d)| - 1] == s
    ensures LastIndexOf(s, d).Some? ==> Split(s, d)[|Split(s, d)| - 1] == s[LastIndexOf(s, d).value + 1..]
  {
    match LastIndexOf(s, d)
    case None => SplitWithout(s, d);
    case Some(i) =>
      assert s == s[..i] + [d] + s[i + 1..];
      SplitLastAfter(s[..i], s[i + 1..], d);
  }

  /** Python's `s.rsplit(d, 1)[0]`: everything before the last `d`, or all of `s`. */
  function RsplitHead(s: string, d: char): (r: string)
    ensures d !in s ==> r == s
    ensures d in s ==> exists tail :: d !in tail && s == r + [d] + tail
  {
    match LastIndexOf(s, d)
    case None => s
    case Some(i) =>
      assert s == s[..i] + [d] + s[i + 1..];
      s[..i]
  }

  /** ASCII lower-casing of one character (the database's case-insensitive LIKE). */
  function LowerChar(c: char): char {
    if 'A' <= c <= 'Z' then (c as int + 32) as char else c
  }

  function Lower(s: string): (r: string)
    ensures |r| == |s| && forall i :: 0 <= i < |s| ==> r[i] == LowerChar(s[i])
  {
    seq(|s|, i requires 0 <= i < |s| => LowerChar(s[i]))
  }

  /** `q` occurs in `h` as a contiguous piece. */
  predicate Contains(h: string, q: string)
    decreases |h|
  {
    q <= h || (|h| > 0 && Contains(h[1..], q))
  }

  /** The ORM's `field__icontains=q`. */
  predicate IContains(h: string, q: string) {
    Contains(Lower(h), Lower(q))
  }

  /** `s[:n]`: the first `n` characters. */
  function Truncate(s: string, n: nat): (r: string)
    ensures r <= s && |r| == if |s| <= n then |s| else n
  {
    if |s| <= n then s else s[..n]
  }

  // ---------------------------------------------------------------------------
  // int(s) and str(n)
  // ---------------------------------------------------------------------------

  predicate IsDigit(c: char) {
    '0' <= c <= '9'
  }

  /** ASCII digits with single underscores between them: what int() accepts after the sign. */
  predicate IsDigitGroup(u: string) {
    && |u| > 0 && IsDigit(u[0]) && IsDigit(u[|u| - 1])
    && (forall i :: 0 <= i < |u| ==> IsDigit(u[i]) || u[i] == '_')
    && (forall i :: 0 <= i < |u| - 1 ==> !(u[i] == '_' && u[i + 1] == '_'))
  }

  /** The number the digits of `u` spell, underscores skipped. */
  function DigitsValue(u: string): nat {
    if u == [] then 0
    else if IsDigit(u[|u| - 1]) then DigitsValue(u[..|u| - 1]) * 10 + (u[|u| - 1] as int - '0' as int)
    else DigitsValue(u[..|u| - 1])
  }

  /** Python's `int(s)` in base 10; None where it raises ValueError. */
  function ParseInt(s: string): Option<int> {
    var t := Strip(s);
    if |t| > 0 && (t[0] == '+' || t[0] == '-') then
      if IsDigitGroup(t[1..]) then
        var v: int := DigitsValue(t[1..]);
        Some(if t[0] == '-' then -v else v)
      else None
    else if IsDigitGroup(t) then Some(DigitsValue(t))
    else None
  }

  function DigitChar(d: nat): (c: char)
    requires d < 10
    ensures IsDigit(c) && c as int - '0' as int == d
  {
    ('0' as int + d) as char
  }

  /** Python's `str(n)` for a non-negative int. */
  function ShowNat(n: nat): (s: string)
    ensures |s| > 0 && forall i :: 0 <= i < |s| ==> IsDigit(s[i])
  {
    if n < 10 then [DigitChar(n)] else ShowNat(n / 10) + [DigitChar(n % 10)]
  }

  /** Python's `str(i)` for an int. */
  function ShowInt(i: int): (s: string)
    ensures |s| > 0 && forall k :: 0 <= k < |s| ==> IsDigit(s[k]) || s[k] == '-'
  {
    if i < 0 then "-" + ShowNat(-i) else ShowNat(i)
  }

  lemma {:induction false} ShowNatValue(n: nat)
    ensures IsDigitGroup(ShowNat(n)) && DigitsValue(ShowNat(n)) == n
  {
    if n >= 10 {
      ShowNatValue(n / 10);
      var s := ShowNat(n);
      assert s[..|s| - 1] == ShowNat(n / 10);
    }
  }

  lemma ShowIntStripped(i: int)
    ensures Strip(ShowInt(i)) == ShowInt(i)
  {
    var s := ShowInt(i);
    assert !IsSpace(s[0]) && !IsSpace(s[|s| - 1]);
    StripStripped(s);
  }

  /** int(str(i)) == i: the decimal text of an int reads back as that int. */
  lemma ParseShow(i: int)
    ensures ParseInt(ShowInt(i)) == Some(i)
  {
    var s := ShowInt(i);
    ShowIntStripped(i);
    if i < 0 {
      ShowNatValue(-i);
      assert s[1..] == ShowNat(-i);
      assert s[0] == '-';
    } else {
      ShowNatValue(i);
      assert IsDigit(s[0]);
    }
  }

  /** The text of an int holds no whitespace and no separator the tracker splits on. */
  lemma ShowIntHasNo(i: int, c: char)
    requires c != '-' && !IsDigit(c)
    ensures c !in ShowInt(i)
  {
  }
}
