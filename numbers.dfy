/**
 * The integer conversions of the C++ library the source relies on:
 * `std::stoi`/`std::stol` (a `strtol` scan plus a range check, failing by
 * throwing), `stream >> int` (the same scan, reporting where it stopped), and
 * the decimal text `operator<<` writes for an unsigned count.
 */
module Numbers {
  import opened Wrappers
  import Strings

  const INT_MIN: int := -0x8000_0000
  const INT_MAX: int := 0x7FFF_FFFF
  const LONG_MIN: int := -0x8000_0000_0000_0000
  const LONG_MAX: int := 0x7FFF_FFFF_FFFF_FFFF

  predicate IsDigit(c: char)
  {
    '0' <= c <= '9'
  }

  predicate AllDigits(s: string)
  {
    forall i :: 0 <= i < |s| ==> IsDigit(s[i])
  }

  /** The value of a string of decimal digits, most significant first. */
  function DigitsValue(s: string): nat
    requires AllDigits(s)
  {
    if s == [] then 0 else DigitsValue(s[..|s| - 1]) * 10 + (s[|s| - 1] as int - '0' as int)
  }

  function DigitChar(v: nat): (c: char)
    requires v < 10
    ensures IsDigit(c) && c as int - '0' as int == v
  {
    ('0' as int + v) as char
  }

  /** The decimal text of `n`, without leading zeros. */
  function NatToString(n: nat): (s: string)
    ensures s != [] && AllDigits(s)
    ensures DigitsValue(s) == n
  {
    if n < 10 then [DigitChar(n)] else NatToString(n / 10) + [DigitChar(n % 10)]
  }

  /** The end of the run of C `isspace` characters starting at `i`. */
  function SpaceEnd(s: string, i: nat): (k: nat)
    requires i <= |s|
    ensures i <= k <= |s|
    decreases |s| - i
  {
    if i < |s| && Strings.IsSpace(s[i]) then SpaceEnd(s, i + 1) else i
  }

  /** The end of the run of decimal digits starting at `i`. */
  function DigitEnd(s: string, i: nat): (k: nat)
    requires i <= |s|
    ensures i <= k <= |s|
    decreases |s| - i
  {
    if i < |s| && IsDigit(s[i]) then DigitEnd(s, i + 1) else i
  }

  /** Everything `DigitEnd` passes over is a digit. */
  lemma {:induction false} DigitEndDigits(s: string, i: nat)
    requires i <= |s|
    ensures forall j :: i <= j < DigitEnd(s, i) ==> IsDigit(s[j])
    decreases |s| - i
  {
    if i < |s| && IsDigit(s[i]) {
      DigitEndDigits(s, i + 1);
    }
  }

  /** Every character of `s` in `[i, k)` is a digit: the slice is a digit string. */
  lemma DigitsSlice(s: string, i: nat, k: nat)
    requires i <= k <= |s|
    requires forall j :: i <= j < k ==> IsDigit(s[j])
    ensures AllDigits(s[i..k])
  {
    forall j | 0 <= j < k - i
      ensures IsDigit(s[i..k][j])
    {
      assert s[i..k][j] == s[i + j];
    }
  }

  /**
   * The base-10 `strtol` scan of `s` from position `i`: white space, an
   * optional sign, then the longest run of digits, which must not be empty.
   * Gives the value and the position just past the last digit.
   */
  function ScanFrom(s: string, i: nat): (r: Option<(int, nat)>)
    requires i <= |s|
    ensures r.Some? ==> i < r.value.1 <= |s|
  {
    var w := SpaceEnd(s, i);
    var signed := w < |s| && (s[w] == '+' || s[w] == '-');
    var start := if signed then w + 1 else w;
    var e := DigitEnd(s, start);
    if e == start then None
    else
      DigitEndDigits(s, start);
      DigitsSlice(s, start, e);
      var v: int := DigitsValue(s[start..e]);
      Some((if signed && s[w] == '-' then -v else v, e))
  }

  /** `std::stoi` (`lo`, `hi` the `int` range) or `std::stol` (the `long` range); `None` where it throws. */
  function StringToInteger(s: string, lo: int, hi: int): (r: Option<int>)
    ensures r.Some? ==> lo <= r.value <= hi
  {
    match ScanFrom(s, 0)
    case None => None
    case Some((v, _)) => if lo <= v <= hi then Some(v) else None
  }

  function Stoi(s: string): (r: Option<int>)
    ensures r.Some? ==> INT_MIN <= r.value <= INT_MAX
  {
    StringToInteger(s, INT_MIN, INT_MAX)
  }

  function Stol(s: string): (r: Option<int>)
    ensures r.Some? ==> LONG_MIN <= r.value <= LONG_MAX
  {
    StringToInteger(s, LONG_MIN, LONG_MAX)
  }

  /**
   * `stream >> x` for an `int x`, the stream standing at position `i` of
   * `s`: the value read and the position after it, or `None` when the
   * stream fails.
   */
  function ExtractInt(s: string, i: nat): (r: Option<(int, nat)>)
    requires i <= |s|
    ensures r.Some? ==> INT_MIN <= r.value.0 <= INT_MAX && i < r.value.1 <= |s|
  {
    match ScanFrom(s, i)
    case None => None
    case Some((v, e)) => if INT_MIN <= v <= INT_MAX then Some((v, e)) else None
  }

  /**
   * The value `stream >> x` stores into an `int x` when the stream, standing
   * at position `i` of `s`, is good beforehand. `None` when only white
   * space is left: the sentry fails and `x` is not assigned. Otherwise the
   * conversion stores 0 when no number can be read and the value clamped to
   * the `int` range when it does not fit (both of which also fail the
   * stream), and the value read otherwise.
   */
  function StoreInt(s: string, i: nat): (r: Option<int>)
    requires i <= |s|
    ensures r.Some? ==> INT_MIN <= r.value <= INT_MAX
    ensures ExtractInt(s, i).Some? ==> r == Some(ExtractInt(s, i).value.0)
    ensures r.None? <==> SpaceEnd(s, i) == |s|
  {
    if SpaceEnd(s, i) == |s| then None
    else match ScanFrom(s, i)
      case None => Some(0)
      case Some((v, _)) => Some(if v < INT_MIN then INT_MIN else if v > INT_MAX then INT_MAX else v)
  }

  /** `SpaceEnd` stops at the first character that is not white space. */
  lemma {:induction false} SpaceEndAt(s: string, i: nat, w: nat)
    requires i <= w <= |s|
    requires forall j :: i <= j < w ==> Strings.IsSpace(s[j])
    requires w < |s| ==> !Strings.IsSpace(s[w])
    ensures SpaceEnd(s, i) == w
    decreases w - i
  {
    if i < w {
      SpaceEndAt(s, i + 1, w);
    }
  }

  /** `DigitEnd` stops at the first character that is not a digit. */
  lemma {:induction false} DigitEndAt(s: string, i: nat, e: nat)
    requires i <= e <= |s|
    requires forall j :: i <= j < e ==> IsDigit(s[j])
    requires e < |s| ==> !IsDigit(s[e])
    ensures DigitEnd(s, i) == e
    decreases e - i
  {
    if i < e {
      DigitEndAt(s, i + 1, e);
    }
  }

  /**
   * White space on `[i, w)`, digits on `[w, e)`, then the end or a
   * character that is not a digit: the scan from `i` reads exactly those
   * digits.
   */
  lemma ScanDigits(s: string, i: nat, w: nat, e: nat)
    requires i <= w < e <= |s|
    requires forall j :: i <= j < w ==> Strings.IsSpace(s[j])
    requires forall j :: w <= j < e ==> IsDigit(s[j])
    requires e < |s| ==> !IsDigit(s[e])
    ensures AllDigits(s[w..e])
    ensures ScanFrom(s, i) == Some((DigitsValue(s[w..e]), e))
  {
    SpaceEndAt(s, i, w);
    DigitEndAt(s, w, e);
    DigitsSlice(s, w, e);
  }

  /** `std::stoi` reads back what `operator<<` wrote, for every count in `int` range. */
  lemma StoiOfNatToString(n: nat)
    requires n <= INT_MAX
    ensures Stoi(NatToString(n)) == Some(n)
  {
    var s := NatToString(n);
    forall j | 0 <= j < |s|
      ensures IsDigit(s[j])
    {
    }
    ScanDigits(s, 0, 0, |s|);
    assert s[0..|s|] == s;
  }
}
