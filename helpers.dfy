/** The two field parsers of Helpers.cpp: `parseDate` and `parseNumeric`. */
module Helpers {
  import opened Wrappers
  import Numbers
  import Strings

  /** `std::replace(s.begin(), s.end(), '/', ' ')` on a copy of `s`: only slashes change. */
  function ReplaceSlashes(s: string): (r: string)
    ensures |r| == |s|
    ensures forall i :: 0 <= i < |s| ==> r[i] == (if s[i] == '/' then ' ' else s[i])
  {
    seq(|s|, i requires 0 <= i < |s| => if s[i] == '/' then ' ' else s[i])
  }

  /**
   * `ss >> d >> m >> y` on a string stream over `t`. The first two reads
   * must succeed: when one fails, the stream is failed and `y` is never
   * assigned. The third stores whatever its conversion gives (see
   * `Numbers.StoreInt`), and is `None` only when nothing but white space is
   * left, so that `y` again keeps its indeterminate value.
   */
  function ReadThreeInts(t: string): Option<(int, int, int)>
  {
    match Numbers.ExtractInt(t, 0)
    case None => None
    case Some((d, i)) =>
      match Numbers.ExtractInt(t, i)
      case None => None
      case Some((m, j)) =>
        match Numbers.StoreInt(t, j)
        case None => None
        case Some(y) => Some((d, m, y))
  }

  /** `y * 10000 + m * 100 + d`, evaluated left to right in `int`, overflows at no step. */
  predicate NoOverflow(d: int, m: int, y: int)
  {
    Numbers.INT_MIN <= y * 10000 <= Numbers.INT_MAX &&
    Numbers.INT_MIN <= m * 100 <= Numbers.INT_MAX &&
    Numbers.INT_MIN <= y * 10000 + m * 100 <= Numbers.INT_MAX &&
    Numbers.INT_MIN <= y * 10000 + m * 100 + d <= Numbers.INT_MAX
  }

  /** The value `parseDate` returns for the three reads, `None` where computing it overflows. */
  function DateOf(d: int, m: int, y: int): (r: Option<int>)
    ensures r.Some? ==> Numbers.INT_MIN <= r.value <= Numbers.INT_MAX
  {
    if NoOverflow(d, m, y) then Some(y * 10000 + m * 100 + d) else None
  }

  /**
   * `parseDate`: `d/m/y` as the sortable integer `y*10000 + m*100 + d`, and
   * 0 for the empty string. `None` stands for the inputs on which the
   * source's behaviour is undefined: it reads an unassigned `int` or
   * overflows a signed multiplication or addition.
   */
  function ParseDate(s: string): (r: Option<int>)
    ensures s == [] ==> r == Some(0)
    ensures r.Some? ==> Numbers.INT_MIN <= r.value <= Numbers.INT_MAX
  {
    if s == [] then Some(0)
    else
      match ReadThreeInts(ReplaceSlashes(s))
      case None => None
      case Some((d, m, y)) => DateOf(d, m, y)
  }

  /** The characters of a digit string `s[a..b]`, one by one. */
  lemma DigitsAt(s: string, a: nat, b: nat)
    requires a <= b <= |s| && Numbers.AllDigits(s[a..b])
    ensures forall j :: a <= j < b ==> Numbers.IsDigit(s[j])
  {
    forall j | a <= j < b
      ensures Numbers.IsDigit(s[j])
    {
      assert s[a..b][j - a] == s[j];
    }
  }

  /** A run of digits at `[a, b)` of `s` reads the same after the replacement. */
  lemma ReplaceKeepsDigits(s: string, a: nat, b: nat)
    requires a <= b <= |s| && Numbers.AllDigits(s[a..b])
    ensures ReplaceSlashes(s)[a..b] == s[a..b]
  {
    DigitsAt(s, a, b);
  }

  /** One `>>` reading the digits `t[a + 1..b]` after the single space at `a`. */
  lemma ReadAfterSpace(t: string, a: nat, b: nat)
    requires a + 1 < b <= |t| && t[a] == ' '
    requires Numbers.AllDigits(t[a + 1..b])
    requires b < |t| ==> !Numbers.IsDigit(t[b])
    requires Numbers.DigitsValue(t[a + 1..b]) <= Numbers.INT_MAX
    ensures Numbers.ExtractInt(t, a) == Some((Numbers.DigitsValue(t[a + 1..b]) as int, b))
  {
    DigitsAt(t, a + 1, b);
    Numbers.ScanDigits(t, a, a + 1, b);
  }

  /** The first `>>` reading the digits `r[..a]`. */
  lemma FirstRead(r: string, a: nat)
    requires 0 < a < |r| && Numbers.AllDigits(r[..a]) && !Numbers.IsDigit(r[a])
    requires Numbers.DigitsValue(r[..a]) <= Numbers.INT_MAX
    ensures Numbers.ExtractInt(r, 0) == Some((Numbers.DigitsValue(r[..a]) as int, a))
  {
    assert r[0..a] == r[..a];
    DigitsAt(r, 0, a);
    Numbers.ScanDigits(r, 0, 0, a);
  }

  /** The three reads on digits separated by single spaces. */
  lemma ReadSpacedDigits(r: string, a: nat, b: nat)
    requires 0 < a && a + 1 < b && b + 1 < |r| && r[a] == ' ' && r[b] == ' '
    requires Numbers.AllDigits(r[..a]) && Numbers.AllDigits(r[a + 1..b]) && Numbers.AllDigits(r[b + 1..])
    requires Numbers.DigitsValue(r[..a]) <= Numbers.INT_MAX
    requires Numbers.DigitsValue(r[a + 1..b]) <= Numbers.INT_MAX
    requires Numbers.DigitsValue(r[b + 1..]) <= Numbers.INT_MAX
    ensures ReadThreeInts(r) ==
      Some((Numbers.DigitsValue(r[..a]) as int, Numbers.DigitsValue(r[a + 1..b]) as int, Numbers.DigitsValue(r[b + 1..]) as int))
  {
    FirstRead(r, a);
    ReadAfterSpace(r, a, b);
    assert r[b + 1..|r|] == r[b + 1..];
    ReadAfterSpace(r, b, |r|);
  }

  /**
   * For a date written `dd/mm/yyyy` (any positive number of digits in each
   * part, nothing after the year), `parseDate` gives
   * `yyyy*10000 + mm*100 + dd`.
   */
  lemma ParseDateOfDigits(s: string, a: nat, b: nat)
    requires 0 < a && a + 1 < b && b + 1 < |s|
    requires s[a] == '/' && s[b] == '/'
    requires Numbers.AllDigits(s[..a]) && Numbers.AllDigits(s[a + 1..b]) && Numbers.AllDigits(s[b + 1..])
    requires Numbers.DigitsValue(s[b + 1..]) * 10000 + Numbers.DigitsValue(s[a + 1..b]) * 100 + Numbers.DigitsValue(s[..a]) <= Numbers.INT_MAX
    ensures ParseDate(s) ==
      Some(Numbers.DigitsValue(s[b + 1..]) * 10000 + Numbers.DigitsValue(s[a + 1..b]) * 100 + Numbers.DigitsValue(s[..a]))
  {
    ReadOfDigits(s, a, b);
    ParseDateOfRead(s, Numbers.DigitsValue(s[..a]), Numbers.DigitsValue(s[a + 1..b]), Numbers.DigitsValue(s[b + 1..]));
  }

  /** The three reads on `dd/mm/yyyy` after the replacement give the three digit runs. */
  lemma ReadOfDigits(s: string, a: nat, b: nat)
    requires 0 < a && a + 1 < b && b + 1 < |s|
    requires s[a] == '/' && s[b] == '/'
    requires Numbers.AllDigits(s[..a]) && Numbers.AllDigits(s[a + 1..b]) && Numbers.AllDigits(s[b + 1..])
    requires Numbers.DigitsValue(s[b + 1..]) * 10000 + Numbers.DigitsValue(s[a + 1..b]) * 100 + Numbers.DigitsValue(s[..a]) <= Numbers.INT_MAX
    ensures ReadThreeInts(ReplaceSlashes(s)) ==
      Some((Numbers.DigitsValue(s[..a]) as int, Numbers.DigitsValue(s[a + 1..b]) as int, Numbers.DigitsValue(s[b + 1..]) as int))
  {
    ReplacedDigits(s, a, b);
    ReadSpacedDigits(ReplaceSlashes(s), a, b);
  }

  /** After the replacement the three digit runs are unchanged and the slashes are spaces. */
  lemma ReplacedDigits(s: string, a: nat, b: nat)
    requires 0 < a && a + 1 < b && b + 1 < |s|
    requires s[a] == '/' && s[b] == '/'
    requires Numbers.AllDigits(s[..a]) && Numbers.AllDigits(s[a + 1..b]) && Numbers.AllDigits(s[b + 1..])
    ensures var r := ReplaceSlashes(s);
      |r| == |s| && r[a] == ' ' && r[b] == ' ' &&
      r[..a] == s[..a] && r[a + 1..b] == s[a + 1..b] && r[b + 1..] == s[b + 1..]
  {
    var r := ReplaceSlashes(s);
    assert s[0..a] == s[..a];
    ReplaceKeepsDigits(s, 0, a);
    assert r[0..a] == r[..a];
    ReplaceKeepsDigits(s, a + 1, b);
    assert s[b + 1..|s|] == s[b + 1..];
    ReplaceKeepsDigits(s, b + 1, |s|);
    assert r[b + 1..|s|] == r[b + 1..];
  }

  lemma ParseDateOfRead(s: string, d: int, m: int, y: int)
    requires s != [] && ReadThreeInts(ReplaceSlashes(s)) == Some((d, m, y))
    requires 0 <= d && 0 <= m && 0 <= y && y * 10000 + m * 100 + d <= Numbers.INT_MAX
    ensures ParseDate(s) == Some(y * 10000 + m * 100 + d)
  {
    assert NoOverflow(d, m, y);
  }

  /**
   * A date whose year part does not start with a number, such as
   * `05/03/x`: the third read stores 0 and fails, so `parseDate` gives
   * `mm*100 + dd`. This holds when the character after the second slash is
   * neither white space, a slash, a sign nor a digit.
   */
  lemma ParseDateWithoutYear(s: string, a: nat, b: nat)
    requires 0 < a && a + 1 < b && b + 1 < |s|
    requires s[a] == '/' && s[b] == '/'
    requires Numbers.AllDigits(s[..a]) && Numbers.AllDigits(s[a + 1..b])
    requires var c := s[b + 1]; !Strings.IsSpace(c) && c != '/' && c != '+' && c != '-' && !Numbers.IsDigit(c)
    requires Numbers.DigitsValue(s[a + 1..b]) * 100 + Numbers.DigitsValue(s[..a]) <= Numbers.INT_MAX
    ensures ParseDate(s) == Some(Numbers.DigitsValue(s[a + 1..b]) * 100 + Numbers.DigitsValue(s[..a]))
  {
    ReadWithoutYear(s, a, b);
    ParseDateOfReadWithoutYear(s, Numbers.DigitsValue(s[..a]), Numbers.DigitsValue(s[a + 1..b]));
  }

  lemma ParseDateOfReadWithoutYear(s: string, d: int, m: int)
    requires s != [] && ReadThreeInts(ReplaceSlashes(s)) == Some((d, m, 0))
    requires 0 <= d && 0 <= m && m * 100 + d <= Numbers.INT_MAX
    ensures ParseDate(s) == Some(m * 100 + d)
  {
    assert NoOverflow(d, m, 0);
  }

  /** The three reads on `dd/mm/` followed by a character that cannot start a number: the year is stored as 0. */
  lemma ReadWithoutYear(s: string, a: nat, b: nat)
    requires 0 < a && a + 1 < b && b + 1 < |s|
    requires s[a] == '/' && s[b] == '/'
    requires Numbers.AllDigits(s[..a]) && Numbers.AllDigits(s[a + 1..b])
    requires var c := s[b + 1]; !Strings.IsSpace(c) && c != '/' && c != '+' && c != '-' && !Numbers.IsDigit(c)
    requires Numbers.DigitsValue(s[a + 1..b]) * 100 + Numbers.DigitsValue(s[..a]) <= Numbers.INT_MAX
    ensures ReadThreeInts(ReplaceSlashes(s)) == Some((Numbers.DigitsValue(s[..a]) as int, Numbers.DigitsValue(s[a + 1..b]) as int, 0))
  {
    var r := ReplaceSlashes(s);
    ReplacedPrefix(s, a, b);
    FirstRead(r, a);
    ReadAfterSpace(r, a, b);
    NoNumberAfterSpace(r, b);
  }

  /** After the replacement the day and month digits are unchanged and the slashes are spaces. */
  lemma ReplacedPrefix(s: string, a: nat, b: nat)
    requires 0 < a && a + 1 < b && b < |s|
    requires s[a] == '/' && s[b] == '/'
    requires Numbers.AllDigits(s[..a]) && Numbers.AllDigits(s[a + 1..b])
    ensures var r := ReplaceSlashes(s);
      |r| == |s| && r[a] == ' ' && r[b] == ' ' && r[..a] == s[..a] && r[a + 1..b] == s[a + 1..b]
  {
    var r := ReplaceSlashes(s);
    assert s[0..a] == s[..a];
    ReplaceKeepsDigits(s, 0, a);
    assert r[0..a] == r[..a];
    ReplaceKeepsDigits(s, a + 1, b);
  }

  /** The third read on a single space followed by a character that cannot start a number stores 0. */
  lemma NoNumberAfterSpace(r: string, b: nat)
    requires b + 1 < |r| && r[b] == ' '
    requires var c := r[b + 1]; !Strings.IsSpace(c) && c != '+' && c != '-' && !Numbers.IsDigit(c)
    ensures Numbers.StoreInt(r, b) == Some(0)
  {
    Numbers.SpaceEndAt(r, b, b + 1);
    Numbers.DigitEndAt(r, b + 1, b + 1);
  }

  /**
   * Only white space after the second slash, as in `05/03/`: the third read
   * finds nothing to convert, `y` is never assigned, and the behaviour is
   * undefined.
   */
  lemma ParseDateWithoutYearUndefined(s: string, a: nat, b: nat)
    requires 0 < a && a + 1 < b && b < |s|
    requires s[a] == '/' && s[b] == '/'
    requires Numbers.AllDigits(s[..a]) && Numbers.AllDigits(s[a + 1..b])
    requires forall j :: b < j < |s| ==> Strings.IsSpace(s[j])
    requires Numbers.DigitsValue(s[a + 1..b]) * 100 + Numbers.DigitsValue(s[..a]) <= Numbers.INT_MAX
    ensures ParseDate(s).None?
  {
    ReadMissingYear(s, a, b);
  }

  lemma ReadMissingYear(s: string, a: nat, b: nat)
    requires 0 < a && a + 1 < b && b < |s|
    requires s[a] == '/' && s[b] == '/'
    requires Numbers.AllDigits(s[..a]) && Numbers.AllDigits(s[a + 1..b])
    requires forall j :: b < j < |s| ==> Strings.IsSpace(s[j])
    requires Numbers.DigitsValue(s[a + 1..b]) * 100 + Numbers.DigitsValue(s[..a]) <= Numbers.INT_MAX
    ensures ReadThreeInts(ReplaceSlashes(s)).None?
  {
    var r := ReplaceSlashes(s);
    ReplacedPrefix(s, a, b);
    FirstRead(r, a);
    ReadAfterSpace(r, a, b);
    forall j | b <= j < |r|
      ensures Strings.IsSpace(r[j])
    {
    }
    Numbers.SpaceEndAt(r, b, |r|);
  }

  /** The example from the date column: `parseDate("05/03/2024") == 20240305`. */
  lemma ParseDateExample()
    ensures ParseDate("05/03/2024") == Some(20240305)
  {
    var s := "05/03/2024";
    ExampleSlices(s);
    ExampleValues();
    ParseDateOfDigits(s, 2, 5);
  }

  /** A year that is not a number: `parseDate("05/03/x") == 305`. */
  lemma ParseDateWithoutYearExample()
    ensures ParseDate("05/03/x") == Some(305)
  {
    var s := "05/03/x";
    assert s[2] == '/' && s[5] == '/' && s[..2] == "05" && s[3..5] == "03" && s[6] == 'x';
    ExampleValues();
    ParseDateWithoutYear(s, 2, 5);
  }

  lemma ExampleSlices(s: string)
    requires s == "05/03/2024"
    ensures s[2] == '/' && s[5] == '/' && s[..2] == "05" && s[3..5] == "03" && s[6..] == "2024"
  {
  }

  lemma ExampleValues()
    ensures Numbers.AllDigits("05") && Numbers.AllDigits("03") && Numbers.AllDigits("2024")
    ensures Numbers.DigitsValue("05") == 5 && Numbers.DigitsValue("03") == 3 && Numbers.DigitsValue("2024") == 2024
  {
    assert "05"[..1] == "0" && "03"[..1] == "0";
    assert "2024"[..3] == "202" && "202"[..2] == "20" && "20"[..1] == "2";
  }

  /** Every character of `s` is C `isspace` (true of the empty string). */
  predicate AllSpace(s: string)
  {
    forall i :: 0 <= i < |s| ==> Strings.IsSpace(s[i])
  }

  /**
   * `parseNumeric`: 0 for the empty string, for white space only, and
   * wherever the decimal conversion `decimal` (the source's `std::stod`)
   * fails; otherwise the converted value.
   */
  function ParseNumeric(s: string, decimal: string -> Option<real>): (r: real)
    ensures AllSpace(s) ==> r == 0.0
    ensures decimal(s).None? ==> r == 0.0
    ensures !AllSpace(s) && decimal(s).Some? ==> r == decimal(s).value
  {
    if s == [] then 0.0
    else if AllSpace(s) then 0.0
    else match decimal(s)
      case None => 0.0
      case Some(v) => v
  }
}
