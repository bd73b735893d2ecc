/** Character classes, trimming and the ordering of `std::string`. */
module Strings {

  /** The four characters the encoders strip: `" \t\r\n"`. */
  predicate IsTrimSpace(c: char)
  {
    c == ' ' || c == '\t' || c == '\r' || c == '\n'
  }

  /** C `isspace` in the "C" locale: the trim set plus vertical tab and form feed. */
  predicate IsSpace(c: char)
  {
    IsTrimSpace(c) || c == 11 as char || c == 12 as char
  }

  /** Every character of `s` is one the encoders trim (the empty string included). */
  predicate Blank(s: string)
  {
    forall i :: 0 <= i < |s| ==> IsTrimSpace(s[i])
  }

  /** The index of the first non-trim character at or after `i`, `|s|` if there is none (`find_first_not_of`). */
  function FirstKept(s: string, i: nat): (k: nat)
    requires i <= |s|
    ensures i <= k <= |s|
    ensures forall j :: i <= j < k ==> IsTrimSpace(s[j])
    ensures k < |s| ==> !IsTrimSpace(s[k])
    decreases |s| - i
  {
    if i < |s| && IsTrimSpace(s[i]) then FirstKept(s, i + 1) else i
  }

  /**
   * One past the last non-trim character below `j` and at or after `lo`, `lo`
   * if there is none (`find_last_not_of`, searching down from `j`).
   */
  function LastKept(s: string, lo: nat, j: nat): (k: nat)
    requires lo <= j <= |s|
    ensures lo <= k <= j
    ensures forall m :: k <= m < j ==> IsTrimSpace(s[m])
    ensures k > lo ==> !IsTrimSpace(s[k - 1])
    ensures lo < j && !IsTrimSpace(s[lo]) ==> k > lo
  {
    if j > lo && IsTrimSpace(s[j - 1]) then LastKept(s, lo, j - 1) else j
  }

  /**
   * The trimmed form the encoders store: the part of `s` from its first to its
   * last non-trim character, empty exactly when `s` is blank (`TrimSpec`).
   */
  function Trim(s: string): (t: string)
    ensures t == [] <==> Blank(s)
  {
    var a := FirstKept(s, 0);
    s[a..LastKept(s, a, |s|)]
  }

  /**
   * The trimmed form is the slice of `s` between a blank prefix and a blank
   * suffix, and starts and ends with a character the encoders keep.
   */
  lemma TrimSpec(s: string)
    ensures exists a :: (0 <= a <= |s| - |Trim(s)| && Trim(s) == s[a..a + |Trim(s)|] &&
                         Blank(s[..a]) && Blank(s[a + |Trim(s)|..]))
    ensures Trim(s) != [] ==> !IsTrimSpace(Trim(s)[0]) && !IsTrimSpace(Trim(s)[|Trim(s)| - 1])
  {
    var a := FirstKept(s, 0);
    var b := LastKept(s, a, |s|);
    assert Trim(s) == s[a..b];
    assert Blank(s[..a]);
    assert Blank(s[b..]);
  }

  /** A string with no trim character at either end is its own trimmed form. */
  lemma TrimOfTrimmed(s: string)
    requires s != [] ==> !IsTrimSpace(s[0]) && !IsTrimSpace(s[|s| - 1])
    ensures Trim(s) == s
  {
    if s != [] {
      assert FirstKept(s, 0) == 0;
      assert LastKept(s, 0, |s|) == |s|;
    }
  }

  /** Trimming is idempotent. */
  lemma TrimIdempotent(s: string)
    ensures Trim(Trim(s)) == Trim(s)
  {
    TrimSpec(s);
    TrimOfTrimmed(Trim(s));
  }

  /** Lexicographic order on strings, as `std::string`'s `operator<`. */
  predicate LexLess(a: string, b: string)
  {
    if a == [] then b != []
    else b != [] && (a[0] < b[0] || (a[0] == b[0] && LexLess(a[1..], b[1..])))
  }

  lemma {:induction false} LexAsymmetric(a: string, b: string)
    ensures LexLess(a, b) ==> !LexLess(b, a)
  {
    if a != [] && b != [] && a[0] == b[0] {
      LexAsymmetric(a[1..], b[1..]);
    }
  }

  lemma {:induction false} LexTransitive(a: string, b: string, c: string)
    requires LexLess(a, b) && LexLess(b, c)
    ensures LexLess(a, c)
  {
    if a != [] && a[0] == b[0] && b[0] == c[0] {
      LexTransitive(a[1..], b[1..], c[1..]);
    }
  }

  lemma {:induction false} LexTotal(a: string, b: string)
    ensures a == b || LexLess(a, b) || LexLess(b, a)
  {
    if a != [] && b != [] && a[0] == b[0] {
      LexTotal(a[1..], b[1..]);
      if a[1..] == b[1..] {
        assert a == [a[0]] + a[1..] && b == [b[0]] + b[1..];
      }
    }
  }

  /** A key no other key of `keys` precedes: what `std::map::begin()` points at. */
  predicate IsLeast(k: string, keys: set<string>)
  {
    k in keys && forall o :: o in keys ==> o == k || LexLess(k, o)
  }

  lemma {:induction false} LeastExists(keys: set<string>)
    requires keys != {}
    ensures exists k :: IsLeast(k, keys)
    decreases |keys|
  {
    var x :| x in keys;
    if keys == {x} {
      assert IsLeast(x, keys);
    } else {
      var rest := keys - {x};
      LeastExists(rest);
      var m :| IsLeast(m, rest);
      LexTotal(x, m);
      if LexLess(x, m) {
        forall o | o in keys
          ensures o == x || LexLess(x, o)
        {
          if o != x && o != m {
            LexTransitive(x, m, o);
          }
        }
        assert IsLeast(x, keys);
      } else {
        assert IsLeast(m, keys);
      }
    }
  }

  lemma LeastUnique(keys: set<string>)
    ensures forall k1, k2 :: IsLeast(k1, keys) && IsLeast(k2, keys) ==> k1 == k2
  {
    forall k1, k2 | IsLeast(k1, keys) && IsLeast(k2, keys)
      ensures k1 == k2
    {
      LexAsymmetric(k1, k2);
    }
  }

  /** The least key of a non-empty set of strings. */
  function LeastKey(keys: set<string>): (k: string)
    requires keys != {}
    ensures IsLeast(k, keys)
  {
    LeastExists(keys);
    LeastUnique(keys);
    var k :| IsLeast(k, keys);
    k
  }
}
