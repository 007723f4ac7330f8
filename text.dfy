/**
 * The string work the bot does with Python built-ins: picking out digits,
 * `int()` on a decimal string, `str.split`, removing characters or a
 * literal (`str.replace(x, '')`), ASCII case folding and substring search
 * (SQLite's `LIKE '%term%'`). Strings are `seq<char>`.
 */
module Text {
  import opened Wrappers

  predicate IsDigit(c: char) {
    '0' <= c <= '9'
  }

  predicate AllDigits(s: string) {
    forall i :: 0 <= i < |s| ==> IsDigit(s[i])
  }

  function DigitValue(c: char): nat
    requires IsDigit(c)
  {
    c as int - '0' as int
  }

  function DigitChar(d: nat): (c: char)
    requires d < 10
    ensures IsDigit(c) && DigitValue(c) == d
  {
    ('0' as int + d) as char
  }

  // ---------------------------------------------------------------------
  // ''.join(filter(str.isdigit, s))

  /** The digits of `s`, in order, with everything else dropped. */
  function DigitsOnly(s: string): (r: string)
    ensures AllDigits(r) && |r| <= |s|
  {
    if s == [] then []
    else
      assert s == [s[0]] + s[1..];
      (if IsDigit(s[0]) then [s[0]] else []) + DigitsOnly(s[1..])
  }

  /** Every digit of `s` is kept, as often as it occurs, and nothing else. */
  lemma {:induction false} DigitsOnlyCounts(s: string)
    ensures forall c :: IsDigit(c) ==> multiset(DigitsOnly(s))[c] == multiset(s)[c]
    ensures forall c :: !IsDigit(c) ==> multiset(DigitsOnly(s))[c] == 0
  {
    if s != [] {
      DigitsOnlyCounts(s[1..]);
      assert s == [s[0]] + s[1..];
    }
  }

  /** Picking digits commutes with concatenation: the digits keep their order. */
  lemma {:induction false} DigitsOnlyAppend(a: string, b: string)
    ensures DigitsOnly(a + b) == DigitsOnly(a) + DigitsOnly(b)
  {
    if a == [] {
      assert a + b == b;
    } else {
      var head := if IsDigit(a[0]) then [a[0]] else [];
      assert (a + b)[0] == a[0] && (a + b)[1..] == a[1..] + b;
      calc {
        DigitsOnly(a + b);
        head + DigitsOnly(a[1..] + b);
        { DigitsOnlyAppend(a[1..], b); }
        head + (DigitsOnly(a[1..]) + DigitsOnly(b));
        (head + DigitsOnly(a[1..])) + DigitsOnly(b);
        DigitsOnly(a) + DigitsOnly(b);
      }
    }
  }

  /** A string of digits is left as it is. */
  lemma {:induction false} DigitsOnlyOfDigits(s: string)
    requires AllDigits(s)
    ensures DigitsOnly(s) == s
  {
    if s != [] {
      DigitsOnlyOfDigits(s[1..]);
    }
  }

  // ---------------------------------------------------------------------
  // int(s), restricted to ASCII digits with an optional sign

  /** The value of a string of decimal digits (most significant first). */
  function ParseNat(s: string): nat
    requires AllDigits(s)
  {
    if s == [] then 0 else ParseNat(s[..|s| - 1]) * 10 + DigitValue(s[|s| - 1])
  }

  /** Some digit of `s` is not zero. */
  predicate HasNonZeroDigit(s: string) {
    exists i :: 0 <= i < |s| && '1' <= s[i] <= '9'
  }

  /** A digit string denotes a positive number exactly when some digit is not zero. */
  lemma {:induction false} ParseNatPositive(s: string)
    requires AllDigits(s)
    ensures ParseNat(s) > 0 <==> HasNonZeroDigit(s)
  {
    if s != [] {
      var init := s[..|s| - 1];
      var last := s[|s| - 1];
      ParseNatPositive(init);
      if HasNonZeroDigit(init) {
        var i :| 0 <= i < |init| && '1' <= init[i] <= '9';
        assert s[i] == init[i];
      }
      if HasNonZeroDigit(s) && !('1' <= last <= '9') {
        var i :| 0 <= i < |s| && '1' <= s[i] <= '9';
        assert i < |init| && init[i] == s[i];
      }
    }
  }

  /** `10^n`. */
  function Pow10(n: nat): (r: nat)
    ensures r >= 1
  {
    if n == 0 then 1 else 10 * Pow10(n - 1)
  }

  /**
   * Python's `int(s)` on ASCII input: one or more digits, optionally after a
   * `+` or `-` sign. Anything else is the `ValueError` case, here `None`.
   */
  function ParseInt(s: string): Option<int> {
    if |s| > 0 && AllDigits(s) then Some(ParseNat(s))
    else if |s| > 1 && (s[0] == '+' || s[0] == '-') && AllDigits(s[1..]) then
      var n: int := ParseNat(s[1..]);
      Some(if s[0] == '-' then -n else n)
    else None
  }

  /** The decimal digits of `n`, without leading zeros (Python's `str(n)`). */
  function ShowNat(n: nat): (r: string)
    ensures |r| > 0 && AllDigits(r)
  {
    if n < 10 then [DigitChar(n)] else ShowNat(n / 10) + [DigitChar(n % 10)]
  }

  /** Python's `str(i)` for an integer. */
  function ShowInt(i: int): (r: string)
    ensures |r| > 0 && r[0] != '+'
    ensures forall k :: 0 < k < |r| ==> IsDigit(r[k])
  {
    if i < 0 then "-" + ShowNat(-i) else ShowNat(i)
  }

  lemma {:induction false} ParseShowNat(n: nat)
    ensures ParseNat(ShowNat(n)) == n
  {
    if n >= 10 {
      var s := ShowNat(n);
      assert s[..|s| - 1] == ShowNat(n / 10);
      ParseShowNat(n / 10);
    }
  }

  /** Parsing undoes printing: `int(str(i)) == i`. */
  lemma ParseShowInt(i: int)
    ensures ParseInt(ShowInt(i)) == Some(i)
  {
    if i < 0 {
      var s := ShowInt(i);
      assert s[1..] == ShowNat(-i);
      ParseShowNat(-i);
    } else {
      ParseShowNat(i);
    }
  }

  // ---------------------------------------------------------------------
  // str.split(sep) and its inverse sep.join(parts)

  function Join(parts: seq<string>, sep: char): string {
    if |parts| == 0 then []
    else if |parts| == 1 then parts[0]
    else parts[0] + [sep] + Join(parts[1..], sep)
  }

  lemma JoinEmptyHead(rest: seq<string>, sep: char)
    requires |rest| > 0
    ensures Join([[]] + rest, sep) == [sep] + Join(rest, sep)
  {
    assert ([[]] + rest)[1..] == rest;
  }

  lemma JoinExtendHead(c: char, rest: seq<string>, sep: char)
    requires |rest| > 0
    ensures Join([[c] + rest[0]] + rest[1..], sep) == [c] + Join(rest, sep)
  {
    if |rest| > 1 {
      assert ([[c] + rest[0]] + rest[1..])[1..] == rest[1..];
    }
  }

  /** Python's `s.split(sep)` for a one-character separator: the pieces between separators. */
  function Split(s: string, sep: char): (r: seq<string>)
    ensures |r| > 0
  {
    if s == [] then [[]]
    else
      var rest := Split(s[1..], sep);
      if s[0] == sep then [[]] + rest
      else [[s[0]] + rest[0]] + rest[1..]
  }

  /**
   * There is one more piece than there are separators, no piece holds the
   * separator, and joining the pieces gives back `s`.
   */
  lemma {:induction false} SplitJoin(s: string, sep: char)
    ensures |Split(s, sep)| == multiset(s)[sep] + 1
    ensures forall i :: 0 <= i < |Split(s, sep)| ==> sep !in Split(s, sep)[i]
    ensures Join(Split(s, sep), sep) == s
  {
    if s != [] {
      var rest := Split(s[1..], sep);
      SplitJoin(s[1..], sep);
      assert s == [s[0]] + s[1..];
      if s[0] == sep {
        JoinEmptyHead(rest, sep);
      } else {
        JoinExtendHead(s[0], rest, sep);
        var r := Split(s, sep);
        forall i | 0 <= i < |r| ensures sep !in r[i] {
          if i > 0 {
            assert r[i] == rest[i];
          }
        }
      }
    }
  }

  /** A leading separator closes an empty first piece. */
  lemma SplitAtSeparator(t: string, sep: char)
    ensures Split([sep] + t, sep) == [[]] + Split(t, sep)
  {
    assert ([sep] + t)[1..] == t;
  }

  /** Any other leading character joins the first piece. */
  lemma SplitAtOther(c: char, t: string, sep: char)
    requires c != sep
    ensures Split([c] + t, sep) == [[c] + Split(t, sep)[0]] + Split(t, sep)[1..]
  {
    assert ([c] + t)[1..] == t;
  }

  /** A string without the separator is one piece. */
  lemma {:induction false} SplitWhole(b: string, sep: char)
    requires sep !in b
    ensures Split(b, sep) == [b]
  {
    if b != [] {
      assert b == [b[0]] + b[1..];
      SplitWhole(b[1..], sep);
      SplitAtOther(b[0], b[1..], sep);
    }
  }

  /** A string with one separator splits into the text before it and the text after it. */
  lemma {:induction false} SplitTwo(a: string, b: string, sep: char)
    requires sep !in a && sep !in b
    ensures Split(a + [sep] + b, sep) == [a, b]
  {
    if a == [] {
      SplitTwoBase(a, b, sep);
    } else {
      SplitTwo(a[1..], b, sep);
      SplitTwoStep(a, b, sep);
    }
  }

  lemma SplitTwoBase(a: string, b: string, sep: char)
    requires a == [] && sep !in b
    ensures Split(a + [sep] + b, sep) == [a, b]
  {
    assert a + [sep] + b == [sep] + b;
    SplitAtSeparator(b, sep);
    SplitWhole(b, sep);
    assert [[]] + [b] == [a, b];
  }

  lemma SplitTwoStep(a: string, b: string, sep: char)
    requires a != [] && a[0] != sep && Split(a[1..] + [sep] + b, sep) == [a[1..], b]
    ensures Split(a + [sep] + b, sep) == [a, b]
  {
    var t := a[1..] + [sep] + b;
    assert a == [a[0]] + a[1..];
    assert a + [sep] + b == [a[0]] + t by {
      assert a + [sep] + b == [a[0]] + a[1..] + [sep] + b;
    }
    SplitAtOther(a[0], t, sep);
    var r := Split(t, sep);
    assert r[0] == a[1..] && r[1..] == [b];
    assert [[a[0]] + r[0]] + r[1..] == [a, b];
  }

  // ---------------------------------------------------------------------
  // s.replace(c, '') for a few characters, and s.replace(literal, '')

  /** `s` with every character in `drop` removed and the rest kept in order. */
  function Without(s: string, drop: set<char>): (r: string)
    ensures |r| <= |s|
    ensures forall i :: 0 <= i < |r| ==> r[i] !in drop
  {
    if s == [] then []
    else
      assert s == [s[0]] + s[1..];
      (if s[0] in drop then [] else [s[0]]) + Without(s[1..], drop)
  }

  /** Every character outside `drop` is kept as often as it occurs; those in `drop` are gone. */
  lemma {:induction false} WithoutCounts(s: string, drop: set<char>)
    ensures forall c :: c !in drop ==> multiset(Without(s, drop))[c] == multiset(s)[c]
    ensures forall c :: c in drop ==> multiset(Without(s, drop))[c] == 0
  {
    if s != [] {
      WithoutCounts(s[1..], drop);
      assert s == [s[0]] + s[1..];
    }
  }

  /** Removing characters commutes with concatenation. */
  lemma {:induction false} WithoutAppend(a: string, b: string, drop: set<char>)
    ensures Without(a + b, drop) == Without(a, drop) + Without(b, drop)
  {
    if a == [] {
      assert a + b == b;
    } else {
      assert (a + b)[0] == a[0] && (a + b)[1..] == a[1..] + b;
      WithoutAppend(a[1..], b, drop);
    }
  }

  /** Removing characters that are not there changes nothing. */
  lemma {:induction false} WithoutNothing(s: string, drop: set<char>)
    requires forall i :: 0 <= i < |s| ==> s[i] !in drop
    ensures Without(s, drop) == s
  {
    if s != [] {
      WithoutNothing(s[1..], drop);
    }
  }

  predicate StartsWith(s: string, p: string) {
    |p| <= |s| && s[..|p|] == p
  }

  /**
   * Python's `s.replace(p, '')`: scanning left to right, every occurrence of
   * the non-empty literal `p` that does not overlap an earlier one is removed.
   */
  function RemoveAll(s: string, p: string): string
    requires |p| > 0
    decreases |s|
  {
    if s == [] then []
    else if StartsWith(s, p) then RemoveAll(s[|p|..], p)
    else [s[0]] + RemoveAll(s[1..], p)
  }

  /** A string without the first character of `p` holds no occurrence of `p`. */
  lemma {:induction false} RemoveAllAbsent(s: string, p: string)
    requires |p| > 0 && p[0] !in s
    ensures RemoveAll(s, p) == s
  {
    if s != [] {
      assert s[0] != p[0];
      assert s == [s[0]] + s[1..];
      RemoveAllAbsent(s[1..], p);
    }
  }

  /** Stripping a prefix that does not recur in the suffix gives back the suffix. */
  lemma RemovePrefix(p: string, t: string)
    requires |p| > 0 && p[0] !in t
    ensures RemoveAll(p + t, p) == t
  {
    assert StartsWith(p + t, p);
    assert (p + t)[|p|..] == t;
    RemoveAllAbsent(t, p);
  }

  /** Two strings that differ at index `i` cannot both be prefixes of one string. */
  lemma NotPrefix(s: string, p: string, q: string, i: nat)
    requires StartsWith(s, p) && i < |p| && i < |q| && p[i] != q[i]
    ensures !StartsWith(s, q)
  {
    assert s[i] == p[i];
  }

  // ---------------------------------------------------------------------
  // SQLite LIKE '%term%': ASCII case-insensitive substring test

  function LowerChar(c: char): char {
    if 'A' <= c <= 'Z' then (c as int + 32) as char else c
  }

  function Lower(s: string): (r: string)
    ensures |r| == |s|
  {
    seq(|s|, i requires 0 <= i < |s| => LowerChar(s[i]))
  }

  /** `t` occurs in `s` as a contiguous piece. */
  predicate Contains(s: string, t: string) {
    exists i :: 0 <= i <= |s| - |t| && StartsWith(s[i..], t)
  }

  /** `LIKE '%t%'`: a substring match that ignores ASCII letter case. */
  predicate LikeContains(s: string, t: string) {
    Contains(Lower(s), Lower(t))
  }
}
