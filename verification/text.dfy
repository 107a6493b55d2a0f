/** String helpers that stand in for Python built-ins used by the core:
    `str(int)` and f-string rendering of integers, `sep.join(items)`,
    `str.isspace`, `str.strip()` and the token count of `str.split()`. */
module Text {

  // ---------------------------------------------------------------------------
  // Decimal rendering of integers, as `str(i)` and `f"{i}"` do
  // ---------------------------------------------------------------------------

  predicate IsDigit(c: char) {
    '0' <= c <= '9'
  }

  predicate AllDigits(s: string) {
    forall k :: 0 <= k < |s| ==> IsDigit(s[k])
  }

  function DigitChar(d: nat): (c: char)
    requires d < 10
    ensures IsDigit(c)
  {
    "0123456789"[d]
  }

  function DigitValue(c: char): (d: nat)
    requires IsDigit(c)
    ensures d < 10
  {
    (c as int) - ('0' as int)
  }

  /** Renders a natural number in base 10 with no leading zeros. */
  function NatToString(n: nat): (s: string)
    ensures 1 <= |s|
    ensures AllDigits(s)
    ensures |s| > 1 ==> s[0] != '0'
    decreases n
  {
    if n < 10 then [DigitChar(n)] else NatToString(n / 10) + [DigitChar(n % 10)]
  }

  /** Reads a string of decimal digits back as a number; the inverse of `NatToString`. */
  function ParseNat(s: string): nat
    requires AllDigits(s)
    decreases |s|
  {
    if |s| == 0 then 0 else ParseNat(s[..|s| - 1]) * 10 + DigitValue(s[|s| - 1])
  }

  lemma {:induction false} ParseNatToString(n: nat)
    ensures ParseNat(NatToString(n)) == n
    decreases n
  {
    var s := NatToString(n);
    if n < 10 {
      assert s == [DigitChar(n)];
      assert s[..0] == [];
    } else {
      ParseNatToString(n / 10);
      assert s[..|s| - 1] == NatToString(n / 10);
      assert s[|s| - 1] == DigitChar(n % 10);
    }
  }

  /** Distinct numbers render as distinct strings. */
  lemma NatToStringInjective(a: nat, b: nat)
    ensures NatToString(a) == NatToString(b) <==> a == b
  {
    if NatToString(a) == NatToString(b) {
      ParseNatToString(a);
      ParseNatToString(b);
    }
  }

  /** Python's `str(i)` for any integer. */
  function IntToString(i: int): (s: string)
    ensures 1 <= |s|
    ensures i >= 0 ==> s == NatToString(i)
    ensures i < 0 ==> s[0] == '-' && s[1..] == NatToString(-i)
  {
    if i < 0 then "-" + NatToString(-i) else NatToString(i)
  }

  /** Distinct integers render as distinct strings: a rendering without a
      sign is all digits, so it never collides with a negative one. */
  lemma IntToStringInjective(a: int, b: int)
    ensures IntToString(a) == IntToString(b) <==> a == b
  {
    if IntToString(a) == IntToString(b) {
      if a >= 0 && b >= 0 {
        NatToStringInjective(a, b);
      } else if a < 0 && b < 0 {
        NatToStringInjective(-a, -b);
      }
    }
  }

  // ---------------------------------------------------------------------------
  // Joining and searching
  // ---------------------------------------------------------------------------

  /** Python's `sep.join(items)`. */
  function Join(items: seq<string>, sep: string): string
    decreases |items|
  {
    if |items| == 0 then ""
    else if |items| == 1 then items[0]
    else items[0] + sep + Join(items[1..], sep)
  }

  /** `t` occurs in `s` starting at index `i`. */
  predicate InfixAt(s: string, t: string, i: int) {
    0 <= i && i + |t| <= |s| && s[i..i + |t|] == t
  }

  /** Python's `t in s` for strings. */
  predicate Contains(s: string, t: string) {
    exists i :: 0 <= i <= |s| && InfixAt(s, t, i)
  }

  lemma ContainsAfterPrefix(p: string, s: string, t: string)
    requires Contains(s, t)
    ensures Contains(p + s, t)
  {
    var i :| 0 <= i <= |s| && InfixAt(s, t, i);
    assert (p + s)[|p| + i..|p| + i + |t|] == s[i..i + |t|];
    assert InfixAt(p + s, t, |p| + i);
  }

  lemma ContainsBeforeSuffix(s: string, q: string, t: string)
    requires Contains(s, t)
    ensures Contains(s + q, t)
  {
    var i :| 0 <= i <= |s| && InfixAt(s, t, i);
    assert (s + q)[i..i + |t|] == s[i..i + |t|];
    assert InfixAt(s + q, t, i);
  }

  /** Every item of a join occurs in the joined string. */
  lemma {:induction false} JoinContainsEach(items: seq<string>, sep: string, k: int)
    requires 0 <= k < |items|
    ensures Contains(Join(items, sep), items[k])
    decreases |items|
  {
    if |items| == 1 {
      assert Join(items, sep)[0..|items[0]|] == items[0];
      assert InfixAt(Join(items, sep), items[k], 0);
    } else if k == 0 {
      var j := Join(items, sep);
      assert j == items[0] + (sep + Join(items[1..], sep));
      assert j[0..|items[0]|] == items[0];
      assert InfixAt(j, items[k], 0);
    } else {
      JoinContainsEach(items[1..], sep, k - 1);
      assert items[1..][k - 1] == items[k];
      ContainsAfterPrefix(items[0] + sep, Join(items[1..], sep), items[k]);
      assert Join(items, sep) == (items[0] + sep) + Join(items[1..], sep);
    }
  }

  // ---------------------------------------------------------------------------
  // Whitespace: `str.isspace`, `str.strip()`, `len(str.split())`
  // ---------------------------------------------------------------------------

  /** The characters Python's `str.isspace` accepts. */
  predicate IsSpace(c: char) {
    var x := c as int;
    || (0x09 <= x <= 0x0D)
    || (0x1C <= x <= 0x20)
    || x == 0x85 || x == 0xA0 || x == 0x1680
    || (0x2000 <= x <= 0x200A)
    || x == 0x2028 || x == 0x2029 || x == 0x202F || x == 0x205F || x == 0x3000
  }

  /** Every character of `s` between `lo` and `hi` is whitespace. */
  predicate SpacesBetween(s: string, lo: int, hi: int)
    requires 0 <= lo <= hi <= |s|
  {
    forall k :: lo <= k < hi ==> IsSpace(s[k])
  }

  /** The index of the first non-whitespace character at or after `i`, or `|s|`. */
  function SkipSpaces(s: string, i: nat): (n: nat)
    requires i <= |s|
    ensures i <= n <= |s|
    ensures SpacesBetween(s, i, n)
    ensures n == |s| || !IsSpace(s[n])
    decreases |s| - i
  {
    if i < |s| && IsSpace(s[i]) then SkipSpaces(s, i + 1) else i
  }

  /** The end of `s[lo..hi]` once its trailing whitespace is dropped. */
  function TrimEnd(s: string, lo: nat, hi: nat): (n: nat)
    requires lo <= hi <= |s|
    ensures lo <= n <= hi
    ensures SpacesBetween(s, n, hi)
    ensures n == lo || !IsSpace(s[n - 1])
    decreases hi
  {
    if lo < hi && IsSpace(s[hi - 1]) then TrimEnd(s, lo, hi - 1) else hi
  }

  /** `r` is `s[i..j]` with only whitespace before `i` and from `j` on. */
  predicate StrippedAt(s: string, r: string, i: int, j: int) {
    0 <= i <= j <= |s| && r == s[i..j] && SpacesBetween(s, 0, i) && SpacesBetween(s, j, |s|)
  }

  /** Python's `s.strip()`: `s` with surrounding whitespace removed, and nothing else. */
  function Strip(s: string): (r: string)
    ensures exists i, j :: StrippedAt(s, r, i, j)
    ensures |r| > 0 ==> !IsSpace(r[0]) && !IsSpace(r[|r| - 1])
  {
    var a := SkipSpaces(s, 0);
    var b := TrimEnd(s, a, |s|);
    assert StrippedAt(s, s[a..b], a, b);
    s[a..b]
  }

  /** Which characters of `s` are whitespace. Token counting depends on
      nothing else, so it is stated on this mask. */
  function SpaceMask(s: string): (m: seq<bool>)
    ensures |m| == |s|
    ensures forall i :: 0 <= i < |s| ==> m[i] == IsSpace(s[i])
  {
    seq(|s|, i requires 0 <= i < |s| => IsSpace(s[i]))
  }

  /** True when a token starts at index `i` (`m` marks the whitespace). */
  predicate TokenStart(m: seq<bool>, i: int)
    requires 0 <= i < |m|
  {
    !m[i] && (i == 0 || m[i - 1])
  }

  /** The number of tokens that start before index `n`. */
  function TokensBefore(m: seq<bool>, n: nat): nat
    requires n <= |m|
    decreases n
  {
    if n == 0 then 0
    else TokensBefore(m, n - 1) + (if TokenStart(m, n - 1) then 1 else 0)
  }

  /** A non-whitespace character occurs before index `n`. */
  predicate VisibleBefore(m: seq<bool>, n: nat)
    requires n <= |m|
  {
    exists i :: 0 <= i < n && !m[i]
  }

  /** Whitespace with a non-whitespace character on each side occurs before index `n`. */
  predicate InnerSpaceBefore(m: seq<bool>, n: nat)
    requires n <= |m|
  {
    exists i, j, k :: 0 <= i < j < k < n && !m[i] && m[j] && !m[k]
  }

  /** `len(s.split())`: the number of maximal runs of non-whitespace characters. */
  function TokenCount(s: string): nat {
    TokensBefore(SpaceMask(s), |s|)
  }

  /** `s` holds a non-whitespace character. */
  predicate HasVisible(s: string) {
    VisibleBefore(SpaceMask(s), |s|)
  }

  /** `s` holds whitespace with a non-whitespace character on each side of it. */
  predicate HasInnerSpace(s: string) {
    InnerSpaceBefore(SpaceMask(s), |s|)
  }

  lemma {:induction false} TokensBeforePositive(m: seq<bool>, n: nat)
    requires n <= |m|
    ensures TokensBefore(m, n) >= 1 <==> VisibleBefore(m, n)
    decreases n
  {
    if n > 0 {
      TokensBeforePositive(m, n - 1);
      if VisibleBefore(m, n - 1) {
        var i :| 0 <= i < n - 1 && !m[i];
        assert 0 <= i < n && !m[i];
      } else if !m[n - 1] {
        if n > 1 {
          assert !(0 <= n - 2 < n - 1 && !m[n - 2]);
        }
        assert TokenStart(m, n - 1);
      } else {
        assert !VisibleBefore(m, n) by {
          forall i | 0 <= i < n ensures m[i] {
            if i < n - 1 {
              assert !(0 <= i < n - 1 && !m[i]);
            }
          }
        }
      }
    }
  }

  /** A token starting at index `n - 1` completes inner whitespace exactly
      when something visible comes before it. */
  lemma InnerSpaceAtTokenStart(m: seq<bool>, n: nat)
    requires 0 < n <= |m| && TokenStart(m, n - 1)
    ensures InnerSpaceBefore(m, n) <==> VisibleBefore(m, n - 1)
  {
    if VisibleBefore(m, n - 1) {
      var i :| 0 <= i < n - 1 && !m[i];
      assert i != n - 2;
      assert 0 <= i < n - 2 < n - 1 < n && !m[i] && m[n - 2] && !m[n - 1];
    }
    if InnerSpaceBefore(m, n) {
      var i, j, k :| 0 <= i < j < k < n && !m[i] && m[j] && !m[k];
      assert 0 <= i < n - 1 && !m[i];
    }
  }

  /** When no token starts at index `n - 1`, inner whitespace before `n`
      lies already before `n - 1`. */
  lemma InnerSpaceWithoutTokenStart(m: seq<bool>, n: nat)
    requires 0 < n <= |m| && !TokenStart(m, n - 1)
    ensures InnerSpaceBefore(m, n) ==> InnerSpaceBefore(m, n - 1)
  {
    if InnerSpaceBefore(m, n) {
      var i, j, k :| 0 <= i < j < k < n && !m[i] && m[j] && !m[k];
      // The character at `n - 1` continues a token, so the one before it is visible too.
      var k' := if k < n - 1 then k else n - 2;
      assert 0 <= i < j < k' < n - 1 && !m[i] && m[j] && !m[k'];
    }
  }

  lemma {:induction false} TokensBeforeMany(m: seq<bool>, n: nat)
    requires n <= |m|
    ensures TokensBefore(m, n) >= 2 <==> InnerSpaceBefore(m, n)
    decreases n
  {
    if n > 0 {
      TokensBeforeMany(m, n - 1);
      TokensBeforePositive(m, n - 1);
      if InnerSpaceBefore(m, n - 1) {
        var i, j, k :| 0 <= i < j < k < n - 1 && !m[i] && m[j] && !m[k];
        assert 0 <= i < j < k < n && !m[i] && m[j] && !m[k];
      } else if TokenStart(m, n - 1) {
        InnerSpaceAtTokenStart(m, n);
      } else {
        InnerSpaceWithoutTokenStart(m, n);
      }
    }
  }

  /** `s.split()` yields a token exactly when `s` holds a non-whitespace character. */
  lemma TokenCountPositive(s: string)
    ensures TokenCount(s) >= 1 <==> HasVisible(s)
  {
    TokensBeforePositive(SpaceMask(s), |s|);
  }

  /** `s.split()` yields more than one token exactly when some whitespace
      separates two non-whitespace characters. */
  lemma TokenCountMany(s: string)
    ensures TokenCount(s) >= 2 <==> HasInnerSpace(s)
  {
    TokensBeforeMany(SpaceMask(s), |s|);
  }
}
