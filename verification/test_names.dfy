/** The name a test run gives its output directory: a parametrised test id
    such as `test_launch[local-2]` becomes `test_launch.local-2`. Python's
    `str.isalnum` follows the Unicode tables, so it is a parameter here. */
module TestNames {
  import opened Outcomes
  import opened Text

  /** `"".join(filter(p, s))`: the characters of `s` that `p` keeps, in order. */
  function Keep(s: string, p: char -> bool): (r: string)
    ensures |r| <= |s|
    ensures forall i :: 0 <= i < |r| ==> p(r[i])
    ensures forall c :: c in r ==> c in s
    decreases |s|
  {
    if |s| == 0 then []
    else
      var rest := Keep(s[1..], p);
      if p(s[0]) then [s[0]] + rest else rest
  }

  /** Filtering keeps a string whose every character passes unchanged. */
  lemma {:induction false} KeepAll(s: string, p: char -> bool)
    requires forall i :: 0 <= i < |s| ==> p(s[i])
    ensures Keep(s, p) == s
    decreases |s|
  {
    if |s| > 0 {
      KeepAll(s[1..], p);
      assert [s[0]] + s[1..] == s;
    }
  }

  /** Filtering twice is filtering once. */
  lemma KeepIdempotent(s: string, p: char -> bool)
    ensures Keep(Keep(s, p), p) == Keep(s, p)
  {
    KeepAll(Keep(s, p), p);
  }

  /** Filtering a concatenation filters each part. */
  lemma {:induction false} KeepConcat(a: string, b: string, p: char -> bool)
    ensures Keep(a + b, p) == Keep(a, p) + Keep(b, p)
    decreases |a|
  {
    if |a| > 0 {
      assert (a + b)[1..] == a[1..] + b;
      KeepConcat(a[1..], b, p);
    } else {
      assert a + b == b;
    }
  }

  /** The test "is not `c`". */
  function Other(c: char): char -> bool {
    x => x != c
  }

  /** `s.replace(c, "")`. */
  function RemoveChar(s: string, c: char): (r: string)
    ensures c !in r
    ensures |r| <= |s|
    ensures forall i :: 0 <= i < |s| && s[i] != c ==> s[i] in r
  {
    var r := Keep(s, Other(c));
    forall i | 0 <= i < |s| && s[i] != c ensures s[i] in r {
      KeepFinds(s, Other(c), i);
    }
    r
  }

  lemma {:induction false} KeepFinds(s: string, p: char -> bool, i: int)
    requires 0 <= i < |s| && p(s[i])
    ensures s[i] in Keep(s, p)
    decreases |s|
  {
    if i > 0 {
      KeepFinds(s[1..], p, i - 1);
    }
  }

  /** The index of the first `c` in `s`, if any. */
  function IndexOf(s: string, c: char): (r: Option<nat>)
    ensures r.None? <==> c !in s
    ensures r.Some? ==> r.value < |s| && s[r.value] == c && c !in s[..r.value]
    decreases |s|
  {
    if |s| == 0 then None
    else if s[0] == c then Some(0)
    else
      match IndexOf(s[1..], c)
      case None => None
      case Some(i) =>
        assert s[..i + 1] == [s[0]] + s[1..][..i];
        Some(i + 1)
  }

  /** `s.split(c, maxsplit=1)`: the part before the first `c` and the part
      after it, or `[s]` when `c` does not occur. */
  function SplitOnce(s: string, c: char): (parts: seq<string>)
    ensures |parts| == 1 <==> c !in s
    ensures |parts| == 1 || |parts| == 2
    ensures |parts| == 1 ==> parts[0] == s
    ensures |parts| == 2 ==> c !in parts[0] && parts[0] + [c] + parts[1] == s
  {
    match IndexOf(s, c)
    case None => [s]
    case Some(i) =>
      assert s[..i] + [c] + s[i + 1..] == s;
      [s[..i], s[i + 1..]]
  }

  /** `c.join(parts)` restores the string that was split. */
  lemma SplitOnceJoin(s: string, c: char)
    ensures Join(SplitOnce(s, c), [c]) == s
  {
    var parts := SplitOnce(s, c);
    if |parts| == 2 {
      assert parts[1..] == [parts[1]];
    }
  }

  /** The first `c` sits at `k` when `c` occurs there and not before. */
  lemma {:induction false} IndexOfFirst(s: string, c: char, k: nat)
    requires k < |s| && s[k] == c && c !in s[..k]
    ensures IndexOf(s, c) == Some(k)
    decreases |s|
  {
    if k > 0 {
      assert s[0] == s[..k][0];
      assert s[1..][..k - 1] == s[..k][1..];
      IndexOfFirst(s[1..], c, k - 1);
    }
  }

  /** Splitting `f + [c] + p` once at `c` gives `f` and `p` when `f` has no `c`. */
  lemma SplitOnceFirst(f: string, p: string, c: char)
    requires c !in f
    ensures SplitOnce(f + [c] + p, c) == [f, p]
  {
    var s := f + [c] + p;
    assert s[..|f|] == f;
    IndexOfFirst(s, c, |f|);
    assert s[|f| + 1..] == p;
  }

  /** `is_accepted_char`: alphanumeric, or one of `-`, `.`, `_`. */
  predicate Accepted(alnum: char -> bool, c: char) {
    alnum(c) || c in "-._"
  }

  /** `is_accepted_char` as the function `filter` is given. */
  function AcceptedBy(alnum: char -> bool): char -> bool {
    c => Accepted(alnum, c)
  }

  /** `_sanitize_caller_function`: drop every `]`, split once at `[`, keep
      only accepted characters right of it, and join the parts with a dot. */
  function SanitizeCallerFunction(alnum: char -> bool, name: string): (r: string)
    ensures ']' !in r
    ensures |r| <= |name|
    ensures !alnum('[') ==> '[' !in r
    ensures '[' !in name ==> r == RemoveChar(name, ']')
  {
    var cleaned := RemoveChar(name, ']');
    var parts := SplitOnce(cleaned, '[');
    assert '[' in cleaned ==> '[' in name;
    if |parts| > 1 then parts[0] + "." + Keep(parts[1], AcceptedBy(alnum))
    else parts[0]
  }

  /** Dropping `]` from `f[p]` leaves `f[p` when neither part holds a `]`. */
  lemma RemoveClosing(f: string, p: string)
    requires ']' !in f && ']' !in p
    ensures RemoveChar(f + "[" + p + "]", ']') == f + "[" + p
  {
    var notClosing := Other(']');
    KeepAll(f, notClosing);
    KeepAll(p, notClosing);
    assert Keep("[", notClosing) == "[";
    assert Keep("]", notClosing) == "";
    KeepConcat(f, "[", notClosing);
    KeepConcat(f + "[", p, notClosing);
    KeepConcat(f + "[" + p, "]", notClosing);
  }

  /** A parametrised id `f[p]` with a plain function name `f` becomes
      `f.` followed by the accepted characters of the parameter list. */
  lemma SanitizeParametrized(alnum: char -> bool, f: string, p: string)
    requires '[' !in f && ']' !in f
    requires ']' !in p
    ensures SanitizeCallerFunction(alnum, f + "[" + p + "]") == f + "." + Keep(p, AcceptedBy(alnum))
  {
    RemoveClosing(f, p);
    SplitOnceFirst(f, p, '[');
  }

  /** A name without brackets is kept as it is. */
  lemma SanitizePlainName(alnum: char -> bool, name: string)
    requires '[' !in name && ']' !in name
    ensures SanitizeCallerFunction(alnum, name) == name
  {
    KeepAll(name, Other(']'));
  }

  /** Sanitising a sanitised name changes nothing, as long as the brackets
      themselves are not alphanumeric (they are not under Python's tables). */
  lemma SanitizeIdempotent(alnum: char -> bool, name: string)
    requires !alnum('[')
    ensures SanitizeCallerFunction(alnum, SanitizeCallerFunction(alnum, name)) == SanitizeCallerFunction(alnum, name)
  {
    var r := SanitizeCallerFunction(alnum, name);
    SanitizePlainName(alnum, r);
  }
}
