/** Python's `random.sample(population, k)`: `k` elements drawn from the
    population without replacement. The random source is a parameter: draw
    `i` chooses, modulo the size of what is left, which remaining element
    comes next. */
module Sampling {

  /** `pool` with the element at index `k` taken out. */
  function Remove<T>(pool: seq<T>, k: nat): (r: seq<T>)
    requires k < |pool|
    ensures |r| == |pool| - 1
  {
    pool[..k] + pool[k + 1..]
  }

  /** Taking an element out removes exactly one occurrence of it. */
  lemma RemoveMultiset<T>(pool: seq<T>, k: nat)
    requires k < |pool|
    ensures multiset(Remove(pool, k)) + multiset{pool[k]} == multiset(pool)
  {
    assert pool == pool[..k] + [pool[k]] + pool[k + 1..];
  }

  /** `d` modulo `m`, the position a draw selects among `m` remaining elements. */
  function Reduce(d: nat, m: nat): (k: nat)
    requires m > 0
    ensures k < m
    ensures d < m ==> k == d
    decreases d
  {
    if d < m then d else Reduce(d - m, m)
  }

  /** Draws `n` elements from `pool` without replacement, steered by `draws`
      (a missing draw counts as 0). */
  function Sample<T>(pool: seq<T>, n: nat, draws: seq<nat>): (r: seq<T>)
    requires n <= |pool|
    ensures |r| == n
    decreases n
  {
    if n == 0 then []
    else
      var k := Reduce(if |draws| > 0 then draws[0] else 0, |pool|);
      [pool[k]] + Sample(Remove(pool, k), n - 1, if |draws| > 0 then draws[1..] else [])
  }

  /** Sampling draws without replacement: each pool position is used at most once. */
  lemma {:induction false} SampleWithoutReplacement<T>(pool: seq<T>, n: nat, draws: seq<nat>)
    requires n <= |pool|
    ensures multiset(Sample(pool, n, draws)) <= multiset(pool)
    decreases n
  {
    if n > 0 {
      var k := Reduce(if |draws| > 0 then draws[0] else 0, |pool|);
      var rest := Remove(pool, k);
      var tail := if |draws| > 0 then draws[1..] else [];
      var later := Sample(rest, n - 1, tail);
      SampleWithoutReplacement(rest, n - 1, tail);
      RemoveMultiset(pool, k);
      assert Sample(pool, n, draws) == [pool[k]] + later;
      assert multiset(Sample(pool, n, draws)) == multiset{pool[k]} + multiset(later);
    }
  }

  /** Every element of a sample comes from the pool. */
  lemma SampleFromPool<T>(pool: seq<T>, n: nat, draws: seq<nat>, x: T)
    requires n <= |pool|
    ensures x in Sample(pool, n, draws) ==> x in pool
  {
    var r := Sample(pool, n, draws);
    SampleWithoutReplacement(pool, n, draws);
    if x in r {
      assert x in multiset(r);
    }
  }

  ghost predicate NoDuplicates<T>(s: seq<T>) {
    forall i, j :: 0 <= i < j < |s| ==> s[i] != s[j]
  }

  lemma MultisetCountOfDistinct<T>(s: seq<T>, x: T)
    requires NoDuplicates(s)
    ensures multiset(s)[x] <= 1
  {
    if |s| > 0 {
      var t := s[1..];
      assert s == [s[0]] + t;
      assert NoDuplicates(t) by {
        forall i, j | 0 <= i < j < |t| ensures t[i] != t[j] {
          assert t[i] == s[i + 1] && t[j] == s[j + 1];
        }
      }
      MultisetCountOfDistinct(t, x);
      if x == s[0] {
        assert forall i :: 0 <= i < |t| ==> t[i] != x by {
          forall i | 0 <= i < |t| ensures t[i] != x {
            assert t[i] == s[i + 1];
          }
        }
        assert x !in t;
      }
    }
  }

  /** A sequence that is a sub-multiset of a duplicate-free sequence has no
      duplicates either. */
  lemma {:induction false} SubMultisetOfDistinct<T>(r: seq<T>, pool: seq<T>)
    requires multiset(r) <= multiset(pool)
    requires NoDuplicates(pool)
    ensures NoDuplicates(r)
  {
    forall i, j | 0 <= i < j < |r| ensures r[i] != r[j] {
      if r[i] == r[j] {
        var x := r[i];
        assert r == r[..i] + [x] + r[i + 1..j] + [x] + r[j + 1..];
        assert multiset(r)[x] >= 2;
        MultisetCountOfDistinct(pool, x);
        assert false;
      }
    }
  }

  /** Sampling a duplicate-free pool yields distinct elements. */
  lemma SampleDistinct<T>(pool: seq<T>, n: nat, draws: seq<nat>)
    requires n <= |pool|
    requires NoDuplicates(pool)
    ensures NoDuplicates(Sample(pool, n, draws))
  {
    SampleWithoutReplacement(pool, n, draws);
    SubMultisetOfDistinct(Sample(pool, n, draws), pool);
  }

  lemma {:induction false} SubMultisetLength<T>(r: seq<T>, pool: seq<T>)
    requires multiset(r) <= multiset(pool)
    ensures |r| <= |pool|
    decreases |r|
  {
    if |r| > 0 {
      assert r[0] in multiset(r);
      var k :| 0 <= k < |pool| && pool[k] == r[0];
      SubMultisetAfterRemoval(r, pool, k);
      SubMultisetLength(r[1..], Remove(pool, k));
    }
  }

  /** One step of sampling: a first draw below the pool size picks the
      element at that index. */
  lemma SampleStep<T>(pool: seq<T>, n: nat, k: nat, tail: seq<nat>)
    requires 0 < n <= |pool| && k < |pool|
    ensures Sample(pool, n, [k] + tail) == [pool[k]] + Sample(Remove(pool, k), n - 1, tail)
  {
    assert ([k] + tail)[1..] == tail;
  }

  lemma SubMultisetAfterRemoval<T>(r: seq<T>, pool: seq<T>, k: nat)
    requires 0 < |r| && k < |pool| && pool[k] == r[0]
    requires multiset(r) <= multiset(pool)
    ensures multiset(r[1..]) <= multiset(Remove(pool, k))
  {
    var x := r[0];
    var rest := Remove(pool, k);
    RemoveMultiset(pool, k);
    assert r == [x] + r[1..];
    assert multiset(r[1..]) + multiset{x} == multiset(r);
    forall y ensures multiset(r[1..])[y] <= multiset(rest)[y] {
      assert multiset(r)[y] == multiset(r[1..])[y] + multiset{x}[y];
      assert multiset(pool)[y] == multiset(rest)[y] + multiset{x}[y];
    }
  }

  /** Prefixing a draw that selects `x` extends a sample of `r1` to one of `[x] + r1`. */
  lemma SampleCons<T>(pool: seq<T>, x: T, r1: seq<T>, k: nat, tail: seq<nat>)
    requires |r1| < |pool| && k < |pool| && pool[k] == x
    requires Sample(Remove(pool, k), |r1|, tail) == r1
    ensures Sample(pool, |r1| + 1, [k] + tail) == [x] + r1
  {
    SampleStep(pool, |r1| + 1, k, tail);
  }

  /** Where the first element of `r` sits in the pool. */
  lemma PositionOfFirst<T>(r: seq<T>, pool: seq<T>) returns (k: nat)
    requires 0 < |r| && multiset(r) <= multiset(pool)
    ensures k < |pool| && pool[k] == r[0]
    ensures multiset(r[1..]) <= multiset(Remove(pool, k))
  {
    assert r[0] in multiset(r);
    k :| 0 <= k < |pool| && pool[k] == r[0];
    SubMultisetAfterRemoval(r, pool, k);
  }

  /** The draws that make `Sample` produce `r`. */
  lemma {:induction false} SampleWitness<T>(pool: seq<T>, r: seq<T>) returns (draws: seq<nat>)
    requires multiset(r) <= multiset(pool)
    requires |r| <= |pool|
    ensures Sample(pool, |r|, draws) == r
    decreases |r|
  {
    if |r| == 0 {
      draws := [];
    } else {
      var k := PositionOfFirst(r, pool);
      var tail := SampleWitness(Remove(pool, k), r[1..]);
      draws := [k] + tail;
      SampleCons(pool, r[0], r[1..], k, tail);
      assert [r[0]] + r[1..] == r;
    }
  }

  /** The model leaves no ordered draw without replacement out: every
      sequence of `|r|` elements that fits into the pool is a possible sample. */
  lemma SampleComplete<T>(pool: seq<T>, r: seq<T>)
    requires multiset(r) <= multiset(pool)
    ensures |r| <= |pool|
    ensures exists draws: seq<nat> :: Sample(pool, |r|, draws) == r
  {
    SubMultisetLength(r, pool);
    var draws := SampleWitness(pool, r);
  }
}
