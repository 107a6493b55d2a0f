/** Generation strategies: the permutation generators that expand one
    parameter space, the combination generators that pair two lists of
    permutations, the two registries that name them, strategy resolution and
    the sandbox around user-supplied strategies. */
module Strategies {
  import opened Outcomes
  import opened Text
  import opened ParamData
  import opened Registry
  import opened Sampling

  /** A parameter space: parameter name to candidate values, in dictionary order. */
  type Space<V> = seq<(string, seq<V>)>

  /** One permutation: each parameter name with one chosen value (the dict
      `dict(zip(params, permutation))`), in the space's key order. */
  type Assignment<V> = seq<(string, V)>

  // ===========================================================================
  // The cartesian product, `create_all_permutations`
  // ===========================================================================

  /** Number of permutations of a space: the product of its value-list lengths. */
  function Product<V>(space: Space<V>): nat
    decreases |space|
  {
    if |space| == 0 then 1 else |space[0].1| * Product(space[1..])
  }

  /** `a` picks, for every parameter in order, one of that parameter's values. */
  ghost predicate IsChoice<V>(space: Space<V>, a: Assignment<V>) {
    && |a| == |space|
    && forall j :: 0 <= j < |space| ==> a[j].0 == space[j].0 && a[j].1 in space[j].1
  }

  /** An index vector: one value position per parameter. */
  predicate ValidIndex<V>(space: Space<V>, idx: seq<nat>) {
    && |idx| == |space|
    && forall j :: 0 <= j < |space| ==> idx[j] < |space[j].1|
  }

  /** The assignment an index vector selects. */
  function ChoiceAt<V>(space: Space<V>, idx: seq<nat>): (a: Assignment<V>)
    requires ValidIndex(space, idx)
    ensures |a| == |space|
  {
    seq(|space|, j requires 0 <= j < |space| => (space[j].0, space[j].1[idx[j]]))
  }

  /** Position of an index vector in product order: a mixed-radix number whose
      most significant digit belongs to the first parameter. */
  function Rank<V>(space: Space<V>, idx: seq<nat>): nat
    requires ValidIndex(space, idx)
    decreases |space|
  {
    if |space| == 0 then 0 else idx[0] * Product(space[1..]) + Rank(space[1..], idx[1..])
  }

  /** Every permutation of `rest`, each with `(key, v)` put in front. */
  function Prepend<V>(key: string, v: V, rest: seq<Assignment<V>>): (r: seq<Assignment<V>>)
    ensures |r| == |rest|
    ensures forall j :: 0 <= j < |rest| ==> r[j] == [(key, v)] + rest[j]
  {
    seq(|rest|, j requires 0 <= j < |rest| => [(key, v)] + rest[j])
  }

  /** The product of one more parameter with the permutations of the others:
      its values form the outer loop. */
  function Extend<V>(key: string, vals: seq<V>, rest: seq<Assignment<V>>): (r: seq<Assignment<V>>)
    ensures |r| == |vals| * |rest|
    decreases |vals|
  {
    if |vals| == 0 then [] else Prepend(key, vals[0], rest) + Extend(key, vals[1..], rest)
  }

  /** Row `i`, column `j` of an `n`-by-`m` grid laid out row by row. */
  lemma MixedIndex(i: int, j: int, n: int, m: int)
    requires 0 <= i < n && 0 <= j < m
    ensures i * m + j < n * m
    ensures i > 0 ==> i * m + j == m + ((i - 1) * m + j)
  {
    assert (i + 1) * m <= n * m by {
      assert i + 1 <= n;
    }
    assert (i - 1) * m == i * m - m;
  }

  lemma {:induction false} ExtendAt<V>(key: string, vals: seq<V>, rest: seq<Assignment<V>>, i: int, j: int)
    requires 0 <= i < |vals| && 0 <= j < |rest|
    ensures i * |rest| + j < |vals| * |rest|
    ensures Extend(key, vals, rest)[i * |rest| + j] == [(key, vals[i])] + rest[j]
    decreases i
  {
    MixedIndex(i, j, |vals|, |rest|);
    if i > 0 {
      ExtendAt(key, vals[1..], rest, i - 1, j);
    }
  }

  lemma {:induction false} ExtendMember<V>(key: string, vals: seq<V>, rest: seq<Assignment<V>>, x: Assignment<V>)
    ensures x in Extend(key, vals, rest)
        <==> |x| >= 1 && x[0].0 == key && x[0].1 in vals && x[1..] in rest
    decreases |vals|
  {
    if |vals| > 0 {
      ExtendMember(key, vals[1..], rest, x);
      var p := Prepend(key, vals[0], rest);
      if x in p {
        var j :| 0 <= j < |rest| && p[j] == x;
        assert x[1..] == rest[j];
      }
      if |x| >= 1 && x[0] == (key, vals[0]) && x[1..] in rest {
        var j :| 0 <= j < |rest| && rest[j] == x[1..];
        assert p[j] == x;
      }
      assert vals == [vals[0]] + vals[1..];
    }
  }

  /** `create_all_permutations`: `itertools.product` over the value lists,
      each tuple zipped back with the parameter names. The budget argument is
      ignored by the source and therefore not taken. */
  function AllPermutations<V>(space: Space<V>): (r: seq<Assignment<V>>)
    ensures |r| == Product(space)
    ensures |space| == 0 ==> r == [[]]
    decreases |space|
  {
    if |space| == 0 then [[]] else Extend(space[0].0, space[0].1, AllPermutations(space[1..]))
  }

  lemma IsChoiceCons<V>(space: Space<V>, a: Assignment<V>)
    requires |space| > 0
    ensures IsChoice(space, a)
        <==> |a| >= 1 && a[0].0 == space[0].0 && a[0].1 in space[0].1 && IsChoice(space[1..], a[1..])
  {
    if |a| >= 1 && a[0].0 == space[0].0 && a[0].1 in space[0].1 && IsChoice(space[1..], a[1..]) {
      forall j | 0 <= j < |space| ensures a[j].0 == space[j].0 && a[j].1 in space[j].1 {
        if j > 0 {
          assert a[1..][j - 1] == a[j] && space[1..][j - 1] == space[j];
        }
      }
    }
    if IsChoice(space, a) {
      forall j | 0 <= j < |space| - 1 ensures a[1..][j].0 == space[1..][j].0 && a[1..][j].1 in space[1..][j].1 {
        assert a[1..][j] == a[j + 1] && space[1..][j] == space[j + 1];
      }
    }
  }

  /** The product holds exactly the assignments that pick one value per parameter. */
  lemma {:induction false} AllPermutationsMembers<V>(space: Space<V>, a: Assignment<V>)
    ensures a in AllPermutations(space) <==> IsChoice(space, a)
    decreases |space|
  {
    if |space| == 0 {
      assert a in AllPermutations(space) <==> a == [];
    } else {
      ExtendMember(space[0].0, space[0].1, AllPermutations(space[1..]), a);
      IsChoiceCons(space, a);
      if |a| >= 1 {
        AllPermutationsMembers(space[1..], a[1..]);
      }
    }
  }

  /** Product order with the first parameter outermost: the assignment an index
      vector selects sits at that vector's mixed-radix rank. */
  lemma {:induction false} AllPermutationsAt<V>(space: Space<V>, idx: seq<nat>)
    requires ValidIndex(space, idx)
    ensures Rank(space, idx) < Product(space)
    ensures AllPermutations(space)[Rank(space, idx)] == ChoiceAt(space, idx)
    decreases |space|
  {
    if |space| == 0 {
      assert ChoiceAt(space, idx) == [];
    } else {
      var rest := space[1..];
      assert ValidIndex(rest, idx[1..]) by {
        forall j | 0 <= j < |rest| ensures idx[1..][j] < |rest[j].1| {
          assert idx[1..][j] == idx[j + 1] && rest[j] == space[j + 1];
        }
      }
      AllPermutationsAt(rest, idx[1..]);
      var inner := AllPermutations(rest);
      ExtendAt(space[0].0, space[0].1, inner, idx[0], Rank(rest, idx[1..]));
      var c := ChoiceAt(space, idx);
      var c' := ChoiceAt(rest, idx[1..]);
      assert c == [(space[0].0, space[0].1[idx[0]])] + c' by {
        forall j | 1 <= j < |space| ensures c[j] == c'[j - 1] {
          assert rest[j - 1] == space[j] && idx[1..][j - 1] == idx[j];
        }
      }
    }
  }

  // ===========================================================================
  // Positional stepping, `step_values`
  // ===========================================================================

  /** Length of the shortest value list. */
  function MinLength<V>(space: Space<V>): (m: nat)
    requires |space| > 0
    ensures forall j :: 0 <= j < |space| ==> m <= |space[j].1|
    ensures exists j :: 0 <= j < |space| && m == |space[j].1|
    decreases |space|
  {
    if |space| == 1 then |space[0].1|
    else
      var m := MinLength(space[1..]);
      assert forall j :: 1 <= j < |space| ==> space[j] == space[1..][j - 1];
      var j :| 0 <= j < |space[1..]| && m == |space[1..][j].1|;
      assert m == |space[j + 1].1|;
      if |space[0].1| <= m then |space[0].1| else m
  }

  /** How many tuples `zip(*params.values())` yields: none for an empty space,
      else the shortest value-list length. */
  function StepCount<V>(space: Space<V>): nat {
    if |space| == 0 then 0 else MinLength(space)
  }

  /** The index vector that takes position `i` of every value list. */
  function Diagonal(n: nat, i: nat): (idx: seq<nat>)
    ensures |idx| == n
    ensures forall j :: 0 <= j < n ==> idx[j] == i
  {
    seq(n, _ => i)
  }

  /** `step_values`: the `i`-th result takes the `i`-th value of every parameter,
      stopping at the shortest list. The budget argument is ignored by the source. */
  function StepValues<V>(space: Space<V>): (r: seq<Assignment<V>>)
    ensures |r| == StepCount(space)
    ensures forall i :: 0 <= i < |r| ==> ValidIndex(space, Diagonal(|space|, i))
  {
    var n := StepCount(space);
    seq(n, i requires 0 <= i < n => ChoiceAt(space, Diagonal(|space|, i)))
  }

  /** Result `i` of `step_values` holds, for parameter `j`, its `i`-th value. */
  lemma StepValuesAt<V>(space: Space<V>, i: int, j: int)
    requires 0 <= i < |StepValues(space)| && 0 <= j < |space|
    ensures |StepValues(space)[i]| == |space|
    ensures i < |space[j].1| && StepValues(space)[i][j] == (space[j].0, space[j].1[i])
  {
  }

  /** Each stepped permutation is also one of the full product: the one on
      the diagonal, whose index vector is constant. */
  lemma StepValuesOnDiagonal<V>(space: Space<V>, i: int)
    requires 0 <= i < |StepValues(space)|
    ensures Rank(space, Diagonal(|space|, i)) < Product(space)
    ensures StepValues(space)[i] == AllPermutations(space)[Rank(space, Diagonal(|space|, i))]
    ensures StepValues(space)[i] in AllPermutations(space)
  {
    AllPermutationsAt(space, Diagonal(|space|, i));
  }

  // ===========================================================================
  // Sampling, `random_permutations`
  // ===========================================================================

  /** `random_permutations`: the full product, unless `0 < n < total`, in which
      case `n` of its elements drawn without replacement. `draws` is the random source. */
  function RandomPermutations<V(==)>(space: Space<V>, n: int, draws: seq<nat>): (r: seq<Assignment<V>>)
    ensures 0 < n < Product(space) ==> |r| == n && multiset(r) <= multiset(AllPermutations(space))
    ensures !(0 < n < Product(space)) ==> r == AllPermutations(space)
  {
    var all := AllPermutations(space);
    if 0 < n < |all| then
      SampleWithoutReplacement(all, n, draws);
      Sample(all, n, draws)
    else all
  }

  /** Every draw of `n` distinct positions of the product is a possible result. */
  lemma RandomPermutationsReachAll<V>(space: Space<V>, n: int, r: seq<Assignment<V>>)
    requires 0 < n < Product(space)
    requires |r| == n && multiset(r) <= multiset(AllPermutations(space))
    ensures exists draws: seq<nat> :: RandomPermutations(space, n, draws) == r
  {
    SampleComplete(AllPermutations(space), r);
    var draws: seq<nat> :| Sample(AllPermutations(space), |r|, draws) == r;
    assert RandomPermutations(space, n, draws) == r;
  }

  // ===========================================================================
  // Combination generators
  // ===========================================================================

  /** `list(itertools.product(xs, ys))`: `xs` is the outer loop. */
  function PairProduct<X, Y>(xs: seq<X>, ys: seq<Y>): (r: seq<(X, Y)>)
    ensures |r| == |xs| * |ys|
    decreases |xs|
  {
    if |xs| == 0 then []
    else seq(|ys|, j requires 0 <= j < |ys| => (xs[0], ys[j])) + PairProduct(xs[1..], ys)
  }

  lemma {:induction false} PairProductAt<X, Y>(xs: seq<X>, ys: seq<Y>, i: int, j: int)
    requires 0 <= i < |xs| && 0 <= j < |ys|
    ensures i * |ys| + j < |xs| * |ys|
    ensures PairProduct(xs, ys)[i * |ys| + j] == (xs[i], ys[j])
    decreases i
  {
    MixedIndex(i, j, |xs|, |ys|);
    if i > 0 {
      PairProductAt(xs[1..], ys, i - 1, j);
    }
  }

  lemma {:induction false} PairProductMembers<X, Y>(xs: seq<X>, ys: seq<Y>, p: (X, Y))
    ensures p in PairProduct(xs, ys) <==> p.0 in xs && p.1 in ys
    decreases |xs|
  {
    if |xs| > 0 {
      PairProductMembers(xs[1..], ys, p);
      assert xs == [xs[0]] + xs[1..];
      var head := seq(|ys|, j requires 0 <= j < |ys| => (xs[0], ys[j]));
      if p.0 == xs[0] && p.1 in ys {
        var j :| 0 <= j < |ys| && ys[j] == p.1;
        assert head[j] == p;
      }
    }
  }

  /** `zip(xs, ys)`: pairs by position, stopping at the shorter list. */
  function Zip<X, Y>(xs: seq<X>, ys: seq<Y>): (r: seq<(X, Y)>)
    ensures |r| == if |xs| <= |ys| then |xs| else |ys|
    ensures forall i :: 0 <= i < |r| ==> r[i] == (xs[i], ys[i])
    decreases |xs|
  {
    if |xs| == 0 || |ys| == 0 then []
    else
      var tail := Zip(xs[1..], ys[1..]);
      assert forall i :: 1 <= i < 1 + |tail| ==> ([(xs[0], ys[0])] + tail)[i] == tail[i - 1];
      [(xs[0], ys[0])] + tail
  }

  /** A permutation of file parameters paired with one of executable-argument
      parameters. Which component is which depends on the strategy that built it. */
  type Combination = (Assignment<Value>, Assignment<Value>)

  /** `create_all_combinations`: `(exe, file)` pairs, executable arguments outer. */
  function CreateAllCombinations(filePerms: seq<Assignment<Value>>, exePerms: seq<Assignment<Value>>): (r: seq<Combination>)
    ensures |r| == |exePerms| * |filePerms|
  {
    PairProduct(exePerms, filePerms)
  }

  /** Executable-argument permutations form the outer loop, file permutations
      the inner one, and each pair is `(exe, file)`. */
  lemma CreateAllCombinationsAt(filePerms: seq<Assignment<Value>>, exePerms: seq<Assignment<Value>>, i: int, j: int)
    requires 0 <= i < |exePerms| && 0 <= j < |filePerms|
    ensures i * |filePerms| + j < |CreateAllCombinations(filePerms, exePerms)|
    ensures CreateAllCombinations(filePerms, exePerms)[i * |filePerms| + j] == (exePerms[i], filePerms[j])
  {
    PairProductAt(exePerms, filePerms, i, j);
  }

  /** `step_combinations`: `(file, exe)` pairs by position, the reverse tuple
      order of `create_all_combinations`. */
  function StepCombinations(filePerms: seq<Assignment<Value>>, exePerms: seq<Assignment<Value>>): (r: seq<Combination>)
    ensures |r| == if |filePerms| <= |exePerms| then |filePerms| else |exePerms|
    ensures forall i :: 0 <= i < |r| ==> r[i] == (filePerms[i], exePerms[i])
  {
    Zip(filePerms, exePerms)
  }

  /** Stepping an axis that holds only the empty permutation collapses the
      result to a single pair, whatever the other axis holds. */
  lemma StepCombinationsWithEmptyAxis(filePerms: seq<Assignment<Value>>, exePerms: seq<Assignment<Value>>)
    requires filePerms == [[]] || exePerms == [[]]
    requires |filePerms| >= 1 && |exePerms| >= 1
    ensures |StepCombinations(filePerms, exePerms)| == 1
  {
  }

  /** `random_combinations`: the full product of combinations, unless
      `0 < n < total`, in which case `n` of them drawn without replacement. */
  function RandomCombinations(filePerms: seq<Assignment<Value>>, exePerms: seq<Assignment<Value>>, n: int, draws: seq<nat>): (r: seq<Combination>)
    ensures var all := CreateAllCombinations(filePerms, exePerms);
      && (0 < n < |all| ==> |r| == n && multiset(r) <= multiset(all))
      && (!(0 < n < |all|) ==> r == all)
  {
    var all := CreateAllCombinations(filePerms, exePerms);
    if 0 < n < |all| then
      SampleWithoutReplacement(all, n, draws);
      Sample(all, n, draws)
    else all
  }

  // ===========================================================================
  // The two registries
  // ===========================================================================

  /** The functions `_register_permutations` stores. */
  datatype PermutationFn = CreateAllPermutationsFn | StepValuesFn | RandomPermutationsFn

  /** The functions `_register_combinations` stores. */
  datatype CombinationFn = CreateAllCombinationsFn | StepCombinationsFn | RandomCombinationsFn

  /** The permutation decorators run at import, in definition order. */
  function RegisterPermutationStrategies(): Result<Table<PermutationFn>, RegisterError> {
    RegisterAll([], "strategy",
      [("all_perm", CreateAllPermutationsFn), ("step", StepValuesFn), ("random", RandomPermutationsFn)])
  }

  /** The combination decorators run at import, in definition order. */
  function RegisterCombinationStrategies(): Result<Table<CombinationFn>, RegisterError> {
    RegisterAll([], "combination strategy",
      [("all_perm", CreateAllCombinationsFn), ("step", StepCombinationsFn), ("random", RandomCombinationsFn)])
  }

  /** `_REGISTERED_STRATEGIES` once the module is imported. */
  function PermutationTable(): Table<PermutationFn> {
    [("all_perm", CreateAllPermutationsFn), ("step", StepValuesFn), ("random", RandomPermutationsFn)]
  }

  /** `_REGISTERED_COMBINATION_STRATEGIES` once the module is imported. */
  function CombinationTable(): Table<CombinationFn> {
    [("all_perm", CreateAllCombinationsFn), ("step", StepCombinationsFn), ("random", RandomCombinationsFn)]
  }

  /** The three built-in names differ from one another. */
  lemma BuiltinNamesDistinct()
    ensures DistinctNames(PermutationTable()) && DistinctNames(CombinationTable())
    ensures Names(PermutationTable()) == Names(CombinationTable()) == ["all_perm", "step", "random"]
  {
    var p := PermutationTable();
    var c := CombinationTable();
    assert |p[0].0| == 8 && |p[1].0| == 4 && |p[2].0| == 6;
    assert |c[0].0| == 8 && |c[1].0| == 4 && |c[2].0| == 6;
  }

  /** Import-time registration succeeds and builds the tables above; the same
      three names live in both registries without conflict. */
  lemma BuiltinRegistration()
    ensures RegisterPermutationStrategies() == Ok(PermutationTable())
    ensures RegisterCombinationStrategies() == Ok(CombinationTable())
  {
    BuiltinNamesDistinct();
    RegisterAllDistinct([], "strategy", PermutationTable());
    RegisterAllDistinct([], "combination strategy", CombinationTable());
    assert [] + PermutationTable() == PermutationTable();
    assert [] + CombinationTable() == CombinationTable();
  }

  /** A built-in name cannot be registered a second time in either table. */
  lemma BuiltinNamesTaken(name: string, p: PermutationFn, c: CombinationFn)
    requires name in ["all_perm", "step", "random"]
    ensures Register(PermutationTable(), "strategy", name, p).Err?
    ensures Register(CombinationTable(), "combination strategy", name, c).Err?
  {
    BuiltinNamesDistinct();
  }

  // ===========================================================================
  // Resolution and the user-strategy sandbox
  // ===========================================================================

  /** A Python object as the sandbox inspects it. */
  datatype PyObject =
    | PyDict(entries: Assignment<Value>)
    | PyList(items: seq<PyObject>)
    | PyParamSet(paramSet: ParamSet)
    | PyOther(repr: string)

  /** What calling a user strategy does: return an object, raise an
      `Exception`, or raise a `BaseException` that is not an `Exception`
      (`SystemExit`, `KeyboardInterrupt`, `GeneratorExit`). */
  datatype UserOutcome =
    | Returned(value: PyObject)
    | Raised(exception: string)
    | RaisedBaseException(exception: string)

  /** A user-supplied permutation strategy, called as `fn(params, n_permutations)`. */
  type UserStrategy = (Space<Value>, int) -> UserOutcome

  /** What an ensemble's `permutation_strategy` holds: a name or a callable
      (with its `str()` form, which error messages carry). */
  datatype StrategyRef = Named(name: string) | UserCallable(fn: UserStrategy, repr: string)

  /** What `resolve` returns: a registered function or a sandboxed callable. */
  datatype ResolvedPermutation = Registered(fn: PermutationFn) | Sandboxed(user: UserStrategy, repr: string)

  datatype StrategyError =
    | StrategyNotFound(name: string, message: string)   // ValueError from `resolve`
    | CombinationKeyError(key: string)                   // raw KeyError from `resolve_combination`
    | UserStrategyError(repr: string)                    // raised by the sandbox
    | BaseExceptionEscaped(exception: string)            // not caught by the sandbox

  /** The message before the list of known names. */
  function NotFoundHeader(name: string): string {
    "Failed to find an ensembling strategy by the name of '" + name + "'." + "All known strategies are:\n"
  }

  /** The `ValueError` message of `resolve`: it names the requested
      strategy and every registered one. */
  function NotFoundMessage(name: string, known: seq<string>): (m: string)
    ensures Contains(m, name)
    ensures forall k :: k in known ==> Contains(m, k)
  {
    HeaderAndNamesContainAll(name, known);
    NotFoundHeader(name) + Join(known, ", ")
  }

  lemma NotFoundHeaderNamesRequest(name: string)
    ensures Contains(NotFoundHeader(name), name)
  {
    var head := "Failed to find an ensembling strategy by the name of '";
    var h := NotFoundHeader(name);
    assert h[|head|..|head| + |name|] == name;
    assert InfixAt(h, name, |head|);
  }

  lemma HeaderAndNamesContainAll(name: string, known: seq<string>)
    ensures Contains(NotFoundHeader(name) + Join(known, ", "), name)
    ensures forall k :: k in known ==> Contains(NotFoundHeader(name) + Join(known, ", "), k)
  {
    NotFoundHeaderNamesRequest(name);
    ContainsBeforeSuffix(NotFoundHeader(name), Join(known, ", "), name);
    forall k | k in known ensures Contains(NotFoundHeader(name) + Join(known, ", "), k) {
      var i :| 0 <= i < |known| && known[i] == k;
      JoinContainsEach(known, ", ", i);
      ContainsAfterPrefix(NotFoundHeader(name), Join(known, ", "), k);
    }
  }

  /** `resolve` against a permutation table. */
  function ResolveIn(table: Table<PermutationFn>, strategy: StrategyRef): (r: Result<ResolvedPermutation, StrategyError>)
    ensures strategy.UserCallable? ==> r == Ok(Sandboxed(strategy.fn, strategy.repr))
    ensures strategy.Named? ==> (r.Ok? <==> strategy.name in Names(table))
    ensures strategy.Named? && r.Ok? ==> r.value.Registered? && Lookup(table, strategy.name) == Some(r.value.fn)
    ensures r.Err? ==> r.error.StrategyNotFound? && r.error.name == strategy.name
    ensures r.Err? ==> forall k :: k in Names(table) ==> Contains(r.error.message, k)
  {
    match strategy
    case UserCallable(fn, repr) => Ok(Sandboxed(fn, repr))
    case Named(name) =>
      match Lookup(table, name)
      case Some(fn) => Ok(Registered(fn))
      case None =>
        Err(StrategyNotFound(name, NotFoundMessage(name, Names(table))))
  }

  /** `resolve`, with the built-in table. */
  function Resolve(strategy: StrategyRef): (r: Result<ResolvedPermutation, StrategyError>)
    ensures strategy.UserCallable? ==> r == Ok(Sandboxed(strategy.fn, strategy.repr))
    ensures strategy.Named? ==> (r.Ok? <==> strategy.name in ["all_perm", "step", "random"])
    ensures r.Err? ==> r.error.StrategyNotFound? && r.error.name == strategy.name
    ensures r.Err? ==> forall k :: k in ["all_perm", "step", "random"] ==> Contains(r.error.message, k)
  {
    BuiltinNamesDistinct();
    ResolveIn(PermutationTable(), strategy)
  }

  /** `resolve_combination`: a plain dictionary lookup. A callable is not a
      key of the table, so it raises `KeyError` too. */
  function ResolveCombinationIn(table: Table<CombinationFn>, strategy: StrategyRef): (r: Result<CombinationFn, StrategyError>)
    ensures r.Ok? <==> strategy.Named? && strategy.name in Names(table)
    ensures r.Ok? ==> Lookup(table, strategy.name) == Some(r.value)
    ensures r.Err? ==> r.error == CombinationKeyError(if strategy.Named? then strategy.name else strategy.repr)
  {
    match strategy
    case UserCallable(_, repr) => Err(CombinationKeyError(repr))
    case Named(name) =>
      match Lookup(table, name)
      case Some(fn) => Ok(fn)
      case None => Err(CombinationKeyError(name))
  }

  /** `resolve_combination`, with the built-in table. */
  function ResolveCombination(strategy: StrategyRef): (r: Result<CombinationFn, StrategyError>)
    ensures r.Ok? <==> strategy.Named? && strategy.name in ["all_perm", "step", "random"]
    ensures r.Err? ==> r.error == CombinationKeyError(if strategy.Named? then strategy.name else strategy.repr)
  {
    BuiltinNamesDistinct();
    ResolveCombinationIn(CombinationTable(), strategy)
  }

  /** The sandbox's acceptance test: a list whose every element is a dict. */
  predicate IsDictList(o: PyObject) {
    o.PyList? && forall i :: 0 <= i < |o.items| ==> o.items[i].PyDict?
  }

  /** `_make_safe_custom_strategy`: run the user function; an `Exception`,
      a non-list result or a non-dict element becomes `UserStrategyError`;
      a `BaseException` outside `Exception` is not caught and propagates
      as raised; otherwise the result passes through unchanged. */
  function RunSandboxed(fn: UserStrategy, repr: string, space: Space<Value>, n: int): (r: Result<seq<Assignment<Value>>, StrategyError>)
    ensures r.Ok? <==> fn(space, n).Returned? && IsDictList(fn(space, n).value)
    ensures fn(space, n).RaisedBaseException? ==> r == Err(BaseExceptionEscaped(fn(space, n).exception))
    ensures r.Err? && !fn(space, n).RaisedBaseException? ==> r.error == UserStrategyError(repr)
    ensures r.Ok? ==> |r.value| == |fn(space, n).value.items|
    ensures r.Ok? ==> forall i :: 0 <= i < |r.value| ==> fn(space, n).value.items[i] == PyDict(r.value[i])
  {
    match fn(space, n)
    case Raised(_) => Err(UserStrategyError(repr))
    case RaisedBaseException(exception) => Err(BaseExceptionEscaped(exception))
    case Returned(o) =>
      if IsDictList(o) then Ok(seq(|o.items|, i requires 0 <= i < |o.items| => o.items[i].entries))
      else Err(UserStrategyError(repr))
  }

  /** A strategy that returns `ParamSet` objects rather than dicts is refused. */
  lemma SandboxRefusesParamSets(fn: UserStrategy, repr: string, space: Space<Value>, n: int, i: int)
    requires fn(space, n).Returned? && fn(space, n).value.PyList?
    requires 0 <= i < |fn(space, n).value.items| && fn(space, n).value.items[i].PyParamSet?
    ensures RunSandboxed(fn, repr, space, n) == Err(UserStrategyError(repr))
  {
  }

  /** Calls a resolved permutation strategy as `perm(params, n)`. */
  function ApplyPermutation(p: ResolvedPermutation, space: Space<Value>, n: int, draws: seq<nat>): (r: Result<seq<Assignment<Value>>, StrategyError>)
    ensures p.Registered? ==> r.Ok?
  {
    match p
    case Registered(CreateAllPermutationsFn) => Ok(AllPermutations(space))
    case Registered(StepValuesFn) => Ok(StepValues(space))
    case Registered(RandomPermutationsFn) => Ok(RandomPermutations(space, n, draws))
    case Sandboxed(fn, repr) => RunSandboxed(fn, repr, space, n)
  }

  /** Calls a combination strategy as `comb(file_perms, exe_perms, n)`:
      `all_perm` and `random` draw from the full product, `step` pairs by position. */
  function ApplyCombination(c: CombinationFn, filePerms: seq<Assignment<Value>>, exePerms: seq<Assignment<Value>>, n: int, draws: seq<nat>): (r: seq<Combination>)
    ensures c != StepCombinationsFn ==> multiset(r) <= multiset(CreateAllCombinations(filePerms, exePerms))
    ensures c == StepCombinationsFn ==> |r| <= |filePerms| && |r| <= |exePerms|
    ensures c == StepCombinationsFn ==> forall i :: 0 <= i < |r| ==> r[i] == (filePerms[i], exePerms[i])
  {
    match c
    case CreateAllCombinationsFn => CreateAllCombinations(filePerms, exePerms)
    case StepCombinationsFn => StepCombinations(filePerms, exePerms)
    case RandomCombinationsFn => RandomCombinations(filePerms, exePerms, n, draws)
  }

  /** `all_perm` and `step` ignore the budget and the random source. */
  lemma BudgetIgnored(fn: PermutationFn, space: Space<Value>, n: int, m: int, d: seq<nat>, e: seq<nat>)
    requires fn != RandomPermutationsFn
    ensures ApplyPermutation(Registered(fn), space, n, d) == ApplyPermutation(Registered(fn), space, m, e)
  {
  }

  /** `all_perm` and `step` combination ignore the budget and the random source. */
  lemma CombinationBudgetIgnored(c: CombinationFn, filePerms: seq<Assignment<Value>>, exePerms: seq<Assignment<Value>>,
                                 n: int, m: int, d: seq<nat>, e: seq<nat>)
    requires c != RandomCombinationsFn
    ensures ApplyCombination(c, filePerms, exePerms, n, d) == ApplyCombination(c, filePerms, exePerms, m, e)
  {
  }

  /** With a count of 0 the random combination strategy returns the full product. */
  lemma RandomCombinationsUnbudgeted(filePerms: seq<Assignment<Value>>, exePerms: seq<Assignment<Value>>, draws: seq<nat>)
    ensures ApplyCombination(RandomCombinationsFn, filePerms, exePerms, 0, draws)
         == ApplyCombination(CreateAllCombinationsFn, filePerms, exePerms, 0, draws)
  {
  }
}
