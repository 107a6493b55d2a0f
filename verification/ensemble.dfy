/** The ensemble: a template application plus parameter spaces, expanded into
    one application per (file-parameter permutation, executable-argument
    permutation) combination, each repeated `replicas` times. */
module Ensemble {
  import opened Outcomes
  import opened Text
  import opened ParamData
  import opened Registry
  import opened Strategies

  /** The constructor's arguments, with the source's defaults. `None` stands
      for an omitted or `None` argument. `F` is the opaque `EntityFiles` type. */
  datatype EnsembleArgs<F> = EnsembleArgs(
    name: string,
    exe: string,
    exeArgs: Option<seq<string>> := None,
    files: Option<F> := None,
    parameters: Option<Space<Value>> := None,
    exeArgParameters: Option<Space<Value>> := None,
    strategy: StrategyRef := Named("all_perm"),
    maxPermutations: int := 0,
    replicas: int := 1)

  /** The constructed ensemble, its optional arguments normalised. */
  datatype Ensemble<F> = Ensemble(
    name: string,
    exe: string,
    exeArgs: seq<string>,
    files: F,
    parameters: Space<Value>,
    exeArgParameters: Space<Value>,
    strategy: StrategyRef,
    maxPermutations: int,
    replicas: int)

  /** Python truthiness of an optional sequence: `None` and an empty one are falsy. */
  function OrEmpty<T>(o: Option<seq<T>>): (r: seq<T>)
    ensures o.None? ==> r == []
    ensures o.Some? ==> r == o.value
  {
    if o.Some? && |o.value| > 0 then o.value else []
  }

  /** `Ensemble.__init__`: missing or empty collections become empty ones, and
      missing files become `emptyFiles` (a fresh `EntityFiles()`). */
  function NewEnsemble<F>(args: EnsembleArgs<F>, emptyFiles: F): (e: Ensemble<F>)
    ensures e.name == args.name && e.exe == args.exe && e.strategy == args.strategy
    ensures e.maxPermutations == args.maxPermutations && e.replicas == args.replicas
    ensures e.exeArgs == OrEmpty(args.exeArgs)
    ensures e.parameters == OrEmpty(args.parameters)
    ensures e.exeArgParameters == OrEmpty(args.exeArgParameters)
    ensures e.files == args.files.GetOr(emptyFiles)
  {
    Ensemble(args.name, args.exe, OrEmpty(args.exeArgs), args.files.GetOr(emptyFiles),
      OrEmpty(args.parameters), OrEmpty(args.exeArgParameters),
      args.strategy, args.maxPermutations, args.replicas)
  }

  /** Omitting a parameter space and passing an empty one build the same ensemble. */
  lemma NoneAndEmptyAgree<F>(args: EnsembleArgs<F>, emptyFiles: F)
    ensures NewEnsemble(args.(parameters := None), emptyFiles) == NewEnsemble(args.(parameters := Some([])), emptyFiles)
    ensures NewEnsemble(args.(exeArgParameters := None), emptyFiles) == NewEnsemble(args.(exeArgParameters := Some([])), emptyFiles)
    ensures NewEnsemble(args.(exeArgs := None), emptyFiles) == NewEnsemble(args.(exeArgs := Some([])), emptyFiles)
  {
  }

  /** A materialised member, the fields `Application(...)` receives. The
      launch settings placeholder is left out. */
  datatype Application<F> = Application(
    name: string,
    exe: string,
    exeArgs: seq<string>,
    files: F,
    params: Assignment<Value>,
    paramsAsArgs: Assignment<Value>)

  /** A job: one member together with the launch settings. */
  datatype Job<F, S> = Job(app: Application<F>, settings: S)

  /** The random source for the two calls of the permutation strategy. The
      combination strategy is called with a budget of 0 and never samples. */
  datatype Entropy = Entropy(fileDraws: seq<nat>, exeDraws: seq<nat>)

  /** `perms if perms else [{}]`: an empty result stands for one empty assignment. */
  function DefaultToEmpty(perms: seq<Assignment<Value>>): (r: seq<Assignment<Value>>)
    ensures |r| >= 1
    ensures |perms| > 0 ==> r == perms
    ensures |perms| == 0 ==> r == [[]]
  {
    if |perms| > 0 then perms else [[]]
  }

  /** `itertools.repeat(x, times)`: nothing when `times` is not positive. */
  function Repeat<T>(x: T, times: int): (r: seq<T>)
    ensures |r| == if times > 0 then times else 0
    ensures forall k :: 0 <= k < |r| ==> r[k] == x
  {
    if times > 0 then seq(times, _ => x) else []
  }

  /** `chain.from_iterable(repeat(x, times) for x in xs)`: each element
      repeated in place. */
  function Replicate<T>(xs: seq<T>, times: int): (r: seq<T>)
    ensures |r| == |xs| * (if times > 0 then times else 0)
    decreases |xs|
  {
    if |xs| == 0 then [] else Repeat(xs[0], times) + Replicate(xs[1..], times)
  }

  /** Copy `k` of element `c` sits at `c * times + k`. */
  lemma {:induction false} ReplicateAt<T>(xs: seq<T>, times: int, c: int, k: int)
    requires 0 <= c < |xs| && 0 <= k < times
    ensures c * times + k < |Replicate(xs, times)|
    ensures Replicate(xs, times)[c * times + k] == xs[c]
    decreases c
  {
    MixedIndex(c, k, |xs|, times);
    if c > 0 {
      ReplicateAt(xs[1..], times, c - 1, k);
    }
  }

  /** Every element of a replication is one of the originals, and none is
      lost when `times` is positive. */
  lemma {:induction false} ReplicateMembers<T>(xs: seq<T>, times: int, x: T)
    ensures x in Replicate(xs, times) <==> times > 0 && x in xs
    decreases |xs|
  {
    if |xs| > 0 {
      ReplicateMembers(xs[1..], times, x);
      assert xs == [xs[0]] + xs[1..];
      if times > 0 {
        assert Repeat(xs[0], times)[0] == xs[0];
      }
    }
  }

  /** `f"{name}-{i}"`. */
  function MemberName(name: string, i: nat): string {
    name + "-" + NatToString(i)
  }

  /** Members of one ensemble never share a name. */
  lemma MemberNamesDistinct(name: string, i: nat, j: nat)
    ensures MemberName(name, i) == MemberName(name, j) <==> i == j
  {
    var p := name + "-";
    if MemberName(name, i) == MemberName(name, j) {
      assert NatToString(i) == MemberName(name, i)[|p|..];
      assert NatToString(j) == MemberName(name, j)[|p|..];
      NatToStringInjective(i, j);
    }
  }

  /** The generator expression of `_create_applications`: each `(exe_a, file_p)`
      pair becomes a member whose `params` is the second component and whose
      `params_as_args` is the first. */
  function Build<F>(e: Ensemble<F>, combos: seq<Combination>): (apps: seq<Application<F>>)
    ensures |apps| == |combos|
    ensures forall i :: 0 <= i < |apps| ==>
      && apps[i].name == MemberName(e.name, i)
      && apps[i].exe == e.exe && apps[i].exeArgs == e.exeArgs && apps[i].files == e.files
      && apps[i].params == combos[i].1 && apps[i].paramsAsArgs == combos[i].0
  {
    seq(|combos|, i requires 0 <= i < |combos| =>
      Application(MemberName(e.name, i), e.exe, e.exeArgs, e.files, combos[i].1, combos[i].0))
  }

  /** Copy `k` of combination `c` is member `c * replicas + k`. */
  lemma BuildReplicatedAt<F>(e: Ensemble<F>, combos: seq<Combination>, c: int, k: int)
    requires 0 <= c < |combos| && 0 <= k < e.replicas
    ensures c * e.replicas + k < |Build(e, Replicate(combos, e.replicas))|
    ensures Build(e, Replicate(combos, e.replicas))[c * e.replicas + k].params == combos[c].1
    ensures Build(e, Replicate(combos, e.replicas))[c * e.replicas + k].paramsAsArgs == combos[c].0
  {
    ReplicateAt(combos, e.replicas, c, k);
  }

  lemma BuildReplicatedLength<F>(e: Ensemble<F>, combos: seq<Combination>)
    requires e.replicas > 0
    ensures |Build(e, Replicate(combos, e.replicas))| == |combos| * e.replicas
  {
  }

  /** Members built from the replicated product of two permutation lists. */
  lemma ProductMembersAt<F>(e: Ensemble<F>, fs: seq<Assignment<Value>>, xs: seq<Assignment<Value>>, i: int, j: int, k: int)
    requires 0 <= i < |xs| && 0 <= j < |fs| && 0 <= k < e.replicas
    ensures |Build(e, Replicate(CreateAllCombinations(fs, xs), e.replicas))| == |xs| * |fs| * e.replicas
    ensures (i * |fs| + j) * e.replicas + k < |xs| * |fs| * e.replicas
    ensures var apps := Build(e, Replicate(CreateAllCombinations(fs, xs), e.replicas));
      var at := (i * |fs| + j) * e.replicas + k;
      && apps[at].params == fs[j] && apps[at].paramsAsArgs == xs[i]
      && apps[at].name == MemberName(e.name, at)
  {
    var combos := CreateAllCombinations(fs, xs);
    CreateAllCombinationsAt(fs, xs, i, j);
    BuildReplicatedAt(e, combos, i * |fs| + j, k);
    BuildReplicatedLength(e, combos);
  }

  /** Members built from the replicated zip of two permutation lists. */
  lemma ZipMembersAt<F>(e: Ensemble<F>, fs: seq<Assignment<Value>>, xs: seq<Assignment<Value>>, c: int, k: int)
    requires 0 <= c < |fs| && 0 <= c < |xs| && 0 <= k < e.replicas
    ensures var apps := Build(e, Replicate(StepCombinations(fs, xs), e.replicas));
      var at := c * e.replicas + k;
      && |apps| == (if |fs| <= |xs| then |fs| else |xs|) * e.replicas
      && at < |apps|
      && apps[at].params == xs[c] && apps[at].paramsAsArgs == fs[c]
      && apps[at].name == MemberName(e.name, at)
  {
    BuildReplicatedAt(e, StepCombinations(fs, xs), c, k);
    BuildReplicatedLength(e, StepCombinations(fs, xs));
  }

  /** `Ensemble._create_applications`, step by step in source order: resolve
      the strategy, expand file parameters, expand executable-argument
      parameters, resolve the combination strategy by the same key, combine,
      replicate, build. */
  function CreateApplications<F>(e: Ensemble<F>, entropy: Entropy): (r: Result<seq<Application<F>>, StrategyError>)
    ensures r.Ok? ==> forall i :: 0 <= i < |r.value| ==>
      r.value[i].name == MemberName(e.name, i) && r.value[i].exe == e.exe
      && r.value[i].exeArgs == e.exeArgs && r.value[i].files == e.files
  {
    var perm :- Resolve(e.strategy);
    var filePerms :- ApplyPermutation(perm, e.parameters, e.maxPermutations, entropy.fileDraws);
    var exePerms :- ApplyPermutation(perm, e.exeArgParameters, e.maxPermutations, entropy.exeDraws);
    var comb :- ResolveCombination(e.strategy);
    var combos := ApplyCombination(comb, DefaultToEmpty(filePerms), DefaultToEmpty(exePerms), 0, []);
    Ok(Build(e, Replicate(combos, e.replicas)))
  }

  /** What a built-in strategy produces for one parameter space. */
  function BuiltinPermutations(fn: PermutationFn, space: Space<Value>, n: int, draws: seq<nat>): seq<Assignment<Value>> {
    match fn
    case CreateAllPermutationsFn => AllPermutations(space)
    case StepValuesFn => StepValues(space)
    case RandomPermutationsFn => RandomPermutations(space, n, draws)
  }

  /** The combination function registered under the same name as a permutation one. */
  function Partner(fn: PermutationFn): CombinationFn {
    match fn
    case CreateAllPermutationsFn => CreateAllCombinationsFn
    case StepValuesFn => StepCombinationsFn
    case RandomPermutationsFn => RandomCombinationsFn
  }

  /** The built-in strategy a name selects, if any. */
  function BuiltinNamed(name: string): Option<PermutationFn> {
    if name == "all_perm" then Some(CreateAllPermutationsFn)
    else if name == "step" then Some(StepValuesFn)
    else if name == "random" then Some(RandomPermutationsFn)
    else None
  }

  /** The combinations a built-in strategy yields for an ensemble, before replication. */
  function BuiltinCombinations<F>(fn: PermutationFn, e: Ensemble<F>, entropy: Entropy): seq<Combination> {
    ApplyCombination(Partner(fn),
      DefaultToEmpty(BuiltinPermutations(fn, e.parameters, e.maxPermutations, entropy.fileDraws)),
      DefaultToEmpty(BuiltinPermutations(fn, e.exeArgParameters, e.maxPermutations, entropy.exeDraws)),
      0, [])
  }

  /** Position of a built-in name in both registries. */
  function BuiltinIndex(name: string): nat
    requires BuiltinNamed(name).Some?
  {
    if name == "all_perm" then 0 else if name == "step" then 1 else 2
  }

  /** `resolve` finds exactly the three built-in names. */
  lemma ResolveBuiltin(name: string)
    ensures Resolve(Named(name)).Ok? <==> BuiltinNamed(name).Some?
    ensures BuiltinNamed(name).Some? ==> Resolve(Named(name)) == Ok(Registered(BuiltinNamed(name).value))
    ensures BuiltinNamed(name).Some? ==> ResolveCombination(Named(name)) == Ok(Partner(BuiltinNamed(name).value))
  {
    ResolvePermutationBuiltin(name);
    ResolveCombinationBuiltin(name);
  }

  lemma ResolvePermutationBuiltin(name: string)
    ensures Resolve(Named(name)).Ok? <==> BuiltinNamed(name).Some?
    ensures BuiltinNamed(name).Some? ==> Resolve(Named(name)) == Ok(Registered(BuiltinNamed(name).value))
  {
    BuiltinNamesDistinct();
    if BuiltinNamed(name).Some? {
      LookupAt(PermutationTable(), BuiltinIndex(name));
    }
  }

  lemma ResolveCombinationBuiltin(name: string)
    ensures BuiltinNamed(name).Some? ==> ResolveCombination(Named(name)) == Ok(Partner(BuiltinNamed(name).value))
  {
    BuiltinNamesDistinct();
    if BuiltinNamed(name).Some? {
      LookupAt(CombinationTable(), BuiltinIndex(name));
    }
  }

  /** A named strategy materialises exactly when the name is one of the
      built-in three; the members are then the replicated combinations. */
  lemma CreateApplicationsNamed<F>(e: Ensemble<F>, entropy: Entropy)
    requires e.strategy.Named?
    ensures CreateApplications(e, entropy).Ok? <==> BuiltinNamed(e.strategy.name).Some?
    ensures BuiltinNamed(e.strategy.name).Some? ==>
      CreateApplications(e, entropy)
        == Ok(Build(e, Replicate(BuiltinCombinations(BuiltinNamed(e.strategy.name).value, e, entropy), e.replicas)))
    ensures BuiltinNamed(e.strategy.name).None? ==>
      CreateApplications(e, entropy).error.StrategyNotFound?
  {
    ResolveBuiltin(e.strategy.name);
    if BuiltinNamed(e.strategy.name).Some? {
      var fn := BuiltinNamed(e.strategy.name).value;
      ApplyBuiltin(fn, e.parameters, e.maxPermutations, entropy.fileDraws);
      ApplyBuiltin(fn, e.exeArgParameters, e.maxPermutations, entropy.exeDraws);
    }
  }

  lemma ApplyBuiltin(fn: PermutationFn, space: Space<Value>, n: int, draws: seq<nat>)
    ensures ApplyPermutation(Registered(fn), space, n, draws) == Ok(BuiltinPermutations(fn, space, n, draws))
  {
  }

  /** A user callable never materialises: either it fails the sandbox, or
      it raises past the sandbox, or the combination lookup, keyed by the
      callable itself, raises `KeyError`. */
  lemma CallableStrategyFails<F>(e: Ensemble<F>, entropy: Entropy)
    requires e.strategy.UserCallable?
    ensures CreateApplications(e, entropy).Err?
    ensures CreateApplications(e, entropy).error in
      {UserStrategyError(e.strategy.repr), CombinationKeyError(e.strategy.repr)}
      || CreateApplications(e, entropy).error.BaseExceptionEscaped?
  {
  }

  /** `all_perm` and `step` ignore `max_permutations`. */
  lemma MaxPermutationsIgnored<F>(e: Ensemble<F>, entropy: Entropy, m: int)
    requires e.strategy == Named("all_perm") || e.strategy == Named("step")
    ensures CreateApplications(e, entropy) == CreateApplications(e.(maxPermutations := m), entropy)
  {
    CreateApplicationsNamed(e, entropy);
    CreateApplicationsNamed(e.(maxPermutations := m), entropy);
  }

  /** `max(n, 0)`: how often `itertools.repeat` yields. */
  function Positive(n: int): nat {
    if n > 0 then n else 0
  }

  /** Under `all_perm` the members are the replicated product of the two
      defaulted permutation lists: executable-argument permutations outer,
      file permutations inner, each pair `replicas` times in a row (the
      layout `ProductMembersAt` spells out). */
  lemma AllPermApplications<F>(e: Ensemble<F>, entropy: Entropy)
    requires e.strategy == Named("all_perm")
    ensures CreateApplications(e, entropy) == Ok(Build(e, Replicate(
      CreateAllCombinations(DefaultToEmpty(AllPermutations(e.parameters)), DefaultToEmpty(AllPermutations(e.exeArgParameters))),
      e.replicas)))
  {
    CreateApplicationsNamed(e, entropy);
  }

  /** Member `at` of `apps` holds file parameters `p` and exe arguments `x`
      under the name `name-at`. */
  predicate MemberHolds<F>(apps: seq<Application<F>>, name: string, at: int, p: Assignment<Value>, x: Assignment<Value>) {
    && 0 <= at < |apps|
    && apps[at].params == p
    && apps[at].paramsAsArgs == x
    && apps[at].name == MemberName(name, at)
  }

  /** Where `all_perm` puts copy `k` of the member pairing the exe-argument
      choice `xi` with the file-parameter choice `fi`. */
  function AllPermPosition<F>(e: Ensemble<F>, xi: seq<nat>, fi: seq<nat>, k: int): int
    requires ValidIndex(e.exeArgParameters, xi) && ValidIndex(e.parameters, fi)
  {
    (Rank(e.exeArgParameters, xi) * Product(e.parameters) + Rank(e.parameters, fi)) * e.replicas + k
  }

  /** Under `all_perm`, copy `k` of the member that pairs the exe-argument
      choice `xi` with the file-parameter choice `fi` is member
      `(rank(xi) * |file product| + rank(fi)) * replicas + k`, and it holds
      exactly those two choices. */
  lemma AllPermMemberValues<F>(e: Ensemble<F>, entropy: Entropy, xi: seq<nat>, fi: seq<nat>, k: int)
    requires e.strategy == Named("all_perm")
    requires ValidIndex(e.exeArgParameters, xi) && ValidIndex(e.parameters, fi)
    requires 0 <= k < e.replicas
    ensures CreateApplications(e, entropy).Ok?
    ensures MemberHolds(CreateApplications(e, entropy).value, e.name, AllPermPosition(e, xi, fi, k),
      ChoiceAt(e.parameters, fi), ChoiceAt(e.exeArgParameters, xi))
  {
    AllPermApplications(e, entropy);
    AllPermProductAt(e, xi, fi, k);
    assert DefaultToEmpty(AllPermutations(e.parameters)) == AllPermutations(e.parameters);
    assert DefaultToEmpty(AllPermutations(e.exeArgParameters)) == AllPermutations(e.exeArgParameters);
  }

  lemma AllPermProductAt<F>(e: Ensemble<F>, xi: seq<nat>, fi: seq<nat>, k: int)
    requires ValidIndex(e.exeArgParameters, xi) && ValidIndex(e.parameters, fi)
    requires 0 <= k < e.replicas
    ensures |AllPermutations(e.parameters)| > 0 && |AllPermutations(e.exeArgParameters)| > 0
    ensures MemberHolds(
      Build(e, Replicate(CreateAllCombinations(AllPermutations(e.parameters), AllPermutations(e.exeArgParameters)), e.replicas)),
      e.name, AllPermPosition(e, xi, fi, k), ChoiceAt(e.parameters, fi), ChoiceAt(e.exeArgParameters, xi))
  {
    var fs := AllPermutations(e.parameters);
    var xs := AllPermutations(e.exeArgParameters);
    var i, j := Rank(e.exeArgParameters, xi), Rank(e.parameters, fi);
    AllPermutationsAt(e.parameters, fi);
    AllPermutationsAt(e.exeArgParameters, xi);
    assert AllPermPosition(e, xi, fi, k) == (i * |fs| + j) * e.replicas + k;
    ProductMemberHolds(e, fs, xs, i, j, k);
  }

  lemma ProductMemberHolds<F>(e: Ensemble<F>, fs: seq<Assignment<Value>>, xs: seq<Assignment<Value>>, i: int, j: int, k: int)
    requires 0 <= i < |xs| && 0 <= j < |fs| && 0 <= k < e.replicas
    ensures MemberHolds(Build(e, Replicate(CreateAllCombinations(fs, xs), e.replicas)),
      e.name, (i * |fs| + j) * e.replicas + k, fs[j], xs[i])
  {
    var c := i * |fs| + j;
    assert c >= 0 by {
      MulNonNegative(i, |fs|);
    }
    MulNonNegative(c, e.replicas);
    ProductMembersAt(e, fs, xs, i, j, k);
  }

  lemma MulNonNegative(a: int, b: int)
    requires a >= 0 && b >= 0
    ensures a * b >= 0
  {
  }

  /** Member count under `all_perm`: the two permutation counts (an empty
      product counting as one) multiplied, times the replicas. */
  lemma AllPermCount<F>(e: Ensemble<F>, entropy: Entropy)
    requires e.strategy == Named("all_perm")
    ensures CreateApplications(e, entropy).Ok?
    ensures |CreateApplications(e, entropy).value|
      == |DefaultToEmpty(AllPermutations(e.exeArgParameters))| * |DefaultToEmpty(AllPermutations(e.parameters))| * Positive(e.replicas)
  {
    AllPermApplications(e, entropy);
  }

  /** Under `step` the two lists are zipped as `(file, exe)` pairs and then
      unpacked as `(exe, file)`: a member's `params` is the executable-argument
      step and its `params_as_args` the file step (the layout `ZipMembersAt`
      spells out). */
  lemma StepApplications<F>(e: Ensemble<F>, entropy: Entropy)
    requires e.strategy == Named("step")
    ensures CreateApplications(e, entropy) == Ok(Build(e, Replicate(
      StepCombinations(DefaultToEmpty(StepValues(e.parameters)), DefaultToEmpty(StepValues(e.exeArgParameters))),
      e.replicas)))
  {
    CreateApplicationsNamed(e, entropy);
  }

  /** Under `random` each list is sampled on its own, then every pairing of
      the two samples is kept. */
  lemma RandomApplications<F>(e: Ensemble<F>, entropy: Entropy)
    requires e.strategy == Named("random")
    ensures CreateApplications(e, entropy) == Ok(Build(e, Replicate(
      CreateAllCombinations(
        DefaultToEmpty(RandomPermutations(e.parameters, e.maxPermutations, entropy.fileDraws)),
        DefaultToEmpty(RandomPermutations(e.exeArgParameters, e.maxPermutations, entropy.exeDraws))),
      e.replicas)))
  {
    assert BuiltinNamed(e.strategy.name) == Some(RandomPermutationsFn);
    CreateApplicationsNamed(e, entropy);
    RandomBuiltinCombinations(e, entropy);
  }

  lemma RandomBuiltinCombinations<F>(e: Ensemble<F>, entropy: Entropy)
    ensures BuiltinCombinations(RandomPermutationsFn, e, entropy) == CreateAllCombinations(
      DefaultToEmpty(RandomPermutations(e.parameters, e.maxPermutations, entropy.fileDraws)),
      DefaultToEmpty(RandomPermutations(e.exeArgParameters, e.maxPermutations, entropy.exeDraws)))
  {
    var fs := DefaultToEmpty(RandomPermutations(e.parameters, e.maxPermutations, entropy.fileDraws));
    var xs := DefaultToEmpty(RandomPermutations(e.exeArgParameters, e.maxPermutations, entropy.exeDraws));
    RandomCombinationsUnbudgeted(fs, xs, []);
  }

  /** Size of one sampled list under budget `n`, an empty result counting as one. */
  function SampledCount(total: nat, n: int): nat {
    var k := if 0 < n < total then n else total;
    if k == 0 then 1 else k
  }

  /** Member count under `random`: each list is cut to the budget when
      `0 < max_permutations < total`, and every pairing of the two is kept. */
  lemma RandomCount<F>(e: Ensemble<F>, entropy: Entropy)
    requires e.strategy == Named("random")
    ensures CreateApplications(e, entropy).Ok?
    ensures |CreateApplications(e, entropy).value|
      == SampledCount(Product(e.exeArgParameters), e.maxPermutations)
        * SampledCount(Product(e.parameters), e.maxPermutations) * Positive(e.replicas)
  {
    RandomApplications(e, entropy);
  }

  /** Under `random` every member's parameters come from the full product
      (or are empty when that product is empty). */
  lemma RandomMembersFromProduct<F>(e: Ensemble<F>, entropy: Entropy, a: Application<F>)
    requires e.strategy == Named("random")
    requires CreateApplications(e, entropy).Ok? && a in CreateApplications(e, entropy).value
    ensures a.params in DefaultToEmpty(AllPermutations(e.parameters))
    ensures a.paramsAsArgs in DefaultToEmpty(AllPermutations(e.exeArgParameters))
  {
    RandomApplications(e, entropy);
    var fs := DefaultToEmpty(RandomPermutations(e.parameters, e.maxPermutations, entropy.fileDraws));
    var xs := DefaultToEmpty(RandomPermutations(e.exeArgParameters, e.maxPermutations, entropy.exeDraws));
    var reps := Replicate(CreateAllCombinations(fs, xs), e.replicas);
    var apps := Build(e, reps);
    var i :| 0 <= i < |apps| && apps[i] == a;
    var pair := reps[i];
    ReplicateMembers(CreateAllCombinations(fs, xs), e.replicas, pair);
    PairProductMembers(xs, fs, pair);
    SampledMember(e.parameters, e.maxPermutations, entropy.fileDraws, a.params);
    SampledMember(e.exeArgParameters, e.maxPermutations, entropy.exeDraws, a.paramsAsArgs);
  }

  lemma SampledMember(space: Space<Value>, n: int, draws: seq<nat>, x: Assignment<Value>)
    requires x in DefaultToEmpty(RandomPermutations(space, n, draws))
    ensures x in DefaultToEmpty(AllPermutations(space))
  {
    var r := RandomPermutations(space, n, draws);
    if |r| > 0 {
      assert x in multiset(r);
    }
  }

  /** A built-in strategy combines into at least one pair. */
  lemma BuiltinCombinationsNonEmpty<F>(fn: PermutationFn, e: Ensemble<F>, entropy: Entropy)
    ensures |BuiltinCombinations(fn, e, entropy)| >= 1
  {
    var fs := DefaultToEmpty(BuiltinPermutations(fn, e.parameters, e.maxPermutations, entropy.fileDraws));
    var xs := DefaultToEmpty(BuiltinPermutations(fn, e.exeArgParameters, e.maxPermutations, entropy.exeDraws));
    if fn != StepValuesFn {
      var n := |ApplyCombination(Partner(fn), fs, xs, 0, [])|;
      assert n == |xs| * |fs|;
      PositiveProduct(|xs|, |fs|);
    }
  }

  lemma PositiveProduct(a: int, b: int)
    requires a >= 1 && b >= 1
    ensures a * b >= 1
  {
  }

  /** A materialisation yields no member exactly when `replicas` is not positive. */
  lemma EmptyOnlyWithoutReplicas<F>(e: Ensemble<F>, entropy: Entropy)
    requires CreateApplications(e, entropy).Ok?
    ensures |CreateApplications(e, entropy).value| == 0 <==> e.replicas <= 0
  {
    if e.strategy.UserCallable? {
      CallableStrategyFails(e, entropy);
    } else {
      CreateApplicationsNamed(e, entropy);
      BuiltinCombinationsNonEmpty(BuiltinNamed(e.strategy.name).value, e, entropy);
    }
  }

  datatype EnsembleError = StrategyFailed(cause: StrategyError) | NoMembers(message: string)

  /** `Ensemble.as_jobs`: one job per member, in member order, all with the
      same settings; an ensemble without members is refused. */
  function AsJobs<F, S>(e: Ensemble<F>, entropy: Entropy, settings: S): (r: Result<seq<Job<F, S>>, EnsembleError>)
    ensures CreateApplications(e, entropy).Err? ==> r == Err(StrategyFailed(CreateApplications(e, entropy).error))
    ensures r.Err? && r.error.NoMembers? <==> CreateApplications(e, entropy) == Ok([])
    ensures r.Ok? ==> var apps := CreateApplications(e, entropy).value;
      && |r.value| == |apps| > 0
      && forall i :: 0 <= i < |apps| ==> r.value[i] == Job(apps[i], settings)
  {
    match CreateApplications(e, entropy)
    case Err(err) => Err(StrategyFailed(err))
    case Ok(apps) =>
      if |apps| == 0 then Err(NoMembers("There are no members as part of this ensemble"))
      else Ok(seq(|apps|, i requires 0 <= i < |apps| => Job(apps[i], settings)))
  }

  /** With a built-in strategy, `as_jobs` fails for want of members exactly
      when `replicas` is not positive. */
  lemma AsJobsRefusesOnlyWithoutReplicas<F, S>(e: Ensemble<F>, entropy: Entropy, settings: S)
    requires CreateApplications(e, entropy).Ok?
    ensures AsJobs(e, entropy, settings).Err? <==> e.replicas <= 0
  {
    EmptyOnlyWithoutReplicas(e, entropy);
  }
}
