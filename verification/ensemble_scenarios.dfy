/** The ensemble test tables, evaluated on the model: a 2-by-2 file-parameter
    space and a 2-by-2 executable-argument space under each strategy. Where
    the tables expect a count the code does not produce, the lemma states the
    code's count. */
module EnsembleScenarios {
  import opened Outcomes
  import opened ParamData
  import opened Strategies
  import opened Ensemble

  /** `{"SPAM": ["a", "b"], "EGGS": ["c", "d"]}` */
  function FileParams(): Space<Value> {
    [("SPAM", [Str("a"), Str("b")]), ("EGGS", [Str("c"), Str("d")])]
  }

  /** `{"EXE": [["a"], ["b", "c"]], "ARGS": [["d"], ["e", "f"]]}` */
  function ExeArgParams(): Space<Value> {
    [("EXE", [StrList(["a"]), StrList(["b", "c"])]), ("ARGS", [StrList(["d"]), StrList(["e", "f"])])]
  }

  /** An ensemble named `test_ensemble` running `echo hello`, files left out. */
  function Scenario(params: Option<Space<Value>>, exeArgParams: Option<Space<Value>>, strategy: string, maxPerms: int, replicas: int): Ensemble<()> {
    NewEnsemble(EnsembleArgs("test_ensemble", "echo", Some(["hello"]), None, params, exeArgParams,
      Named(strategy), maxPerms, replicas), ())
  }

  /** Number of jobs `as_jobs` returns, or `None` when it raises. */
  function JobCount(e: Ensemble<()>, entropy: Entropy): (r: Option<nat>)
    ensures r.Some? <==> AsJobs(e, entropy, ()).Ok?
    ensures r.Some? ==> r.value == |AsJobs(e, entropy, ()).value|
  {
    match AsJobs(e, entropy, ())
    case Ok(jobs) => Some(|jobs|)
    case Err(_) => None
  }

  lemma TwoByTwoProducts()
    ensures Product(FileParams()) == 4 && Product(ExeArgParams()) == 4
    ensures |AllPermutations(FileParams())| == 4 && |AllPermutations(ExeArgParams())| == 4
    ensures |StepValues(FileParams())| == 2 && |StepValues(ExeArgParams())| == 2
  {
    assert MinLength(FileParams()[1..]) == 2;
    assert MinLength(ExeArgParams()[1..]) == 2;
  }

  /** How many permutations a strategy leaves of an optional space, an empty
      result counting as one. */
  function Count(fn: PermutationFn, o: Option<Space<Value>>, n: int): nat {
    match fn
    case CreateAllPermutationsFn => |DefaultToEmpty(AllPermutations(OrEmpty(o)))|
    case StepValuesFn => |DefaultToEmpty(StepValues(OrEmpty(o)))|
    case RandomPermutationsFn => SampledCount(Product(OrEmpty(o)), n)
  }

  lemma TwoByTwoCounts(n: int)
    ensures Count(CreateAllPermutationsFn, Some(FileParams()), n) == 4 && Count(CreateAllPermutationsFn, Some(ExeArgParams()), n) == 4
    ensures Count(StepValuesFn, Some(FileParams()), n) == 2 && Count(StepValuesFn, Some(ExeArgParams()), n) == 2
    ensures Count(RandomPermutationsFn, Some(FileParams()), n) == (if 0 < n < 4 then n else 4)
    ensures Count(RandomPermutationsFn, Some(ExeArgParams()), n) == (if 0 < n < 4 then n else 4)
    ensures Count(CreateAllPermutationsFn, None, n) == 1 && Count(StepValuesFn, None, n) == 1
    ensures Count(RandomPermutationsFn, None, n) == 1
  {
    TwoByTwoProducts();
  }

  /** Jobs of a scenario under `all_perm`: every file permutation with every
      argument permutation, times the replicas. */
  lemma AllPermJobs(params: Option<Space<Value>>, exeArgParams: Option<Space<Value>>, n: int, replicas: int, entropy: Entropy)
    requires replicas > 0
    ensures JobCount(Scenario(params, exeArgParams, "all_perm", n, replicas), entropy)
      == Some(Count(CreateAllPermutationsFn, exeArgParams, n) * Count(CreateAllPermutationsFn, params, n) * replicas)
  {
    var e := Scenario(params, exeArgParams, "all_perm", n, replicas);
    AllPermCount(e, entropy);
    EmptyOnlyWithoutReplicas(e, entropy);
  }

  /** Jobs of a scenario under `random`: the sampled lists paired in full. */
  lemma RandomJobs(params: Option<Space<Value>>, exeArgParams: Option<Space<Value>>, n: int, replicas: int, entropy: Entropy)
    requires replicas > 0
    ensures JobCount(Scenario(params, exeArgParams, "random", n, replicas), entropy)
      == Some(Count(RandomPermutationsFn, exeArgParams, n) * Count(RandomPermutationsFn, params, n) * replicas)
  {
    var e := Scenario(params, exeArgParams, "random", n, replicas);
    RandomCount(e, entropy);
    EmptyOnlyWithoutReplicas(e, entropy);
  }

  /** Jobs of a scenario under `step`: the shorter of the two step lists, times
      the replicas. */
  lemma StepJobs(params: Option<Space<Value>>, exeArgParams: Option<Space<Value>>, n: int, replicas: int, entropy: Entropy)
    requires replicas > 0
    ensures var a := Count(StepValuesFn, params, n);
      var b := Count(StepValuesFn, exeArgParams, n);
      JobCount(Scenario(params, exeArgParams, "step", n, replicas), entropy) == Some((if a <= b then a else b) * replicas)
  {
    var e := Scenario(params, exeArgParams, "step", n, replicas);
    StepApplications(e, entropy);
    EmptyOnlyWithoutReplicas(e, entropy);
    var combos := StepCombinations(DefaultToEmpty(StepValues(e.parameters)), DefaultToEmpty(StepValues(e.exeArgParameters)));
    BuildReplicatedLength(e, combos);
  }

  /** `all_perm` over both spaces: 4 file permutations times 4 argument
      permutations, times the replicas. */
  lemma AllPermScenarios(entropy: Entropy)
    ensures JobCount(Scenario(Some(FileParams()), Some(ExeArgParams()), "all_perm", 30, 1), entropy) == Some(16)
    ensures JobCount(Scenario(Some(FileParams()), Some(ExeArgParams()), "all_perm", 30, 2), entropy) == Some(32)
    ensures JobCount(Scenario(Some(FileParams()), None, "all_perm", 30, 1), entropy) == Some(4)
    ensures JobCount(Scenario(None, Some(ExeArgParams()), "all_perm", 30, 1), entropy) == Some(4)
    ensures JobCount(Scenario(None, None, "all_perm", 30, 1), entropy) == Some(1)
  {
    TwoByTwoCounts(30);
    AllPermJobs(Some(FileParams()), Some(ExeArgParams()), 30, 1, entropy);
    AllPermJobs(Some(FileParams()), Some(ExeArgParams()), 30, 2, entropy);
    AllPermJobs(Some(FileParams()), None, 30, 1, entropy);
    AllPermJobs(None, Some(ExeArgParams()), 30, 1, entropy);
    AllPermJobs(None, None, 30, 1, entropy);
  }

  /** `all_perm` ignores `max_permutations`: a budget of 8 still yields 16 jobs. */
  lemma AllPermBudgetScenario(entropy: Entropy)
    ensures JobCount(Scenario(Some(FileParams()), Some(ExeArgParams()), "all_perm", 8, 1), entropy) == Some(16)
  {
    TwoByTwoCounts(8);
    AllPermJobs(Some(FileParams()), Some(ExeArgParams()), 8, 1, entropy);
  }

  /** `step` pairs the two step lists by position. */
  lemma StepScenarios(entropy: Entropy)
    ensures JobCount(Scenario(Some(FileParams()), Some(ExeArgParams()), "step", 30, 1), entropy) == Some(2)
    ensures JobCount(Scenario(Some(FileParams()), Some(ExeArgParams()), "step", 2, 1), entropy) == Some(2)
    ensures JobCount(Scenario(Some(FileParams()), Some(ExeArgParams()), "step", 30, 2), entropy) == Some(4)
    ensures JobCount(Scenario(None, None, "step", 30, 1), entropy) == Some(1)
  {
    TwoByTwoCounts(30);
    TwoByTwoCounts(2);
    StepJobs(Some(FileParams()), Some(ExeArgParams()), 30, 1, entropy);
    StepJobs(Some(FileParams()), Some(ExeArgParams()), 2, 1, entropy);
    StepJobs(Some(FileParams()), Some(ExeArgParams()), 30, 2, entropy);
    StepJobs(None, None, 30, 1, entropy);
  }

  /** With one space missing, `step` zips two steps against the single empty
      assignment and yields one job, not two. */
  lemma StepOneSpaceScenario(entropy: Entropy)
    ensures JobCount(Scenario(Some(FileParams()), None, "step", 30, 1), entropy) == Some(1)
    ensures JobCount(Scenario(None, Some(ExeArgParams()), "step", 30, 1), entropy) == Some(1)
  {
    TwoByTwoCounts(30);
    StepJobs(Some(FileParams()), None, 30, 1, entropy);
    StepJobs(None, Some(ExeArgParams()), 30, 1, entropy);
  }

  function StepScenario(): Ensemble<()> {
    Scenario(Some(FileParams()), Some(ExeArgParams()), "step", 30, 1)
  }

  /** Under `step` the first job's `params` holds the executable arguments
      and its `params_as_args` the file parameters. */
  lemma StepSwapScenario(entropy: Entropy)
    ensures CreateApplications(StepScenario(), entropy).Ok?
    ensures |CreateApplications(StepScenario(), entropy).value| == 2
    ensures CreateApplications(StepScenario(), entropy).value[0].params
      == [("EXE", StrList(["a"])), ("ARGS", StrList(["d"]))]
    ensures CreateApplications(StepScenario(), entropy).value[0].paramsAsArgs
      == [("SPAM", Str("a")), ("EGGS", Str("c"))]
  {
    var e := StepScenario();
    StepScenarioFields();
    FirstSteps();
    var fs := DefaultToEmpty(StepValues(FileParams()));
    var xs := DefaultToEmpty(StepValues(ExeArgParams()));
    var apps := Build(e, Replicate(StepCombinations(fs, xs), 1));
    StepApplications(e, entropy);
    assert CreateApplications(e, entropy) == Ok(apps);
    ZipMembersAt(e, fs, xs, 0, 0);
  }

  lemma StepScenarioFields()
    ensures StepScenario().strategy == Named("step") && StepScenario().replicas == 1
    ensures StepScenario().parameters == FileParams() && StepScenario().exeArgParameters == ExeArgParams()
  {
  }

  /** The first step of each space takes the first value of every parameter. */
  lemma FirstSteps()
    ensures |StepValues(FileParams())| == 2 && |StepValues(ExeArgParams())| == 2
    ensures StepValues(FileParams())[0] == [("SPAM", Str("a")), ("EGGS", Str("c"))]
    ensures StepValues(ExeArgParams())[0] == [("EXE", StrList(["a"])), ("ARGS", StrList(["d"]))]
  {
    TwoByTwoProducts();
    StepValuesAt(FileParams(), 0, 0);
    StepValuesAt(FileParams(), 0, 1);
    StepValuesAt(ExeArgParams(), 0, 0);
    StepValuesAt(ExeArgParams(), 0, 1);
  }

  /** `random` samples each space on its own: with a budget of 2 that is
      2 times 2 jobs; without a usable budget it is the full product. */
  lemma RandomScenarios(entropy: Entropy)
    ensures JobCount(Scenario(Some(FileParams()), Some(ExeArgParams()), "random", 30, 1), entropy) == Some(16)
    ensures JobCount(Scenario(Some(FileParams()), Some(ExeArgParams()), "random", 30, 2), entropy) == Some(32)
    ensures JobCount(Scenario(Some(FileParams()), None, "random", 30, 1), entropy) == Some(4)
    ensures JobCount(Scenario(None, None, "random", 30, 1), entropy) == Some(1)
    ensures JobCount(Scenario(Some(FileParams()), Some(ExeArgParams()), "random", 2, 1), entropy) == Some(4)
  {
    TwoByTwoCounts(30);
    TwoByTwoCounts(2);
    RandomJobs(Some(FileParams()), Some(ExeArgParams()), 30, 1, entropy);
    RandomJobs(Some(FileParams()), Some(ExeArgParams()), 30, 2, entropy);
    RandomJobs(Some(FileParams()), None, 30, 1, entropy);
    RandomJobs(None, None, 30, 1, entropy);
    RandomJobs(Some(FileParams()), Some(ExeArgParams()), 2, 1, entropy);
  }

  /** No replicas: `as_jobs` refuses the empty ensemble. */
  lemma NoReplicasScenario(entropy: Entropy)
    ensures AsJobs(Scenario(Some(FileParams()), Some(ExeArgParams()), "random", 1, 0), entropy, ())
      == Err(NoMembers("There are no members as part of this ensemble"))
  {
    var e := Scenario(Some(FileParams()), Some(ExeArgParams()), "random", 1, 0);
    RandomCount(e, entropy);
  }

  /** An unknown strategy name fails before anything is generated. */
  lemma UnknownStrategyScenario(entropy: Entropy)
    ensures AsJobs(Scenario(Some(FileParams()), Some(ExeArgParams()), "THIS-STRATEGY-DNE", 30, 1), entropy, ()).Err?
    ensures AsJobs(Scenario(Some(FileParams()), Some(ExeArgParams()), "THIS-STRATEGY-DNE", 30, 1), entropy, ()).error.cause.StrategyNotFound?
  {
    var e := Scenario(Some(FileParams()), Some(ExeArgParams()), "THIS-STRATEGY-DNE", 30, 1);
    CreateApplicationsNamed(e, entropy);
  }

  /** A user strategy yields no jobs, whatever it returns. */
  lemma UserStrategyScenario(entropy: Entropy, fn: UserStrategy)
    ensures AsJobs(Scenario(Some(FileParams()), Some(ExeArgParams()), "all_perm", 16, 1).(strategy := UserCallable(fn, "user_created_function")), entropy, ()).Err?
  {
    CallableStrategyFails(Scenario(Some(FileParams()), Some(ExeArgParams()), "all_perm", 16, 1).(strategy := UserCallable(fn, "user_created_function")), entropy);
  }
}
