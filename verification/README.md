# SmartSim ensemble expansion and LSF orchestrator arithmetic, in Dafny

This project models four parts of SmartSim as pure Dafny functions and lemmas.

- **The ensemble parameter-expansion engine.** A parameter space is an ordered dictionary from parameter name to candidate values. The engine:
  - turns each of two such spaces, file parameters and executable-argument parameters, into a list of permutations;
  - pairs the two lists into combinations;
  - repeats each combination `replicas` times;
  - names the resulting members `"{name}-{i}"`.
- **The strategy registries.** These are two name-to-function dictionaries. The strategies are `all_perm` (cartesian product), `step` (positional zip) and `random` (sampled product). Each registry refuses duplicate names. `resolve` reports unknown names. A sandbox checks what user-supplied strategies return.
- **The `LSFOrchestrator` of the database layer.** Modelled are:
  - the ERF resource set of every shard: host, cpu range and gpu entry;
  - the shard names, ports and cluster arguments of `_initialize_entities`;
  - the batch node count;
  - the setters that refuse reserved arguments;
  - hostname conversion and `set_hosts`.
- **The test-name sanitiser `_sanitize_caller_function`.** It turns a parametrised pytest id such as `test_x[a-1]` into `test_x.a-1`.

Modelling choices:

- **Spaces and permutations.** A parameter space is `seq<(string, seq<V>)>` and a permutation is `seq<(string, V)>`. Both keep Python's dict insertion order, so product order can be stated.
- **Errors.** Python exceptions are `Result` values, and each raising path is modelled with its message.
- **Randomness.** `random.sample` becomes `Sampling.Sample(pool, n, draws)`, steered by an explicit sequence of draws. It is proved to draw without replacement and to be able to produce every possible ordered sample.
- **External inputs as parameters.** These are:
  - user strategies;
  - the hostname converter `host_map`;
  - `str.isalnum`;
  - the base orchestrator's cluster arguments;
  - the configuration paths.

Modules:

| file | module | models |
|---|---|---|
| outcomes.dfy | `Outcomes` | `Option` and `Result` with `:-` propagation |
| text.dfy | `Text` | `str(i)`, `sep.join`, `in` on strings, `str.strip`, `len(s.split())` |
| param_data.dfy | `ParamData` | parameter values and the `ParamSet` dataclass |
| sampling.dfy | `Sampling` | `random.sample` as a function of a draw sequence |
| registry.dfy | `Registry` | an insertion-ordered strategy dictionary and its registration decorator |
| strategies.dfy | `Strategies` | `smartsim/entity/strategies.py` |
| ensemble.dfy | `Ensemble` | `smartsim/entity/_new_ensemble.py` |
| ensemble_scenarios.dfy | `EnsembleScenarios` | the job counts of `tests/test_ensemble.py`, evaluated on the model |
| lsf_orchestrator.dfy | `LsfOrchestrator` | `smartsim/database/lsfOrchestrator.py` |
| test_names.dfy | `TestNames` | `_sanitize_caller_function` in `conftest.py` |

## Model

| member | source | states |
|---|---|---|
| Text.NatToString | smartsim/entity/_new_ensemble.py:87 | `str(i)` of a natural number is a non-empty string of digits without a leading zero |
| Text.ParseNatToString | smartsim/entity/_new_ensemble.py:87 | reading the decimal rendering of a member index back gives the index, so `str(i)` loses nothing |
| Text.NatToStringInjective | smartsim/entity/_new_ensemble.py:87 | two indices render to the same decimal string exactly when they are equal |
| Text.IntToString | smartsim/database/lsfOrchestrator.py:238 | `str(i)` of a negative number is a minus sign followed by the rendering of its magnitude; otherwise it is the plain decimal rendering |
| Text.IntToStringInjective | smartsim/database/lsfOrchestrator.py:284 | two integers render to the same `str` exactly when they are equal; a rendering without a sign starts with a digit, so it never equals a negative one |
| Text.JoinContainsEach | smartsim/entity/strategies.py:99 | every item of `', '.join(items)` occurs in the joined string |
| Text.Strip | smartsim/database/lsfOrchestrator.py:190 | the result is a slice of the input with only whitespace before and after it, and it neither starts nor ends with whitespace |
| Text.TokenCountPositive | smartsim/database/lsfOrchestrator.py:356 | `s.split()` yields at least one token exactly when `s` holds a non-whitespace character |
| Text.TokenCountMany | smartsim/database/lsfOrchestrator.py:356 | `s.split()` yields more than one token exactly when some whitespace has visible characters on both sides |
| ParamData.ParamSetDefaults | smartsim/entity/param_data_class.py:10-11 | an omitted field is an empty dictionary, and a supplied one is kept |
| ParamData.ParamSetEquality | smartsim/entity/param_data_class.py:4-11 | two parameter sets are equal exactly when both fields are equal |
| ParamData.ParamSetPositional | smartsim/entity/param_data_class.py:10-11 | positional construction fills file parameters first and executable arguments second |
| Sampling.Sample | smartsim/entity/strategies.py:153 | a sample of `n` from a pool of at least `n` has exactly `n` elements |
| Sampling.SampleWithoutReplacement | smartsim/entity/strategies.py:153 | the sample is a sub-multiset of the pool: no pool position is drawn twice |
| Sampling.SampleFromPool | smartsim/entity/strategies.py:153 | every sampled element comes from the pool |
| Sampling.SampleDistinct | smartsim/entity/strategies.py:153 | sampling a pool without duplicates yields distinct elements |
| Sampling.SampleComplete | smartsim/entity/strategies.py:153 | every ordered sub-multiset of the pool is produced by some draw sequence, so the model rules out no outcome of `random.sample` |
| Registry.Lookup | smartsim/entity/strategies.py:94-96 | lookup finds an entry exactly when the name is registered, and what it finds is stored under that name |
| Registry.LookupAt | smartsim/entity/strategies.py:95 | in a dictionary without repeated keys, looking up a stored name returns its stored entry |
| Registry.Register | smartsim/entity/strategies.py:65-71 | registration fails exactly when the name is already present, and the error carries that name; otherwise the name is appended last, maps to the new entry, and every other name maps as before |
| Registry.RegisterTwice | smartsim/entity/strategies.py:66-69 | a second registration under a name fails and the first entry stays in place |
| Registry.RegisterKeepsDistinct | smartsim/entity/strategies.py:81-86 | a successful registration keeps the dictionary free of repeated names |
| Registry.RegisterAllDistinct | smartsim/entity/strategies.py:61-88 | a run of decorators succeeds exactly when no name repeats; the table is then the old one followed by the new entries in definition order |
| Strategies.AllPermutations | smartsim/entity/strategies.py:126-134 | the number of permutations is the product of the value-list lengths, and an empty space gives one empty permutation |
| Strategies.AllPermutationsMembers | smartsim/entity/strategies.py:133-134 | the product holds exactly the assignments that pick, in key order, one of each parameter's values |
| Strategies.AllPermutationsAt | smartsim/entity/strategies.py:133-134 | product order has the first key outermost: the choice of value indices sits at its mixed-radix rank |
| Strategies.MinLength | smartsim/entity/strategies.py:141 | the length of the shortest value list: no list is shorter, and some list has this length |
| Strategies.StepValues | smartsim/entity/strategies.py:138-142 | `zip` yields as many steps as the shortest value list holds (none for an empty space), and every step index is valid for every parameter |
| Strategies.StepValuesAt | smartsim/entity/strategies.py:141-142 | step `i` gives every parameter its `i`-th value |
| Strategies.StepValuesOnDiagonal | smartsim/entity/strategies.py:138-142 | each step is the element of the full product that takes the same index in every list |
| Strategies.RandomPermutations | smartsim/entity/strategies.py:146-155 | with `0 < n < total` the result is `n` permutations drawn without replacement from the product; otherwise it is the whole product |
| Strategies.RandomPermutationsReachAll | smartsim/entity/strategies.py:152-153 | every ordered choice of `n` distinct product positions is a possible result |
| Strategies.PairProductMembers | smartsim/entity/strategies.py:167 | a pair is in `itertools.product(xs, ys)` exactly when its components are in `xs` and `ys` |
| Strategies.Zip | smartsim/entity/strategies.py:180 | `zip` stops at the shorter list and pairs elements by position |
| Strategies.CreateAllCombinations | smartsim/entity/strategies.py:158-168 | there are `|exe| * |file|` combinations |
| Strategies.CreateAllCombinationsAt | smartsim/entity/strategies.py:167 | executable-argument permutations are the outer loop and file permutations the inner one; each pair is `(exe, file)` |
| Strategies.StepCombinations | smartsim/entity/strategies.py:171-183 | `step` pairs by position, stops at the shorter list, and builds `(file, exe)` pairs, the reverse of `all_perm` |
| Strategies.StepCombinationsWithEmptyAxis | smartsim/entity/strategies.py:180-182 | an axis holding only the empty permutation collapses `step` to one pair |
| Strategies.RandomCombinations | smartsim/entity/strategies.py:186-196 | with `0 < n < total` the result is `n` combinations drawn without replacement from `create_all_combinations`; otherwise it is all of them |
| Strategies.BuiltinNamesDistinct | smartsim/entity/strategies.py:125-185 | both registries hold `all_perm`, `step` and `random` in that order, each once |
| Strategies.BuiltinRegistration | smartsim/entity/strategies.py:125-185 | registration at import succeeds in both independent registries and produces the tables in definition order |
| Strategies.BuiltinNamesTaken | smartsim/entity/strategies.py:61-88 | a built-in name cannot be registered a second time in either registry |
| Strategies.NotFoundHeaderNamesRequest | smartsim/entity/strategies.py:98 | the start of the not-found message names the requested strategy |
| Strategies.NotFoundMessage | smartsim/entity/strategies.py:97-100 | the not-found message names the requested strategy and every registered one |
| Strategies.ResolveIn | smartsim/entity/strategies.py:91-100 | a callable is wrapped in the sandbox; a name resolves exactly when registered, to its stored function; an unknown name gives `ValueError` naming it and listing every registered name |
| Strategies.ResolveCombinationIn | smartsim/entity/strategies.py:102-103 | a plain dictionary lookup: it succeeds exactly for a registered name, and otherwise raises a bare `KeyError` of the key, a callable included |
| Strategies.Resolve | smartsim/entity/strategies.py:91-100 | a callable is wrapped in the sandbox; a name resolves exactly when it is `all_perm`, `step` or `random`; any other name raises `ValueError` for that name, and its message lists all three |
| Strategies.ResolveCombination | smartsim/entity/strategies.py:102-103 | exactly the three built-in names resolve; anything else, a callable included, raises `KeyError` keyed by what was passed |
| Strategies.RunSandboxed | smartsim/entity/strategies.py:105-120 | a user result passes exactly when the call returns a list of dicts, and then unchanged element by element; an `Exception` or any other result becomes `UserStrategyError(str(fn))`; a `BaseException` that is not an `Exception` propagates unchanged |
| Strategies.SandboxRefusesParamSets | smartsim/entity/strategies.py:114-117 | a list holding a `ParamSet` rather than a dict is refused |
| Strategies.ApplyPermutation | smartsim/entity/strategies.py:125-155 | the registered permutation strategies never raise |
| Strategies.BudgetIgnored | smartsim/entity/strategies.py:126-142 | `all_perm` and `step` give the same result whatever count and random source they receive |
| Strategies.ApplyCombination | smartsim/entity/strategies.py:157-196 | `all_perm` and `random` give combinations drawn from the full product; `step` gives at most as many pairs as the shorter list, pair `i` holding the `i`-th file and executable permutations |
| Strategies.CombinationBudgetIgnored | smartsim/entity/strategies.py:158-183 | `all_perm` and `step` combination give the same result whatever count and random source they receive |
| Strategies.RandomCombinationsUnbudgeted | smartsim/entity/strategies.py:191-196 | with a count of 0, `random` combination equals `all_perm` combination |
| Ensemble.OrEmpty | smartsim/entity/_new_ensemble.py:63-67 | a missing collection becomes empty, and a present one is kept |
| Ensemble.NewEnsemble | smartsim/entity/_new_ensemble.py:49-69 | the constructor keeps name, exe, strategy, budget and replicas, normalises missing or empty collections to empty ones, and substitutes fresh files when none are given |
| Ensemble.NoneAndEmptyAgree | smartsim/entity/_new_ensemble.py:63-67 | passing `None` and passing an empty collection build the same ensemble |
| Ensemble.DefaultToEmpty | smartsim/entity/_new_ensemble.py:74-78 | each axis contributes at least one permutation: an empty list becomes `[{}]`, and a non-empty one is kept |
| Ensemble.Repeat | smartsim/entity/_new_ensemble.py:82 | `repeat(x, n)` yields `x` exactly `max(n, 0)` times |
| Ensemble.Replicate | smartsim/entity/_new_ensemble.py:81-83 | replication has `|combinations| * max(replicas, 0)` elements |
| Ensemble.ReplicateAt | smartsim/entity/_new_ensemble.py:81-83 | copies are contiguous: copy `k` of combination `c` sits at `c * replicas + k` |
| Ensemble.ReplicateMembers | smartsim/entity/_new_ensemble.py:81-83 | replication loses no combination when `replicas > 0`, adds none, and yields nothing otherwise |
| Ensemble.MemberNamesDistinct | smartsim/entity/_new_ensemble.py:87 | members `i` and `j` share a name exactly when `i == j` |
| Ensemble.Build | smartsim/entity/_new_ensemble.py:85-97 | member `i` is named `"{name}-{i}"`, shares the ensemble's exe, exe_args and files, takes `params` from the second tuple component and `params_as_args` from the first |
| Ensemble.BuildReplicatedAt | smartsim/entity/_new_ensemble.py:81-97 | member `c * replicas + k` carries combination `c` |
| Ensemble.BuildReplicatedLength | smartsim/entity/_new_ensemble.py:81-97 | with positive replicas there are `|combinations| * replicas` members |
| Ensemble.ProductMembersAt | smartsim/entity/_new_ensemble.py:79-97 | under the product layout, member `(i * |file| + j) * replicas + k` has file permutation `j` as `params` and exe permutation `i` as `params_as_args` |
| Ensemble.ZipMembersAt | smartsim/entity/_new_ensemble.py:79-97 | under the zip layout, member `c * replicas + k` has exe step `c` as `params` and file step `c` as `params_as_args` |
| Ensemble.CreateApplications | smartsim/entity/_new_ensemble.py:71-98 | every member produced is named by its position and shares the ensemble's exe, exe_args and files |
| Ensemble.ResolveBuiltin | smartsim/entity/_new_ensemble.py:73-79 | `resolve` succeeds for exactly the three built-in names, and `resolve_combination` then gives the combination function registered under the same name |
| Ensemble.CreateApplicationsNamed | smartsim/entity/_new_ensemble.py:71-98 | a named strategy materialises exactly when it is built in, to the replicated combinations of its defaulted permutation lists; an unknown name raises the not-found `ValueError` |
| Ensemble.CallableStrategyFails | smartsim/entity/_new_ensemble.py:72-79 | a user callable never materialises: it fails the sandbox, raises a `BaseException` past it, or fails the combination lookup keyed by the callable |
| Ensemble.MaxPermutationsIgnored | smartsim/entity/_new_ensemble.py:74-80 | under `all_perm` and `step` the members do not depend on `max_permutations` |
| Ensemble.AllPermApplications | smartsim/entity/_new_ensemble.py:71-98 | under `all_perm` the members are the replicated product of the two defaulted permutation lists |
| Ensemble.AllPermCount | smartsim/entity/_new_ensemble.py:71-98 | under `all_perm` the member count is exe permutations times file permutations times `max(replicas, 0)` |
| Ensemble.AllPermMemberValues | smartsim/entity/_new_ensemble.py:71-98 | under `all_perm`, copy `k` of the member pairing exe-argument choice `xi` with file-parameter choice `fi` is member `(rank(xi) * |file product| + rank(fi)) * replicas + k`, named after that index, and holds exactly those two choices |
| Ensemble.StepApplications | smartsim/entity/_new_ensemble.py:79-97 | under `step` the members are the replicated zip of the two defaulted step lists |
| Ensemble.RandomApplications | smartsim/entity/_new_ensemble.py:74-80 | under `random` each axis is sampled on its own, and all pairings of the two samples are kept, because the combination stage receives no count |
| Ensemble.RandomCount | smartsim/entity/_new_ensemble.py:74-83 | under `random` the member count is the two budget-cut axis sizes multiplied, times `max(replicas, 0)` |
| Ensemble.RandomMembersFromProduct | smartsim/entity/_new_ensemble.py:74-97 | under `random` every member's `params` and `params_as_args` come from the full products of their axes |
| Ensemble.BuiltinCombinationsNonEmpty | smartsim/entity/_new_ensemble.py:75-80 | a built-in strategy always combines into at least one pair |
| Ensemble.EmptyOnlyWithoutReplicas | smartsim/entity/_new_ensemble.py:81-83 | a materialisation yields no member exactly when `replicas <= 0` |
| Ensemble.AsJobs | smartsim/entity/_new_ensemble.py:100-104 | a strategy failure propagates; an ensemble without members is refused with `ValueError`; otherwise there is one job per member, in member order, all with the given settings |
| Ensemble.AsJobsRefusesOnlyWithoutReplicas | smartsim/entity/_new_ensemble.py:100-104 | once materialisation succeeds, `as_jobs` fails exactly when `replicas <= 0` |
| EnsembleScenarios.TwoByTwoProducts | tests/test_ensemble.py:39-40 | each 2-by-2 fixture space has 4 product permutations and 2 steps |
| EnsembleScenarios.TwoByTwoCounts | tests/test_ensemble.py:39-40 | the per-axis counts of the fixtures under each strategy, a missing space counting as one |
| EnsembleScenarios.AllPermJobs | tests/test_ensemble.py:125-147 | the job count under `all_perm` is the product of the axis counts and the replicas |
| EnsembleScenarios.StepJobs | tests/test_ensemble.py:193-215 | the job count under `step` is the smaller axis count times the replicas |
| EnsembleScenarios.RandomJobs | tests/test_ensemble.py:219-229 | the job count under `random` is the product of the budget-cut axis counts and the replicas |
| EnsembleScenarios.AllPermScenarios | tests/test_ensemble.py:114-122 | the `all_perm` rows other than the budget row: 16, 4, 4, 1 jobs, and 32 with two replicas |
| EnsembleScenarios.AllPermBudgetScenario | tests/test_ensemble.py:118 | a budget of 8 still gives 16 jobs under `all_perm` |
| EnsembleScenarios.StepScenarios | tests/test_ensemble.py:182-190 | the `step` rows with both or neither space: 2, 2 under a budget of 2, 4 with two replicas, 1 with no spaces |
| EnsembleScenarios.StepOneSpaceScenario | tests/test_ensemble.py:183-184 | with one space missing, `step` gives 1 job |
| EnsembleScenarios.StepSwapScenario | smartsim/entity/_new_ensemble.py:95-97 | the first `step` member carries the executable-argument step as `params` and the file step as `params_as_args` |
| EnsembleScenarios.FirstSteps | smartsim/entity/strategies.py:141-142 | the first step of each fixture takes the first value of every parameter |
| EnsembleScenarios.RandomScenarios | tests/test_ensemble.py:221-229 | the `random` rows: 16, 32, 4, 1 jobs, and 4 (not 2) under a budget of 2 |
| EnsembleScenarios.NoReplicasScenario | tests/test_ensemble.py:62-74 | zero replicas make `as_jobs` raise `ValueError` |
| EnsembleScenarios.UnknownStrategyScenario | tests/test_ensemble.py:77-84 | an unknown strategy name raises the not-found `ValueError` |
| EnsembleScenarios.UserStrategyScenario | tests/test_ensemble.py:164-176 | a user strategy yields no jobs, whatever it returns |
| LsfOrchestrator.FloorDivIsFloor | smartsim/database/lsfOrchestrator.py:225 | `//` rounds toward negative infinity for either sign of divisor |
| LsfOrchestrator.GroupStart | smartsim/database/lsfOrchestrator.py:231-234 | the first shard of the run of shards on `s`'s host: every shard from it to `s` shares that host, and the shard before it does not |
| LsfOrchestrator.ErfEntries | smartsim/database/lsfOrchestrator.py:236-249 | the ERF dictionary has the keys `rank_count`, `host` and `cpu`, plus `gpu` exactly when the shard asks for gpus; it holds one rank, on the host counted from 1 |
| LsfOrchestrator.ShardList | smartsim/database/lsfOrchestrator.py:224-251 | shard `i` gets its own arguments, the packed run arguments, binding `none` and its resource set |
| LsfOrchestrator.Launch | smartsim/database/lsfOrchestrator.py:253-259 | without shards there is no launch; otherwise the launch lists every shard in order, shard `i` with its own arguments, the packed run arguments, binding `none` and its resource set |
| LsfOrchestrator.RunSettings | smartsim/database/lsfOrchestrator.py:219-259 | no shards give `None`; shards with a zero `dph` divide by zero; otherwise the result is the launch of all shards |
| LsfOrchestrator.BuildRunSettings | smartsim/database/lsfOrchestrator.py:219-259 | the loop with running counters builds, for every shard, the resource set stated without counters; no shards give `None`; a zero `dph` with shards divides by zero; otherwise all other shards are attached in order to the first |
| LsfOrchestrator.SlotStep | smartsim/database/lsfOrchestrator.py:231-234 | a shard's slot restarts at 0 on a new host and otherwise follows the previous shard's |
| LsfOrchestrator.CountersStep | smartsim/database/lsfOrchestrator.py:231-249 | one loop turn: after the reset the counters hold the shard's offsets, and the increment gives the next shard's |
| LsfOrchestrator.SlotPositive | smartsim/database/lsfOrchestrator.py:225-242 | with positive `dph`, shard `s` is on host `s // dph` in slot `s % dph` |
| LsfOrchestrator.ErfSetPositive | smartsim/database/lsfOrchestrator.py:236-249 | the ERF entry of shard `s`: `rank_count` 1, `host` `1 + s // dph`, cpus from `(s % dph) * cps`, a gpu range, single gpu, or no gpu key by `gpus_per_shard` |
| LsfOrchestrator.CpuRangesDisjoint | smartsim/database/lsfOrchestrator.py:231-242 | of two shards on one host, the cpu range of the earlier one ends no later than that of the later one starts |
| LsfOrchestrator.ErfHostsSeparate | smartsim/database/lsfOrchestrator.py:225-238 | two shards carry the same `host` entry exactly when they are placed on the same host |
| LsfOrchestrator.ShardNameInjective | smartsim/database/lsfOrchestrator.py:284 | two shard ids give the same shard name exactly when they are equal |
| LsfOrchestrator.CommandLine | smartsim/database/lsfOrchestrator.py:285-295 | a shard's command line starts with the redis configuration file and the two module paths, carries its port after `--port` and `name_id.out` after `--logfile`, followed by the cluster arguments exactly when the node is clustered |
| LsfOrchestrator.FlattenLength | smartsim/database/lsfOrchestrator.py:276-296 | hosts of `m` shards each give `hosts * m` command lines |
| LsfOrchestrator.FlattenAt | smartsim/database/lsfOrchestrator.py:276-296 | appending host by host puts place `s % m` of host `s / m` at index `s` |
| LsfOrchestrator.EntityCommandsAt | smartsim/database/lsfOrchestrator.py:277-297 | shard `s` is named `name_s`, listens on `port + s % dph`, and gets cluster arguments exactly when `db_nodes >= 3` |
| LsfOrchestrator.HostsCommandsAt | smartsim/database/lsfOrchestrator.py:282-284 | offset `o` on host `d` is shard `d * dph + o` on port `port + o` |
| LsfOrchestrator.ShardOnHost | smartsim/database/lsfOrchestrator.py:277-284 | shard `s` is at place `s % dph` on host `s / dph` and listens on `port + s % dph` |
| LsfOrchestrator.EntityArgs | smartsim/database/lsfOrchestrator.py:276-296 | one redis command line per shard, in shard order: config, modules, `--port`, `--logfile name_s.out`, then the cluster arguments |
| LsfOrchestrator.EntityArgsCount | smartsim/database/lsfOrchestrator.py:277-282 | `(db_nodes // dph) * dph` shards are launched, which equals `db_nodes` exactly when `dph` divides it |
| LsfOrchestrator.InitializeEntities | smartsim/database/lsfOrchestrator.py:261-310 | size 2 is refused; `dph == 0` divides by zero; no full host leaves `ports` unbound; otherwise one node holds the database name and path, the last host's ports `port..port+dph-1`, the hostname converter exactly when a host map was given, shard ids `range(db_nodes)`, no hosts, and the launch built from the command lines of all shards |
| LsfOrchestrator.ShardCountShortfall | smartsim/database/lsfOrchestrator.py:308-314 | five shards at two per host launch four, while the node reports five shard ids |
| LsfOrchestrator.InitializedShard | smartsim/database/lsfOrchestrator.py:276-310 | shard `s` of the node's launch runs redis as `name_s` on port `port + s % dph`, with the configured run arguments packed and the resource set of its place on its host |
| LsfOrchestrator.LogFilesDistinct | smartsim/database/lsfOrchestrator.py:284-292 | no two shards of a launch write the same log file |
| LsfOrchestrator.BuildBatchSettings | smartsim/database/lsfOrchestrator.py:209-217 | no batch gives `None`; otherwise the node count is the floor of `db_nodes / dph` (bracketed for either sign of `dph`), with time, project and smts passed through |
| LsfOrchestrator.BatchNodesMatchShards | smartsim/database/lsfOrchestrator.py:215 | the batch job asks for exactly the hosts the launched shards fill |
| LsfOrchestrator.SetWalltime | smartsim/database/lsfOrchestrator.py:128-139 | refused exactly outside batch mode; otherwise only the walltime changes |
| LsfOrchestrator.SetBatchArg | smartsim/database/lsfOrchestrator.py:141-160 | refused exactly outside batch mode; a reserved name changes nothing; any other name is written and nothing else changes |
| LsfOrchestrator.WriteRunArg | smartsim/database/lsfOrchestrator.py:179-180 | the argument is written into the run arguments of every node's launch settings and nothing else changes; a node without a launch fails the write |
| LsfOrchestrator.SetRunArg | smartsim/database/lsfOrchestrator.py:162-180 | no nodes give `IndexError`; a first node without a launch gives `KeyError`; a reserved name changes nothing; any other name leaves the batch settings alone and performs exactly the write of every node |
| LsfOrchestrator.LaunchStaysPacked | smartsim/database/lsfOrchestrator.py:404 | `launch_distribution` is reserved, so the packed layout cannot be overridden |
| LsfOrchestrator.Truncate | smartsim/database/lsfOrchestrator.py:349-355 | a name longer than 256 characters is cut to its first 256 characters, and shorter names are unchanged |
| LsfOrchestrator.FirstUnacceptable | smartsim/database/lsfOrchestrator.py:344-360 | every host before the returned position converts acceptably, and the host at it does not |
| LsfOrchestrator.ConvertAll | smartsim/database/lsfOrchestrator.py:343-363 | succeeds exactly when no conversion is unacceptable, and then gives each truncated name in order; otherwise raises the error of the first unacceptable host |
| LsfOrchestrator.ConvertAllSucceeds | smartsim/database/lsfOrchestrator.py:344-361 | conversion succeeds exactly when every host converts to a string of at most one token after truncation |
| LsfOrchestrator.ConvertHostnames | smartsim/database/lsfOrchestrator.py:341-363 | without a converter the hosts come back unchanged |
| LsfOrchestrator.ConvertedHostsClean | smartsim/database/lsfOrchestrator.py:349-360 | every converted name has at most 256 characters and no whitespace between visible characters |
| LsfOrchestrator.WithoutEmpty | smartsim/database/lsfOrchestrator.py:198-199 | the list keeps exactly its non-empty names |
| LsfOrchestrator.WithoutEmptyConcat | smartsim/database/lsfOrchestrator.py:198-199 | dropping the empty names of two lists joined is dropping them from each list, so order and repeats of the other names are kept |
| LsfOrchestrator.WithoutEmptySingle | smartsim/database/lsfOrchestrator.py:198-199 | a single name is kept exactly when it is not empty |
| LsfOrchestrator.FirstIndex | smartsim/database/lsfOrchestrator.py:199 | the position where a name first occurs |
| LsfOrchestrator.RemoveFirst | smartsim/database/lsfOrchestrator.py:199 | `list.remove(x)` drops the first occurrence of `x` and keeps everything else in order |
| LsfOrchestrator.RemoveEmptyHosts | smartsim/database/lsfOrchestrator.py:198-199 | the `while "" in hosts: hosts.remove("")` loop ends with the list without its empty names |
| LsfOrchestrator.HostNames | smartsim/database/lsfOrchestrator.py:189-194 | a single string becomes the list of its stripped form; a non-list or a non-string element raises `TypeError` with the source's message; a list of strings passes unchanged |
| LsfOrchestrator.SetHosts | smartsim/database/lsfOrchestrator.py:182-207 | it fails exactly when validation or conversion does; the batch receives the list as given; every node receives the list, converted and cleared of empty names when a converter is set |
| TestNames.Keep | conftest.py:562-564 | the filtered string is no longer than the input, holds only characters that pass, and only characters of the input |
| TestNames.KeepAll | conftest.py:562-564 | a string whose every character passes is left unchanged |
| TestNames.KeepIdempotent | conftest.py:562-564 | filtering twice is filtering once |
| TestNames.KeepConcat | conftest.py:562-564 | filtering a concatenation filters each part |
| TestNames.RemoveChar | conftest.py:555 | the character is gone, nothing is longer, and every other character survives |
| TestNames.IndexOf | conftest.py:556 | finds the first occurrence of a character, and finds nothing exactly when the character is absent |
| TestNames.SplitOnce | conftest.py:556 | one part exactly when the separator is absent; otherwise the part before the first separator and the rest |
| TestNames.SplitOnceJoin | conftest.py:556-566 | joining the parts with the separator restores the string |
| TestNames.SplitOnceFirst | conftest.py:556 | splitting `f[p` at the first `[` gives `f` and `p` when `f` holds no `[` |
| TestNames.SanitizeCallerFunction | conftest.py:549-566 | the result holds no `]`, is never longer than the name, holds no `[` (given `[` is not alphanumeric), and without a `[` is the name minus its `]`s |
| TestNames.RemoveClosing | conftest.py:555 | dropping `]` from `f[p]` leaves `f[p` |
| TestNames.SanitizeParametrized | conftest.py:555-566 | a parametrised id `f[p]` becomes `f.` followed by the accepted characters of `p` |
| TestNames.SanitizePlainName | conftest.py:555-566 | a name without brackets is unchanged |
| TestNames.SanitizeIdempotent | conftest.py:555-566 | sanitising a sanitised name changes nothing |

## Left out

- **Randomness.** The pseudo-random generator behind `random.sample` (strategies.py:153, 195) is not modelled. A sequence of draws is a parameter, and the sample is specified by what any draw sequence can produce.
- **Opaque objects.** `Application`, `EntityFiles`, `_mock.Mock`, `_mock.Job`, launch settings, `JsrunSettings`, `BsubBatchSettings`, `make_mpmd` and `DBNode` are records holding the fields the core sets. Their classes are not part of this model. `DBNode` is handed `convert_hostnames` as a callable; the model records only whether it was handed one, since the conversion itself is `ConvertHostnames`.
- **Object identity and deep copies.** `copy.deepcopy` (_new_ensemble.py:64, 67, 72) and the identity-distinct `params` of replicas (tests/test_ensemble.py:95-108) are not modelled. The model compares values only.
- **Aliased run arguments.** `_build_run_settings` hands one `run_args` dictionary to every shard's `JsrunSettings`. Whether those settings keep that dictionary or copy it is decided in `JsrunSettings`, which is not part of this model. The model gives each shard its own equal copy. `set_run_arg` writes into the settings each node holds, which are the first shard's, so in the model the other shards keep their run arguments. If `JsrunSettings` keeps the shared dictionary, they would see the write too.
- **Side effects without a result.** The debug `print` at strategies.py:70, the warnings logged by the setters and `convert_hostnames`, and the `CONFIG` paths and module paths are left out. The paths are parameters (`LaunchConfig`).
- **`host_map` exceptions.** A converter that raises is not modelled. A converter returns a string or another object (`HostValue`).
- **Cluster arguments.** The base orchestrator's `_get_cluster_args` and `__init__` are not part of this model. The cluster arguments are the `ClusterArgs` parameter.
- **Keyword defaults.** The defaults that `kwargs.get` supplies for `db_per_host`, `port` and `smts` are not applied: the caller passes every value.
- **Other files.** `smartsim/launcher/clusterLauncher.py` (shell commands, network retries), `smartsim/settings/builders/launch/dragon.py`, the rest of `conftest.py` and the other test modules are not part of this model.
- TestNames.SanitizeCallerFunction: `str.isalnum` is a parameter, because Python answers it from the Unicode tables. The "no `[` in the result" clause and `SanitizeIdempotent` assume `[` is not alphanumeric, which holds for Python's tables.
- LsfOrchestrator.ErfSetPositive: the closed form covers a positive `db_per_host` only. For a negative one `BuildRunSettings` still states the resource sets, through `ErfSet`.
- LsfOrchestrator.WriteRunArg: when a later node has no launch, Python has already written the argument into the earlier nodes before it raises. The model returns only the error and does not state those partial writes.
- LsfOrchestrator.InitializeEntities: `num_shards` returns `db_nodes`. The shards actually launched are counted by `EntityArgsCount` and compared in `ShardCountShortfall`.
- Strategies.RandomCombinations: the count is stated as a sub-multiset of the product. It is a duplicate-free set only when the product itself has no repeated pairs (`Sampling.SampleDistinct`).

### Where the code and its tests disagree

The model follows the code in every case below. The lemmas named state the code's behaviour.

- **`file_parameters=` keyword.** The tests pass `file_parameters=`, but the constructor's parameter is `parameters` (_new_ensemble.py:55). The scenarios use the constructor's name.
- **`all_perm` with a budget of 8.** tests/test_ensemble.py:118 expects 8 jobs. The code ignores the budget and gives 16 (`EnsembleScenarios.AllPermBudgetScenario`).
- **`random` with a budget of 2.** tests/test_ensemble.py:225 expects 2 jobs. Each axis is cut to 2, and the combination stage pairs them in full, which gives 4 (`EnsembleScenarios.RandomScenarios`).
- **`step` with one space missing or empty.** tests/test_ensemble.py:183-184 and 188-189 expect 2 jobs. `zip` against `[{}]` gives 1 (`EnsembleScenarios.StepOneSpaceScenario`).
- **User strategy.** tests/test_ensemble.py:164-176 expects 4 jobs, but the code gives none (`EnsembleScenarios.UserStrategyScenario`). The sandbox calls the function as `fn(params, n)`, so its second parameter receives the count, and iterating it raises. Had it returned, its `ParamSet` list would be refused. Had the sandbox passed, `resolve_combination` would still look the callable up as a key and raise `KeyError`.
- **`step` tuple order.** `step` combination builds `(file, exe)` pairs, but the materialiser unpacks `(exe, file)`. So under `step`, `params` holds the executable arguments (`EnsembleScenarios.StepSwapScenario`).
