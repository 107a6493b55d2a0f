/** The LSF orchestrator: a database of `db_nodes` shards, `db_per_host` of
    them on each compute host, launched as one `jsrun` whose explicit
    resource file (ERF) places every shard. Modelled here are the per-shard
    resource sets, the shard and port numbering, the batch node count, the
    hostname conversion and the setters that refuse reserved arguments.
    Settings objects are plain records; the values the orchestrator reads
    from its configuration (paths, modules, cluster arguments) are parameters. */
module LsfOrchestrator {
  import opened Outcomes
  import opened Text

  /** The Python exceptions these operations raise. */
  datatype LsfError =
    | ZeroDivisionError
    | UnsupportedError(message: string)
    | UnboundLocalError(variable: string)
    | SmartSimError(message: string)
    | TypeError(message: string)
    | ValueError(message: string)
    | IndexError
    | KeyError(key: string)
    | AttributeError(message: string)

  // ---------------------------------------------------------------------------
  // Integer helpers
  // ---------------------------------------------------------------------------

  /** Python's `a // b`, which rounds toward negative infinity. Dafny's `/` is
      Euclidean, and the two differ when the divisor is negative. */
  function FloorDiv(a: int, b: int): int
    requires b != 0
  {
    if b > 0 then a / b else (-a) / (-b)
  }

  /** `FloorDiv` is the floor of the exact quotient, for either sign of the divisor. */
  lemma FloorDivIsFloor(a: int, b: int)
    requires b != 0
    ensures b > 0 ==> FloorDiv(a, b) * b <= a < FloorDiv(a, b) * b + b
    ensures b < 0 ==> FloorDiv(a, b) * b + b < a <= FloorDiv(a, b) * b
  {
    var q := FloorDiv(a, b);
    if b > 0 {
      DivModSplit(a, b);
    } else {
      var c := -b;
      DivModSplit(-a, c);
      assert q * c <= -a < q * c + c;
      assert q * b == -(q * c);
    }
  }

  /** The length of `range(n)`. */
  function RangeLength(n: int): nat {
    if n > 0 then n else 0
  }

  /** The quotient and remainder of a division are the only ones with the
      remainder in range. */
  lemma MulMono(x: int, y: int, d: int)
    requires d > 0 && x <= y
    ensures x * d <= y * d
  {
  }

  lemma DivModSplit(a: int, d: int)
    requires d > 0
    ensures (a / d) * d + a % d == a
  {
  }

  lemma DivModUnique(a: int, d: int, q: int, r: int)
    requires d > 0 && 0 <= r < d && a == q * d + r
    ensures a / d == q && a % d == r
  {
    var q' := a / d;
    if q' > q {
      MulMono(q + 1, q', d);
      assert false;
    }
    if q' < q {
      MulMono(q' + 1, q, d);
      assert false;
    }
  }

  // ---------------------------------------------------------------------------
  // Resource sets (`_build_run_settings`)
  // ---------------------------------------------------------------------------

  /** The resource set of one shard: its host (counted from 0), the first
      cpu and gpu it takes on that host, and how many of each. */
  datatype ResourceSet = ResourceSet(host: int, cpu: int, gpu: int, cpus: int, gpus: int)

  /** A `JsrunSettings` as far as the orchestrator fills it in; `resources`
      is the shard's ERF entry, rendered by `ErfEntries`. */
  datatype ShardSettings = ShardSettings(
    exe: string,
    args: seq<string>,
    runArgs: map<string, Option<string>>,
    binding: string,
    resources: ResourceSet)

  /** One MPMD launch: the first shard's settings, the others attached in order. */
  datatype Mpmd = Mpmd(head: ShardSettings, attached: seq<ShardSettings>)

  /** The run arguments every shard is launched with. */
  function Packed(runArgs: map<string, Option<string>>): map<string, Option<string>> {
    runArgs["launch_distribution" := Some("packed")]
  }

  /** The host shard `s` runs on, counted from 0: `s // db_per_host`. */
  function HostOf(s: nat, dph: int): int
    requires dph != 0
  {
    FloorDiv(s, dph)
  }

  /** The first shard of the run of consecutive shards that ends at `s` and
      stays on `s`'s host. */
  function GroupStart(s: nat, dph: int): (g: nat)
    requires dph != 0
    ensures g <= s
    ensures forall t: nat :: g <= t <= s ==> HostOf(t, dph) == HostOf(s, dph)
    ensures g == 0 || HostOf(g - 1, dph) != HostOf(g, dph)
    decreases s
  {
    if s > 0 && HostOf(s - 1, dph) == HostOf(s, dph) then GroupStart(s - 1, dph) else s
  }

  /** How many shards precede `s` on its host. */
  function Slot(s: nat, dph: int): nat
    requires dph != 0
  {
    s - GroupStart(s, dph)
  }

  /** The ERF dictionary of a resource set: one rank, the host counted from
      1, a cpu range `{first:count}`, and a gpu entry that is a range for
      more than one gpu, a single index for one, and absent for none. */
  function ErfEntries(rs: ResourceSet): (r: map<string, string>)
    ensures r.Keys == {"rank_count", "host", "cpu"} + (if rs.gpus > 0 then {"gpu"} else {})
    ensures r["rank_count"] == "1" && r["host"] == IntToString(1 + rs.host)
  {
    var base := map[
      "rank_count" := "1",
      "host" := IntToString(1 + rs.host),
      "cpu" := "{" + IntToString(rs.cpu) + ":" + IntToString(rs.cpus) + "}"];
    if rs.gpus > 1 then base["gpu" := "{" + IntToString(rs.gpu) + "-" + IntToString(rs.gpu + rs.gpus - 1) + "}"]
    else if rs.gpus > 0 then base["gpu" := "{" + IntToString(rs.gpu) + "}"]
    else base
  }

  /** The resource set of shard `s`, stated without the loop's running
      counters: its cpus and gpus follow those of the shards before it on
      the same host. */
  function ErfSet(s: nat, dph: int, cps: int, gps: int): ResourceSet
    requires dph != 0
  {
    ResourceSet(HostOf(s, dph), Slot(s, dph) * cps, Slot(s, dph) * gps, cps, gps)
  }

  /** The settings of every shard, in launch order. */
  function ShardList(exe: string, exeArgs: seq<seq<string>>, dph: int,
                     runArgs: map<string, Option<string>>, cps: int, gps: int): (r: seq<ShardSettings>)
    requires dph != 0
    ensures |r| == |exeArgs|
    ensures forall i :: 0 <= i < |exeArgs| ==>
      r[i] == ShardSettings(exe, exeArgs[i], Packed(runArgs), "none", ErfSet(i, dph, cps, gps))
  {
    seq(|exeArgs|, i requires 0 <= i < |exeArgs| =>
      ShardSettings(exe, exeArgs[i], Packed(runArgs), "none", ErfSet(i, dph, cps, gps)))
  }

  /** The shards of a launch in launch order: the head, then the attached ones. */
  function Shards(m: Mpmd): seq<ShardSettings> {
    [m.head] + m.attached
  }

  /** The launch `_build_run_settings` builds for a non-zero `dph`: none
      without shards, otherwise the first shard's settings with the others
      attached. */
  function Launch(exe: string, exeArgs: seq<seq<string>>, dph: int,
                  runArgs: map<string, Option<string>>, cps: int, gps: int): (r: Option<Mpmd>)
    requires dph != 0
    ensures r.Some? <==> |exeArgs| > 0
    ensures r.Some? ==> |Shards(r.value)| == |exeArgs|
    ensures r.Some? ==> forall i :: 0 <= i < |exeArgs| ==>
      Shards(r.value)[i] == ShardSettings(exe, exeArgs[i], Packed(runArgs), "none", ErfSet(i, dph, cps, gps))
  {
    var shards := ShardList(exe, exeArgs, dph, runArgs, cps, gps);
    if |shards| == 0 then None else Some(Mpmd(shards[0], shards[1..]))
  }

  /** `_build_run_settings`, including the division by zero that a zero
      `dph` causes as soon as there is a shard. */
  function RunSettings(exe: string, exeArgs: seq<seq<string>>, dph: int,
                       runArgs: map<string, Option<string>>, cps: int, gps: int): (r: Result<Option<Mpmd>, LsfError>)
    ensures r.Ok? <==> |exeArgs| == 0 || dph != 0
    ensures r.Err? ==> r.error == ZeroDivisionError
    ensures r.Ok? ==> (r.value.Some? <==> |exeArgs| > 0)
    ensures r.Ok? && r.value.Some? ==> dph != 0 && r.value == Launch(exe, exeArgs, dph, runArgs, cps, gps)
  {
    if |exeArgs| == 0 then Ok(None)
    else if dph == 0 then Err(ZeroDivisionError)
    else Ok(Launch(exe, exeArgs, dph, runArgs, cps, gps))
  }

  /** The loop of `_build_run_settings`: the cpu and gpu counters restart
      whenever the host changes and advance by the per-shard counts. The
      result is the shard-by-shard launch above. */
  method BuildRunSettings(exe: string, exeArgs: seq<seq<string>>, dph: int,
                          runArgs: map<string, Option<string>>, cps: int, gps: int)
    returns (r: Result<Option<Mpmd>, LsfError>)
    ensures |exeArgs| == 0 ==> r == Ok(None)
    ensures |exeArgs| > 0 && dph == 0 ==> r == Err(ZeroDivisionError)
    ensures |exeArgs| > 0 && dph != 0 ==> r.Ok? && r.value.Some?
    ensures r.Ok? && r.value.Some? ==> |r.value.value.attached| + 1 == |exeArgs|
    ensures r == RunSettings(exe, exeArgs, dph, runArgs, cps, gps)
  {
    var args := Packed(runArgs);
    var oldHost: Option<int> := None;
    var assignedSmts := 0;
    var assignedGpus := 0;
    var shards: seq<ShardSettings> := [];
    var s := 0;
    while s < |exeArgs|
      invariant 0 <= s <= |exeArgs|
      invariant |shards| == s
      invariant s > 0 ==> dph != 0
      invariant forall i :: 0 <= i < s ==> shards[i] == ShardSettings(exe, exeArgs[i], args, "none", ErfSet(i, dph, cps, gps))
      invariant s == 0 ==> oldHost.None?
      invariant s > 0 ==> oldHost == Some(HostOf(s - 1, dph))
      invariant s > 0 ==> assignedSmts == (Slot(s - 1, dph) + 1) * cps
      invariant s > 0 ==> assignedGpus == (Slot(s - 1, dph) + 1) * gps
    {
      if dph == 0 {
        return Err(ZeroDivisionError);
      }
      var host := FloorDiv(s, dph);
      CountersStep(s, dph, oldHost, assignedSmts, assignedGpus, cps, gps);
      if oldHost != Some(host) {
        assignedSmts := 0;
        assignedGpus := 0;
      }
      oldHost := Some(host);
      assert assignedSmts == Slot(s, dph) * cps && assignedGpus == Slot(s, dph) * gps;
      var erf := ResourceSet(host, assignedSmts, assignedGpus, cps, gps);
      assignedSmts := assignedSmts + cps;
      assignedGpus := assignedGpus + gps;
      shards := shards + [ShardSettings(exe, exeArgs[s], args, "none", erf)];
      s := s + 1;
    }
    if |shards| == 0 {
      return Ok(None);
    }
    assert shards == ShardList(exe, exeArgs, dph, runArgs, cps, gps);
    r := Ok(Some(Mpmd(shards[0], shards[1..])));
  }

  lemma MulSucc(k: int, c: int)
    ensures (k + 1) * c == k * c + c
  {
  }

  /** The slot of shard `s` restarts at 0 when the host changes and
      otherwise follows the previous shard's. */
  lemma SlotStep(s: nat, dph: int)
    requires dph != 0
    ensures s == 0 ==> Slot(s, dph) == 0
    ensures s > 0 && HostOf(s - 1, dph) != HostOf(s, dph) ==> Slot(s, dph) == 0
    ensures s > 0 && HostOf(s - 1, dph) == HostOf(s, dph) ==> Slot(s, dph) == Slot(s - 1, dph) + 1
  {
  }

  /** One turn of the loop of `_build_run_settings`: after the reset on a
      host change, the counters hold the offsets of shard `s`, and after the
      increment those of the shard that follows it on the same host. */
  lemma CountersStep(s: nat, dph: int, oldHost: Option<int>, smts: int, gpus: int, cps: int, gps: int)
    requires dph != 0
    requires s == 0 ==> oldHost.None?
    requires s > 0 ==> oldHost == Some(HostOf(s - 1, dph))
    requires s > 0 ==> smts == (Slot(s - 1, dph) + 1) * cps && gpus == (Slot(s - 1, dph) + 1) * gps
    ensures oldHost != Some(HostOf(s, dph)) ==> Slot(s, dph) == 0
    ensures oldHost == Some(HostOf(s, dph)) ==> smts == Slot(s, dph) * cps && gpus == Slot(s, dph) * gps
    ensures (Slot(s, dph) + 1) * cps == Slot(s, dph) * cps + cps
    ensures (Slot(s, dph) + 1) * gps == Slot(s, dph) * gps + gps
  {
    SlotStep(s, dph);
    MulSucc(Slot(s, dph), cps);
    MulSucc(Slot(s, dph), gps);
  }

  /** With a positive number of shards per host, the slot of shard `s` is
      `s % dph`. */
  lemma {:induction false} SlotPositive(s: nat, dph: int)
    requires dph > 0
    ensures Slot(s, dph) == s % dph
    ensures HostOf(s, dph) == s / dph
    decreases s
  {
    var q, r := s / dph, s % dph;
    assert s == q * dph + r;
    SlotStep(s, dph);
    if s > 0 {
      SlotPositive(s - 1, dph);
      if r > 0 {
        assert s - 1 == q * dph + (r - 1);
        DivModUnique(s - 1, dph, q, r - 1);
      } else {
        MulSucc(q - 1, dph);
        assert s - 1 == (q - 1) * dph + (dph - 1);
        DivModUnique(s - 1, dph, q - 1, dph - 1);
      }
    }
  }

  /** The resource set of shard `s` in closed form: one rank on host
      `1 + s // dph`, cpus from `(s % dph) * cps`, and gpus from
      `(s % dph) * gps` only when the shard asks for any. */
  lemma ErfSetPositive(s: nat, dph: int, cps: int, gps: int)
    requires dph > 0
    ensures ErfEntries(ErfSet(s, dph, cps, gps))["rank_count"] == "1"
    ensures ErfEntries(ErfSet(s, dph, cps, gps))["host"] == IntToString(1 + s / dph)
    ensures ErfEntries(ErfSet(s, dph, cps, gps))["cpu"] == "{" + IntToString((s % dph) * cps) + ":" + IntToString(cps) + "}"
    ensures "gpu" in ErfEntries(ErfSet(s, dph, cps, gps)) <==> gps > 0
    ensures gps > 1 ==>
      ErfEntries(ErfSet(s, dph, cps, gps))["gpu"] == "{" + IntToString((s % dph) * gps) + "-" + IntToString((s % dph) * gps + gps - 1) + "}"
    ensures gps == 1 ==> ErfEntries(ErfSet(s, dph, cps, gps))["gpu"] == "{" + IntToString(s % dph) + "}"
  {
    SlotPositive(s, dph);
  }

  /** Two shards on the same host receive disjoint cpu ranges: the range
      of the earlier one ends before that of the later one starts. */
  lemma CpuRangesDisjoint(s: nat, t: nat, dph: int, cps: int, gps: int)
    requires dph > 0 && cps > 0 && s < t
    requires HostOf(s, dph) == HostOf(t, dph)
    ensures ErfSet(s, dph, cps, gps).cpu + cps <= ErfSet(t, dph, cps, gps).cpu
  {
    SlotPositive(s, dph);
    SlotPositive(t, dph);
    var q, i, j := s / dph, s % dph, t % dph;
    DivModSplit(s, dph);
    DivModSplit(t, dph);
    assert s == q * dph + i && t == q * dph + j;
    MulSucc(i, cps);
    MulMono(i + 1, j, cps);
  }

  /** Two shards name the same host in their ERF entries exactly when the
      launch places them on the same host. */
  lemma ErfHostsSeparate(s: nat, t: nat, dph: int, cps: int, gps: int)
    requires dph != 0
    ensures ErfEntries(ErfSet(s, dph, cps, gps))["host"] == ErfEntries(ErfSet(t, dph, cps, gps))["host"]
      <==> HostOf(s, dph) == HostOf(t, dph)
  {
    IntToStringInjective(1 + HostOf(s, dph), 1 + HostOf(t, dph));
  }

  // ---------------------------------------------------------------------------
  // Shards and ports (`_initialize_entities`)
  // ---------------------------------------------------------------------------

  /** What `_initialize_entities` reads from the orchestrator and the
      configuration: the database name and path, the redis executable and
      its configuration file, the module paths, run arguments, per-shard
      resource counts, and whether a host map was given. */
  datatype LaunchConfig = LaunchConfig(
    name: string,
    path: string,
    exe: string,
    dbConf: string,
    aiModule: string,
    ipModule: string,
    runArgs: map<string, Option<string>>,
    cpusPerShard: int,
    gpusPerShard: int,
    hasHostMap: bool)

  /** The cluster arguments the base orchestrator adds for a shard name and port. */
  type ClusterArgs = (string, int) -> seq<string>

  /** A `DBNode`: the database name and path, one launch for all shards, the
      ports of one host, whether it was handed the hostname converter, the
      shard id range `range(db_nodes)`, and the hosts assigned by `set_hosts`. */
  datatype DbNode = DbNode(
    name: string,
    path: string,
    runSettings: Option<Mpmd>,
    ports: seq<int>,
    hostConverter: bool,
    shardIds: nat,
    multihost: bool,
    hosts: Option<seq<string>>)

  /** The shard name `"_".join((name, str(id)))`. */
  function ShardName(name: string, id: int): string {
    name + "_" + IntToString(id)
  }

  /** Distinct shard ids give distinct shard names. */
  lemma ShardNameInjective(name: string, a: int, b: int)
    ensures ShardName(name, a) == ShardName(name, b) <==> a == b
  {
    var p := name + "_";
    if ShardName(name, a) == ShardName(name, b) {
      assert IntToString(a) == ShardName(name, a)[|p|..];
      assert IntToString(b) == ShardName(name, b)[|p|..];
      IntToStringInjective(a, b);
    }
  }

  /** One shard's place in the launch: the node name and shard id its name
      is built from, the port it listens on, and whether the cluster
      arguments follow. `CommandLine` renders it. */
  datatype ShardCommand = ShardCommand(name: string, id: int, port: int, cluster: bool)

  /** The redis command line of one shard. */
  function CommandLine(c: LaunchConfig, clusterArgs: ClusterArgs, cmd: ShardCommand): (r: seq<string>)
    ensures |r| >= 7 && r[..3] == [c.dbConf, c.aiModule, c.ipModule]
    ensures r[3] == "--port" && r[4] == IntToString(cmd.port)
    ensures r[5] == "--logfile" && r[6] == ShardName(cmd.name, cmd.id) + ".out"
    ensures cmd.cluster ==> r[7..] == clusterArgs(ShardName(cmd.name, cmd.id), cmd.port)
    ensures !cmd.cluster ==> |r| == 7
  {
    var shard := ShardName(cmd.name, cmd.id);
    [c.dbConf, c.aiModule, c.ipModule, "--port", IntToString(cmd.port), "--logfile", shard + ".out"]
      + (if cmd.cluster then clusterArgs(shard, cmd.port) else [])
  }

  /** The shards on host `dbId`, in port order. */
  function HostCommands(name: string, cluster: bool, dbId: int, dph: int, port: int): (r: seq<ShardCommand>)
    ensures |r| == RangeLength(dph)
  {
    seq(RangeLength(dph), o requires 0 <= o < RangeLength(dph) =>
      ShardCommand(name, dbId * dph + o, port + o, cluster))
  }

  function Flatten<T>(xss: seq<seq<T>>): seq<T>
    decreases |xss|
  {
    if |xss| == 0 then [] else xss[0] + Flatten(xss[1..])
  }

  lemma {:induction false} FlattenLength<T>(xss: seq<seq<T>>, m: nat)
    requires forall i :: 0 <= i < |xss| ==> |xss[i]| == m
    ensures |Flatten(xss)| == |xss| * m
    decreases |xss|
  {
    if |xss| > 0 {
      FlattenLength(xss[1..], m);
      MulSucc(|xss| - 1, m);
    }
  }

  /** Concatenating lists of length `m` lays element `s % m` of list
      `s / m` at index `s`. */
  lemma {:induction false} FlattenAt<T>(xss: seq<seq<T>>, m: nat, s: nat)
    requires m > 0
    requires forall i :: 0 <= i < |xss| ==> |xss[i]| == m
    requires s < |Flatten(xss)|
    ensures s / m < |xss|
    ensures Flatten(xss)[s] == xss[s / m][s % m]
    decreases |xss|
  {
    if s < m {
      DivModUnique(s, m, 0, s);
    } else {
      var rest := xss[1..];
      FlattenAt(rest, m, s - m);
      var q, r := (s - m) / m, (s - m) % m;
      DivModSplit(s - m, m);
      MulSucc(q, m);
      DivModUnique(s, m, q + 1, r);
    }
  }

  /** The shards `_initialize_entities` collects, host by host:
      `db_nodes // dph` hosts of `dph` shards each. */
  function HostsCommands(name: string, dbNodes: int, dph: int, port: int): (r: seq<seq<ShardCommand>>)
    requires dph != 0
    ensures |r| == RangeLength(FloorDiv(dbNodes, dph))
    ensures forall d :: 0 <= d < |r| ==> |r[d]| == RangeLength(dph)
  {
    seq(RangeLength(FloorDiv(dbNodes, dph)), d requires 0 <= d < RangeLength(FloorDiv(dbNodes, dph)) =>
      HostCommands(name, dbNodes >= 3, d, dph, port))
  }

  /** All shards in launch order. */
  function EntityCommands(name: string, dbNodes: int, dph: int, port: int): seq<ShardCommand>
    requires dph != 0
  {
    Flatten(HostsCommands(name, dbNodes, dph, port))
  }

  /** Shard `s` of the launch is named `name_s`, listens on `port + s % dph`,
      and carries the cluster arguments exactly when there are at least
      three shards. */
  lemma EntityCommandsAt(name: string, dbNodes: int, dph: int, port: int, s: nat)
    requires dph > 0
    requires s < |EntityCommands(name, dbNodes, dph, port)|
    ensures EntityCommands(name, dbNodes, dph, port)[s] == ShardCommand(name, s, port + s % dph, dbNodes >= 3)
  {
    FlattenAt(HostsCommands(name, dbNodes, dph, port), dph, s);
    ShardOnHost(name, dbNodes, dph, port, s);
  }

  /** Shard `s` is at place `s % dph` on host `s / dph`. */
  lemma ShardOnHost(name: string, dbNodes: int, dph: int, port: int, s: nat)
    requires dph > 0
    requires s / dph < |HostsCommands(name, dbNodes, dph, port)|
    ensures HostsCommands(name, dbNodes, dph, port)[s / dph][s % dph] == ShardCommand(name, s, port + s % dph, dbNodes >= 3)
  {
    HostsCommandsAt(name, dbNodes, dph, port, s / dph, s % dph);
    DivModSplit(s, dph);
  }

  lemma HostsCommandsAt(name: string, dbNodes: int, dph: int, port: int, d: nat, o: nat)
    requires dph > 0
    requires d < |HostsCommands(name, dbNodes, dph, port)| && o < dph
    ensures HostsCommands(name, dbNodes, dph, port)[d][o] == ShardCommand(name, d * dph + o, port + o, dbNodes >= 3)
  {
    var row := HostsCommands(name, dbNodes, dph, port)[d];
    assert row == HostCommands(name, dbNodes >= 3, d, dph, port);
  }

  /** The command lines of all shards, the `exe_args` of the launch. */
  function EntityArgs(c: LaunchConfig, clusterArgs: ClusterArgs, dbNodes: int, dph: int, port: int): (r: seq<seq<string>>)
    requires dph != 0
    ensures |r| == |EntityCommands(c.name, dbNodes, dph, port)|
    ensures forall s :: 0 <= s < |r| ==> r[s] == CommandLine(c, clusterArgs, EntityCommands(c.name, dbNodes, dph, port)[s])
  {
    var cmds := EntityCommands(c.name, dbNodes, dph, port);
    seq(|cmds|, s requires 0 <= s < |cmds| => CommandLine(c, clusterArgs, cmds[s]))
  }

  /** The shards launched are the `db_nodes // dph` full hosts, which is
      `db_nodes` exactly when `dph` divides it. */
  lemma EntityArgsCount(c: LaunchConfig, clusterArgs: ClusterArgs, dbNodes: int, dph: int, port: int)
    requires dph > 0
    ensures |EntityArgs(c, clusterArgs, dbNodes, dph, port)| == RangeLength(dbNodes / dph) * dph
    ensures dbNodes >= 0 ==> (|EntityArgs(c, clusterArgs, dbNodes, dph, port)| == dbNodes <==> dbNodes % dph == 0)
  {
    FlattenLength(HostsCommands(c.name, dbNodes, dph, port), dph);
    if dbNodes >= 0 {
      WholeHosts(dbNodes, dph);
    }
  }

  lemma WholeHosts(n: int, d: int)
    requires n >= 0 && d > 0
    ensures RangeLength(n / d) * d == n <==> n % d == 0
  {
    DivModSplit(n, d);
  }

  /** `_initialize_entities`: refuses two shards, divides by `db_per_host`,
      builds the launch and one node holding the ports of the last host.
      `ports` is only bound inside the loop, so with no full host the
      function fails when it reads it. */
  function InitializeEntities(c: LaunchConfig, clusterArgs: ClusterArgs, dbNodes: int, dph: int, port: int): (r: Result<DbNode, LsfError>)
    ensures dbNodes == 2 ==> r == Err(UnsupportedError("Orchestrator does not support clusters of size 2"))
    ensures dbNodes != 2 && dph == 0 ==> r == Err(ZeroDivisionError)
    ensures dbNodes != 2 && dph != 0 && FloorDiv(dbNodes, dph) <= 0 ==> r == Err(UnboundLocalError("ports"))
    ensures r.Ok? <==> dbNodes != 2 && dph != 0 && FloorDiv(dbNodes, dph) > 0
    ensures r.Ok? ==> |r.value.ports| == RangeLength(dph)
    ensures r.Ok? ==> forall o :: 0 <= o < |r.value.ports| ==> r.value.ports[o] == port + o
    ensures r.Ok? ==> r.value.name == c.name && r.value.shardIds == RangeLength(dbNodes)
    ensures r.Ok? ==> r.value.path == c.path
    ensures r.Ok? ==> (r.value.hostConverter <==> c.hasHostMap)
    ensures r.Ok? ==> r.value.multihost && r.value.hosts.None?
    ensures r.Ok? ==> (r.value.runSettings.Some? <==> dph > 0)
    ensures r.Ok? ==> dph != 0
    ensures r.Ok? ==> r.value.runSettings == Launch(c.exe, EntityArgs(c, clusterArgs, dbNodes, dph, port), dph, c.runArgs, c.cpusPerShard, c.gpusPerShard)
  {
    if dbNodes == 2 then Err(UnsupportedError("Orchestrator does not support clusters of size 2"))
    else if dph == 0 then Err(ZeroDivisionError)
    else
      var exeArgs := EntityArgs(c, clusterArgs, dbNodes, dph, port);
      assert dph > 0 && FloorDiv(dbNodes, dph) > 0 ==> |exeArgs| > 0 by {
        if dph > 0 && FloorDiv(dbNodes, dph) > 0 {
          EntityArgsCount(c, clusterArgs, dbNodes, dph, port);
        }
      }
      assert dph < 0 ==> |exeArgs| == 0 by {
        if dph < 0 {
          FlattenLength(HostsCommands(c.name, dbNodes, dph, port), 0);
        }
      }
      var runSettings := Launch(c.exe, exeArgs, dph, c.runArgs, c.cpusPerShard, c.gpusPerShard);
      if FloorDiv(dbNodes, dph) <= 0 then Err(UnboundLocalError("ports"))
      else
        var ports := seq(RangeLength(dph), o requires 0 <= o < RangeLength(dph) => port + o);
        Ok(DbNode(c.name, c.path, runSettings, ports, c.hasHostMap, RangeLength(dbNodes), true, None))
  }

  /** Shard `s` of the launch `_initialize_entities` builds runs redis under
      the name `name_s` on port `port + s % dph`, with the run arguments of
      the configuration and the resource set of its place on its host. */
  lemma InitializedShard(c: LaunchConfig, clusterArgs: ClusterArgs, dbNodes: int, dph: int, port: int, s: nat)
    requires InitializeEntities(c, clusterArgs, dbNodes, dph, port).Ok? && dph > 0
    requires s < |EntityArgs(c, clusterArgs, dbNodes, dph, port)|
    ensures InitializeEntities(c, clusterArgs, dbNodes, dph, port).value.runSettings.Some?
    ensures var m := InitializeEntities(c, clusterArgs, dbNodes, dph, port).value.runSettings.value;
      s < |Shards(m)|
      && Shards(m)[s] == ShardSettings(c.exe,
        CommandLine(c, clusterArgs, ShardCommand(c.name, s, port + s % dph, dbNodes >= 3)),
        Packed(c.runArgs), "none", ErfSet(s, dph, c.cpusPerShard, c.gpusPerShard))
  {
    EntityCommandsAt(c.name, dbNodes, dph, port, s);
  }

  /** Every shard of the launch writes its own log file. */
  lemma LogFilesDistinct(c: LaunchConfig, clusterArgs: ClusterArgs, dbNodes: int, dph: int, port: int, s: nat, t: nat)
    requires dph > 0
    requires s < t < |EntityArgs(c, clusterArgs, dbNodes, dph, port)|
    ensures EntityArgs(c, clusterArgs, dbNodes, dph, port)[s][6] != EntityArgs(c, clusterArgs, dbNodes, dph, port)[t][6]
  {
    var args := EntityArgs(c, clusterArgs, dbNodes, dph, port);
    EntityCommandsAt(c.name, dbNodes, dph, port, s);
    EntityCommandsAt(c.name, dbNodes, dph, port, t);
    var a, b := ShardName(c.name, s), ShardName(c.name, t);
    assert args[s][6] == a + ".out" && args[t][6] == b + ".out";
    if a + ".out" == b + ".out" {
      assert a == (a + ".out")[..|a + ".out"| - 4];
      assert b == (b + ".out")[..|b + ".out"| - 4];
      ShardNameInjective(c.name, s, t);
    }
  }

  /** The number of shards the launch places equals `num_shards` only when
      `dph` divides `db_nodes`: five shards two per host launch four. */
  lemma ShardCountShortfall(c: LaunchConfig, clusterArgs: ClusterArgs)
    ensures InitializeEntities(c, clusterArgs, 5, 2, 6379).Ok?
    ensures InitializeEntities(c, clusterArgs, 5, 2, 6379).value.shardIds == 5
    ensures |EntityArgs(c, clusterArgs, 5, 2, 6379)| == 4
  {
    EntityArgsCount(c, clusterArgs, 5, 2, 6379);
  }

  // ---------------------------------------------------------------------------
  // Batch settings and argument setters
  // ---------------------------------------------------------------------------

  /** A `BsubBatchSettings` as far as the orchestrator fills it in. */
  datatype BatchSettings = BatchSettings(
    nodes: int,
    time: Option<string>,
    project: Option<string>,
    smts: int,
    hostList: Option<seq<string>>,
    batchArgs: map<string, Option<string>>)

  /** `_build_batch_settings`: a batch launch asks for `db_nodes // dph` nodes. */
  function BuildBatchSettings(dbNodes: int, batch: bool, project: Option<string>, time: Option<string>,
                              dph: int, smts: int): (r: Result<Option<BatchSettings>, LsfError>)
    ensures !batch ==> r == Ok(None)
    ensures batch ==> (r.Ok? <==> dph != 0)
    ensures batch && dph == 0 ==> r == Err(ZeroDivisionError)
    ensures r.Ok? && batch ==> r.value.Some? && r.value.value.time == time && r.value.value.project == project
    ensures r.Ok? && batch ==> r.value.value.smts == smts && r.value.value.hostList.None? && r.value.value.batchArgs == map[]
    ensures r.Ok? && batch && dph > 0 ==> r.value.value.nodes * dph <= dbNodes < r.value.value.nodes * dph + dph
    ensures r.Ok? && batch && dph < 0 ==> r.value.value.nodes * dph + dph < dbNodes <= r.value.value.nodes * dph
  {
    if !batch then Ok(None)
    else if dph == 0 then Err(ZeroDivisionError)
    else
      FloorDivIsFloor(dbNodes, dph);
      Ok(Some(BatchSettings(FloorDiv(dbNodes, dph), time, project, smts, None, map[])))
  }

  /** The batch job asks for exactly the hosts the shards fill. */
  lemma BatchNodesMatchShards(c: LaunchConfig, clusterArgs: ClusterArgs, dbNodes: int, dph: int, port: int,
                              project: Option<string>, time: Option<string>, smts: int)
    requires dph > 0
    ensures BuildBatchSettings(dbNodes, true, project, time, dph, smts).Ok?
    ensures |EntityArgs(c, clusterArgs, dbNodes, dph, port)| ==
      RangeLength(BuildBatchSettings(dbNodes, true, project, time, dph, smts).value.value.nodes) * dph
  {
    EntityArgsCount(c, clusterArgs, dbNodes, dph, port);
  }

  /** The orchestrator state the setters touch: the batch settings (present
      exactly when launching as a batch) and the database nodes. */
  datatype Orchestrator = Orchestrator(batchSettings: Option<BatchSettings>, entities: seq<DbNode>)
  {
    predicate Batch() {
      batchSettings.Some?
    }
  }

  /** The run arguments the ERF makes meaningless (`_fill_reserved`). */
  const ReservedRunArgs: seq<string> := [
    "chdir", "h", "stdio_stdout", "o", "stdio_stderr", "k", "tasks_per_rs", "a", "np", "p",
    "cpu_per_rs", "c", "gpu_per_rs", "g", "latency_priority", "l", "memory_per_rs", "m",
    "nrs", "n", "rs_per_host", "r", "rs_per_socket", "K", "appfile", "f", "allocate_only", "A",
    "launch_node_task", "H", "use_reservation", "J", "use_resources", "bind", "b",
    "launch_distribution", "d"]

  /** The batch arguments the orchestrator sets itself (`_fill_reserved`). */
  const ReservedBatchArgs: seq<string> := ["J", "o", "e", "m", "n", "nnodes"]

  /** `set_walltime`: only a batch launch has a walltime. */
  function SetWalltime(o: Orchestrator, walltime: string): (r: Result<Orchestrator, LsfError>)
    ensures r.Err? <==> !o.Batch()
    ensures r.Err? ==> r.error == SmartSimError("Not running as batch, cannot set walltime")
    ensures r.Ok? ==> r.value.entities == o.entities && r.value.Batch()
    ensures r.Ok? ==> r.value.batchSettings.value == o.batchSettings.value.(time := Some(walltime))
  {
    if !o.Batch() then Err(SmartSimError("Not running as batch, cannot set walltime"))
    else Ok(o.(batchSettings := Some(o.batchSettings.value.(time := Some(walltime)))))
  }

  /** `set_batch_arg`: refuses outside batch mode, ignores a reserved name,
      and otherwise writes the argument. */
  function SetBatchArg(o: Orchestrator, arg: string, value: Option<string>): (r: Result<Orchestrator, LsfError>)
    ensures r.Err? <==> !o.Batch()
    ensures r.Err? ==> r.error == SmartSimError("Not running as batch, cannot set batch_arg")
    ensures r.Ok? && arg in ReservedBatchArgs ==> r.value == o
    ensures r.Ok? && arg !in ReservedBatchArgs ==> r.value.entities == o.entities && r.value.Batch()
    ensures r.Ok? && arg !in ReservedBatchArgs ==>
      r.value.batchSettings.value == o.batchSettings.value.(batchArgs := o.batchSettings.value.batchArgs[arg := value])
  {
    if !o.Batch() then Err(SmartSimError("Not running as batch, cannot set batch_arg"))
    else if arg in ReservedBatchArgs then Ok(o)
    else
      var b := o.batchSettings.value;
      Ok(o.(batchSettings := Some(b.(batchArgs := b.batchArgs[arg := value]))))
  }

  /** Writes a run argument into the launch of every node. */
  function WriteRunArg(entities: seq<DbNode>, arg: string, value: Option<string>): (r: Result<seq<DbNode>, LsfError>)
    ensures r.Err? <==> exists i :: 0 <= i < |entities| && entities[i].runSettings.None?
    ensures r.Err? ==> r.error == AttributeError("'NoneType' object has no attribute 'run_args'")
    ensures r.Ok? ==> |r.value| == |entities|
    ensures r.Ok? ==> forall i :: 0 <= i < |entities| ==>
      r.value[i] == entities[i].(runSettings := Some(entities[i].runSettings.value.(head :=
        entities[i].runSettings.value.head.(runArgs := entities[i].runSettings.value.head.runArgs[arg := value]))))
    decreases |entities|
  {
    if |entities| == 0 then Ok([])
    else
      var e := entities[0];
      if e.runSettings.None? then Err(AttributeError("'NoneType' object has no attribute 'run_args'"))
      else
        var rest :- WriteRunArg(entities[1..], arg, value);
        var h := e.runSettings.value.head;
        Ok([e.(runSettings := Some(e.runSettings.value.(head := h.(runArgs := h.runArgs[arg := value]))))] + rest)
  }

  /** `set_run_arg`: the reserved names are looked up under the type of the
      first node's launch, so an orchestrator without nodes, or whose first
      node has no launch, fails before any argument is written. */
  function SetRunArg(o: Orchestrator, arg: string, value: Option<string>): (r: Result<Orchestrator, LsfError>)
    ensures |o.entities| == 0 ==> r == Err(IndexError)
    ensures |o.entities| > 0 && o.entities[0].runSettings.None? ==> r == Err(KeyError("NoneType"))
    ensures r.Ok? && arg in ReservedRunArgs ==> r.value == o
    ensures r.Ok? ==> r.value.batchSettings == o.batchSettings && |r.value.entities| == |o.entities|
    ensures arg !in ReservedRunArgs && (forall i :: 0 <= i < |o.entities| ==> o.entities[i].runSettings.Some?) ==>
      (r.Ok? <==> |o.entities| > 0)
    ensures r.Ok? && arg !in ReservedRunArgs ==> forall i :: 0 <= i < |o.entities| ==>
      o.entities[i].runSettings.Some? && r.value.entities[i].runSettings.Some? &&
      r.value.entities[i].runSettings.value.head.runArgs == o.entities[i].runSettings.value.head.runArgs[arg := value]
    ensures r.Ok? && arg !in ReservedRunArgs ==>
      WriteRunArg(o.entities, arg, value).Ok? && r.value == o.(entities := WriteRunArg(o.entities, arg, value).value)
  {
    if |o.entities| == 0 then Err(IndexError)
    else if o.entities[0].runSettings.None? then Err(KeyError("NoneType"))
    else if arg in ReservedRunArgs then Ok(o)
    else
      var entities :- WriteRunArg(o.entities, arg, value);
      Ok(o.(entities := entities))
  }

  /** The orchestrator launches its shards packed, and no later run argument
      can change that. */
  lemma LaunchStaysPacked(o: Orchestrator, value: Option<string>)
    ensures SetRunArg(o, "launch_distribution", value).Ok? ==> SetRunArg(o, "launch_distribution", value).value == o
  {
    assert ReservedRunArgs[35] == "launch_distribution";
  }

  // ---------------------------------------------------------------------------
  // Hosts (`convert_hostnames`, `set_hosts`)
  // ---------------------------------------------------------------------------

  /** What a hostname converter returns: a string or some other object. */
  datatype HostValue = HostName(text: string) | NotAString(repr: string)

  /** A hostname converter, as supplied through `host_map`. */
  type HostMap = string -> HostValue

  /** The longest hostname kept. */
  const MaxHostLength := 256

  function Truncate(h: string): (t: string)
    ensures |t| <= MaxHostLength
    ensures t <= h
    ensures |h| <= MaxHostLength ==> t == h
    ensures |h| > MaxHostLength ==> t == h[..MaxHostLength]
  {
    if |h| > MaxHostLength then h[..MaxHostLength] else h
  }

  /** A converted hostname is kept when it is a string that, cut to 256
      characters, holds at most one whitespace-separated token. */
  predicate Acceptable(v: HostValue) {
    v.HostName? && TokenCount(Truncate(v.text)) <= 1
  }

  /** The error the first unacceptable conversion raises. */
  function ConversionError(host: string, v: HostValue): LsfError {
    if v.NotAString? then TypeError("Converter function must return string")
    else ValueError("Converter must return single value for hostname " + host
                    + ", but returned \"" + Truncate(v.text) + "\".")
  }

  /** The position of the first host whose conversion is unacceptable, or
      the number of hosts when there is none. */
  function FirstUnacceptable(hostMap: HostMap, hosts: seq<string>): (k: nat)
    ensures k <= |hosts|
    ensures forall j :: 0 <= j < k ==> Acceptable(hostMap(hosts[j]))
    ensures k < |hosts| ==> !Acceptable(hostMap(hosts[k]))
    decreases |hosts|
  {
    if |hosts| == 0 || !Acceptable(hostMap(hosts[0])) then 0
    else
      var k := FirstUnacceptable(hostMap, hosts[1..]);
      assert forall j :: 1 <= j < k + 1 ==> hosts[j] == hosts[1..][j - 1];
      k + 1
  }

  /** `convert_hostnames` with a converter present: converts every host in
      order and stops at the first unacceptable result. */
  function ConvertAll(hostMap: HostMap, hosts: seq<string>): (r: Result<seq<string>, LsfError>)
    ensures r.Ok? <==> FirstUnacceptable(hostMap, hosts) == |hosts|
    ensures r.Ok? ==> |r.value| == |hosts|
    ensures r.Ok? ==> forall i :: 0 <= i < |hosts| ==> r.value[i] == Truncate(hostMap(hosts[i]).text)
    ensures r.Err? ==> r.error == ConversionError(hosts[FirstUnacceptable(hostMap, hosts)],
                                                  hostMap(hosts[FirstUnacceptable(hostMap, hosts)]))
    decreases |hosts|
  {
    if |hosts| == 0 then Ok([])
    else
      var v := hostMap(hosts[0]);
      if !Acceptable(v) then Err(ConversionError(hosts[0], v))
      else
        var rest :- ConvertAll(hostMap, hosts[1..]);
        Ok([Truncate(v.text)] + rest)
  }

  /** The conversion succeeds exactly when every host converts to an
      acceptable name. */
  lemma ConvertAllSucceeds(hostMap: HostMap, hosts: seq<string>)
    ensures ConvertAll(hostMap, hosts).Ok? <==> forall i :: 0 <= i < |hosts| ==> Acceptable(hostMap(hosts[i]))
  {
  }

  /** `convert_hostnames`: without a converter the hosts are returned as given. */
  function ConvertHostnames(hostMap: Option<HostMap>, hosts: seq<string>): (r: Result<seq<string>, LsfError>)
    ensures hostMap.None? ==> r == Ok(hosts)
    ensures hostMap.Some? ==> r == ConvertAll(hostMap.value, hosts)
  {
    if hostMap.None? then Ok(hosts) else ConvertAll(hostMap.value, hosts)
  }

  /** Every converted hostname is at most 256 characters long and holds no
      whitespace between visible characters. */
  lemma ConvertedHostsClean(hostMap: HostMap, hosts: seq<string>, i: int)
    requires ConvertAll(hostMap, hosts).Ok?
    requires 0 <= i < |hosts|
    ensures |ConvertAll(hostMap, hosts).value[i]| <= MaxHostLength
    ensures !HasInnerSpace(ConvertAll(hostMap, hosts).value[i])
  {
    TokenCountMany(Truncate(hostMap(hosts[i]).text));
  }

  /** `xs` without its empty strings, the others kept in order. */
  function WithoutEmpty(xs: seq<string>): (r: seq<string>)
    ensures |r| <= |xs|
    ensures "" !in r
    ensures forall x :: x in r <==> x in xs && x != ""
    decreases |xs|
  {
    if |xs| == 0 then []
    else if xs[0] == "" then WithoutEmpty(xs[1..])
    else [xs[0]] + WithoutEmpty(xs[1..])
  }

  /** Dropping the empty names of a concatenation drops them from each part. */
  lemma {:induction false} WithoutEmptyConcat(a: seq<string>, b: seq<string>)
    ensures WithoutEmpty(a + b) == WithoutEmpty(a) + WithoutEmpty(b)
    decreases |a|
  {
    if |a| > 0 {
      assert (a + b)[1..] == a[1..] + b;
      WithoutEmptyConcat(a[1..], b);
    } else {
      assert a + b == b;
    }
  }

  /** A single name survives exactly when it is not empty. */
  lemma WithoutEmptySingle(x: string)
    ensures WithoutEmpty([x]) == if x == "" then [] else [x]
  {
  }

  /** Where `x` first occurs in `xs`. */
  function FirstIndex(xs: seq<string>, x: string): (k: nat)
    requires x in xs
    ensures k < |xs| && xs[k] == x && x !in xs[..k]
    decreases |xs|
  {
    if xs[0] == x then 0
    else
      assert x in xs[1..] by {
        var k :| 0 <= k < |xs| && xs[k] == x;
        assert xs[1..][k - 1] == x;
      }
      var k := FirstIndex(xs[1..], x);
      assert xs[..k + 1] == [xs[0]] + xs[1..][..k];
      k + 1
  }

  /** Python's `xs.remove(x)`: drops the first occurrence. */
  function RemoveFirst(xs: seq<string>, x: string): (r: seq<string>)
    requires x in xs
    ensures |r| == |xs| - 1
    ensures r == xs[..FirstIndex(xs, x)] + xs[FirstIndex(xs, x) + 1..]
    decreases |xs|
  {
    if xs[0] == x then xs[1..]
    else
      RemoveFirstStep(xs, x);
      [xs[0]] + RemoveFirst(xs[1..], x)
  }

  /** When `xs` does not start with `x`, its first `x` is one place after
      the first `x` of its tail, and cutting it out commutes with the head. */
  lemma RemoveFirstStep(xs: seq<string>, x: string)
    requires x in xs && xs[0] != x
    ensures x in xs[1..]
    ensures FirstIndex(xs, x) == FirstIndex(xs[1..], x) + 1
    ensures var k := FirstIndex(xs[1..], x);
      xs[..k + 1] + xs[k + 2..] == [xs[0]] + (xs[1..][..k] + xs[1..][k + 1..])
  {
    CutAfterHead(xs, FirstIndex(xs[1..], x));
  }

  /** Cutting out place `k + 1` of `xs` keeps its head and cuts place `k` of its tail. */
  lemma CutAfterHead(xs: seq<string>, k: nat)
    requires k + 1 < |xs|
    ensures xs[..k + 1] + xs[k + 2..] == [xs[0]] + (xs[1..][..k] + xs[1..][k + 1..])
  {
    assert xs[..k + 1] == [xs[0]] + xs[1..][..k];
    assert xs[k + 2..] == xs[1..][k + 1..];
  }

  lemma {:induction false} RemoveFirstEmpty(xs: seq<string>)
    requires "" in xs
    ensures WithoutEmpty(RemoveFirst(xs, "")) == WithoutEmpty(xs)
    decreases |xs|
  {
    if xs[0] != "" {
      assert "" in xs[1..] by {
        var k :| 0 <= k < |xs| && xs[k] == "";
        assert xs[1..][k - 1] == "";
      }
      RemoveFirstEmpty(xs[1..]);
      assert RemoveFirst(xs, "")[1..] == RemoveFirst(xs[1..], "");
    }
  }

  lemma {:induction false} WithoutEmptyUnchanged(xs: seq<string>)
    requires "" !in xs
    ensures WithoutEmpty(xs) == xs
    decreases |xs|
  {
    if |xs| > 0 {
      assert "" !in xs[1..] by {
        forall k | 0 <= k < |xs[1..]| ensures xs[1..][k] != "" {
          assert xs[1..][k] == xs[k + 1];
        }
      }
      WithoutEmptyUnchanged(xs[1..]);
      assert xs == [xs[0]] + xs[1..];
    }
  }

  /** The loop `while "" in hosts: hosts.remove("")` of `set_hosts`. */
  method RemoveEmptyHosts(hosts: seq<string>) returns (r: seq<string>)
    ensures r == WithoutEmpty(hosts)
  {
    r := hosts;
    while "" in r
      invariant WithoutEmpty(r) == WithoutEmpty(hosts)
      decreases |r|
    {
      RemoveFirstEmpty(r);
      r := RemoveFirst(r, "");
    }
    WithoutEmptyUnchanged(r);
  }

  /** What `set_hosts` accepts: a single hostname, a list, or something else. */
  datatype HostListArg = OneHost(host: string) | HostList(items: seq<HostValue>) | OtherArg(repr: string)

  predicate AllNames(items: seq<HostValue>) {
    forall i :: 0 <= i < |items| ==> items[i].HostName?
  }

  function Names(items: seq<HostValue>): (r: seq<string>)
    requires AllNames(items)
    ensures |r| == |items|
    ensures forall i :: 0 <= i < |items| ==> r[i] == items[i].text
  {
    seq(|items|, i requires 0 <= i < |items| => items[i].text)
  }

  /** The host list `set_hosts` hands to the batch settings: a single name
      stripped of surrounding whitespace, or a list of names as given. */
  function HostNames(arg: HostListArg): (r: Result<seq<string>, LsfError>)
    ensures arg.OneHost? ==> r == Ok([Strip(arg.host)])
    ensures arg.OtherArg? ==> r == Err(TypeError("host_list argument must be a list of strings"))
    ensures arg.HostList? ==> (r.Ok? <==> AllNames(arg.items))
    ensures arg.HostList? && r.Err? ==> r.error == TypeError("host_list argument must be list of strings")
    ensures arg.HostList? && r.Ok? ==> r.value == Names(arg.items)
  {
    match arg
    case OneHost(h) => Ok([Strip(h)])
    case OtherArg(_) => Err(TypeError("host_list argument must be a list of strings"))
    case HostList(items) =>
      if AllNames(items) then Ok(Names(items))
      else Err(TypeError("host_list argument must be list of strings"))
  }

  /** `set_hosts`: the batch settings receive the host list as given, and
      every node receives the converted list without its empty names. */
  function SetHosts(o: Orchestrator, hostMap: Option<HostMap>, arg: HostListArg): (r: Result<Orchestrator, LsfError>)
    ensures HostNames(arg).Err? ==> r == Err(HostNames(arg).error)
    ensures HostNames(arg).Ok? && hostMap.None? ==> r.Ok?
    ensures HostNames(arg).Ok? && hostMap.Some? ==>
      (r.Ok? <==> ConvertAll(hostMap.value, HostNames(arg).value).Ok?)
    ensures r.Ok? ==> |r.value.entities| == |o.entities|
    ensures r.Ok? ==> r.value.Batch() == o.Batch()
    ensures r.Ok? && o.Batch() ==>
      r.value.batchSettings.value == o.batchSettings.value.(hostList := Some(HostNames(arg).value))
    ensures r.Ok? && hostMap.None? ==> forall i :: 0 <= i < |o.entities| ==>
      r.value.entities[i] == o.entities[i].(hosts := Some(HostNames(arg).value))
    ensures r.Ok? && hostMap.Some? ==> forall i :: 0 <= i < |o.entities| ==>
      r.value.entities[i] == o.entities[i].(hosts := Some(WithoutEmpty(ConvertAll(hostMap.value, HostNames(arg).value).value)))
  {
    var hosts :- HostNames(arg);
    var highSpeed :- if hostMap.Some? then
      (var converted :- ConvertHostnames(hostMap, hosts); Ok(WithoutEmpty(converted)))
      else Ok(hosts);
    var batchSettings := if o.Batch() then Some(o.batchSettings.value.(hostList := Some(hosts))) else None;
    var entities := seq(|o.entities|, i requires 0 <= i < |o.entities| => o.entities[i].(hosts := Some(highSpeed)));
    Ok(Orchestrator(batchSettings, entities))
  }

}
