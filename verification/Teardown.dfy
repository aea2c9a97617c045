/** The teardown of the three environments (bootstrap-rs/src/teardown.rs, `run_teardown` and its
    steps): the trace of actions as a function of what the outside answers, and the methods that
    produce it. */
module Teardown {
  import opened Waiting

  datatype Host = Kind | SelfManaged | Unreachable

  datatype Guard = ConfirmedGone | Forced | Refuse

  /** Each listing or look carries what was read and, beside it, what was the case. */
  datatype Action =
    | SuspendFlux
    | SuspendWorkload
    | ListClusters(seen: set<string>, actual: set<string>)
    | DeleteClusters(names: set<string>)
    | LookFor(workload: string, found: bool, present: bool)
    | DeleteWorkload(workload: string)
    | Sleep(seconds: nat)
    | Sweep
    | DeleteProviders
    | UninstallHelm
    | DeleteKind
    | RemoveContainers
    | RemoveRegistry

  datatype Outcome = Done | Failed

  /** What the outside answers: the `i`-th listing of Clusters as read and as it should read, and
      the clock in the rounds of the wait. */
  datatype Outside = Outside(tools: bool, awsCli: bool, kindReachable: bool, mgmtReachable: bool,
                             seen: nat -> set<string>, actual: nat -> set<string>, clock: nat -> nat)

  datatype Config = Config(awsOnly: bool, mgmtCluster: string, timeout: nat)

  /** No listing failed or was cut short. */
  ghost predicate Faithful(o: Outside) {
    forall i: nat :: o.seen(i) == o.actual(i)
  }

  /** Sleeping takes the time it should. */
  ghost predicate Steady(o: Outside) {
    forall i: nat {:trigger SleptIn(o, i)} :: SleptIn(o, i)
  }

  predicate SleptIn(o: Outside, i: nat) { o.clock(i) + PAUSE <= o.clock(i + 1) }

  const PAUSE: nat := 30

  /** The wait for all Clusters outside `spared`. */
  function Remaining(o: Outside, spared: set<string>, timeout: nat): Watch {
    Watch((i: nat) => o.seen(i + 1) - spared == {}, o.clock, timeout)
  }

  lemma SteadyTicks(o: Outside, spared: set<string>, timeout: nat)
    requires Steady(o)
    ensures Ticks(Remaining(o, spared, timeout), PAUSE)
  {
    forall i: nat ensures Tick(Remaining(o, spared, timeout), PAUSE, i) { assert SleptIn(o, i); }
  }

  ghost predicate SeenToGo(o: Outside, spared: set<string>, timeout: nat)
    requires Steady(o)
  {
    SteadyTicks(o, spared, timeout);
    Confirmed(Remaining(o, spared, timeout), PAUSE)
  }

  /** How often the wait sleeps. */
  ghost function Pausing(o: Outside, spared: set<string>, timeout: nat): (n: nat)
    requires Steady(o)
    ensures SeenToGo(o, spared, timeout) <==> o.seen(n + 1) - spared == {}
  {
    SteadyTicks(o, spared, timeout);
    LastRound(Remaining(o, spared, timeout), PAUSE, 0)
  }

  /** The wait ends well exactly when some listing after the first shows nothing but `spared` and
      the deadline was not reached in any round before it. */
  lemma SeenToGoIff(o: Outside, spared: set<string>, timeout: nat)
    requires Steady(o)
    ensures SeenToGo(o, spared, timeout) <==>
            exists r: nat :: r > 0 && o.seen(r) - spared == {} && forall k :: 0 <= k < r - 1 ==> o.clock(k) < timeout
  {
    SteadyTicks(o, spared, timeout);
    var w := Remaining(o, spared, timeout);
    ConfirmedIff(w, PAUSE);
    if SeenToGo(o, spared, timeout) {
      var r: nat :| w.gone(r) && forall k :: 0 <= k < r ==> w.clock(k) < w.timeout;
      assert o.seen(r + 1) - spared == {};
    }
    if r: nat :| r > 0 && o.seen(r) - spared == {} && forall k :: 0 <= k < r - 1 ==> o.clock(k) < timeout {
      assert w.gone(r - 1);
    }
  }

  function Resolve(gone: bool, force: bool): Guard {
    if force then Forced else if gone then ConfirmedGone else Refuse
  }

  function Discover(o: Outside): Host {
    if o.kindReachable then Kind else if o.mgmtReachable then SelfManaged else Unreachable
  }

  function Listing(o: Outside, i: nat): Action { ListClusters(o.seen(i), o.actual(i)) }

  /** The `rounds` listings of a wait, each of them followed by a sleep. */
  function Pauses(o: Outside, rounds: nat): seq<Action> {
    if rounds == 0 then [] else Pauses(o, rounds - 1) + [Listing(o, rounds), Sleep(PAUSE)]
  }

  /** A wait of `rounds + 1` listings. */
  function Looks(o: Outside, rounds: nat): seq<Action> {
    Pauses(o, rounds) + [Listing(o, rounds + 1)]
  }

  lemma {:induction false} PausesInFull(o: Outside, rounds: nat)
    ensures |Pauses(o, rounds)| == 2 * rounds
    ensures forall k :: 0 <= k < 2 * rounds ==>
      Pauses(o, rounds)[k] == if k % 2 == 0 then ListClusters(o.seen(k / 2 + 1), o.actual(k / 2 + 1)) else Sleep(30)
  {
    if rounds > 0 { PausesInFull(o, rounds - 1); }
  }

  /** A wait, action by action: listings with half a minute between them, the last of them the
      first that shows nothing but `spared` or is followed by a clock at or past the deadline. */
  lemma WaitInFull(o: Outside, spared: set<string>, timeout: nat) returns (wait: seq<Action>)
    requires Steady(o)
    ensures wait == Looks(o, Pausing(o, spared, timeout))
    ensures |wait| % 2 == 1
    ensures forall k :: 0 <= k < |wait| ==>
      wait[k] == if k % 2 == 0 then ListClusters(o.seen(k / 2 + 1), o.actual(k / 2 + 1)) else Sleep(30)
    ensures forall r :: 0 < r <= |wait| / 2 ==> o.seen(r) - spared != {}
    ensures forall k :: 0 <= k < |wait| / 2 ==> o.clock(k) < timeout
    ensures o.seen(|wait| / 2 + 1) - spared == {} || o.clock(|wait| / 2) >= timeout
  {
    var last := Pausing(o, spared, timeout);
    PausesInFull(o, last);
    wait := Looks(o, last);
    forall r | 0 < r <= last ensures o.seen(r) - spared != {} { Rounds(o, spared, timeout, r - 1); }
    forall k | 0 <= k < last ensures o.clock(k) < timeout { Rounds(o, spared, timeout, k); }
    Rounds(o, spared, timeout, last);
  }

  lemma {:induction false} LooksAreHarmless(o: Outside, rounds: nat)
    ensures forall a :: a in Pauses(o, rounds) ==> a.ListClusters? || a.Sleep?
  {
    if rounds > 0 { LooksAreHarmless(o, rounds - 1); }
  }

  /** The run so far. */
  class Run {
    var trace: seq<Action>

    constructor ()
      ensures trace == []
    {
      trace := [];
    }

    method Do(a: Action)
      modifies this
      ensures trace == old(trace) + [a]
    {
      trace := trace + [a];
    }
  }

  /** The rounds of the wait: each but the last finds something and has time left. */
  lemma Rounds(o: Outside, spared: set<string>, timeout: nat, i: nat)
    requires Steady(o) && i <= Pausing(o, spared, timeout)
    ensures i < Pausing(o, spared, timeout) <==> o.seen(i + 1) - spared != {} && o.clock(i) < timeout
  {
    SteadyTicks(o, spared, timeout);
    var w := Remaining(o, spared, timeout);
    assert GoesOn(w, i) <==> o.seen(i + 1) - spared != {} && o.clock(i) < timeout;
    assert i < Pausing(o, spared, timeout) ==> GoesOn(w, i);
  }

  lemma PauseOnce(o: Outside, i: nat, start: seq<Action>)
    ensures start + Pauses(o, i) + [Listing(o, i + 1)] + [Sleep(PAUSE)] == start + Pauses(o, i + 1)
    ensures start + Pauses(o, i) + [Listing(o, i + 1)] == start + Looks(o, i)
  {
  }

  /** Wait until no Cluster outside `spared` is listed any more, or the time is up. */
  method WaitForClusters(run: Run, o: Outside, spared: set<string>, timeout: nat) returns (gone: bool)
    requires Steady(o)
    modifies run
    ensures gone == SeenToGo(o, spared, timeout)
    ensures run.trace == old(run.trace) + Looks(o, Pausing(o, spared, timeout))
  {
    ghost var last := Pausing(o, spared, timeout);
    ghost var start := run.trace;
    var i := 0;
    while true
      invariant i <= last && run.trace == start + Pauses(o, i)
      decreases last - i
    {
      Rounds(o, spared, timeout, i);
      PauseOnce(o, i, start);
      run.Do(Listing(o, i + 1));
      if o.seen(i + 1) - spared == {} { return true; }
      if o.clock(i) >= timeout { return false; }
      run.Do(Sleep(PAUSE));
      i := i + 1;
    }
  }

  // ── aws ────────────────────────────────────────────────────────────────────

  function Workloads(cfg: Config, o: Outside): set<string> { o.seen(0) - {cfg.mgmtCluster} }

  /** The workload Clusters are taken to be gone. */
  ghost predicate WorkloadsGone(cfg: Config, o: Outside)
    requires Steady(o)
  {
    Workloads(cfg, o) == {} || SeenToGo(o, {cfg.mgmtCluster}, cfg.timeout)
  }

  ghost function WorkloadSteps(cfg: Config, o: Outside): seq<Action>
    requires Steady(o)
  {
    [Listing(o, 0)] +
    if Workloads(cfg, o) == {} then []
    else [DeleteClusters(Workloads(cfg, o))] + Looks(o, Pausing(o, {cfg.mgmtCluster}, cfg.timeout))
  }

  predicate Ready(cfg: Config, o: Outside) { if cfg.awsOnly then o.awsCli else o.tools }

  function HostOf(cfg: Config, o: Outside): Host { if cfg.awsOnly then Unreachable else Discover(o) }

  ghost predicate AwsAborts(cfg: Config, o: Outside)
    requires Steady(o)
  {
    HostOf(cfg, o) != Unreachable && !WorkloadsGone(cfg, o)
  }

  /** Steps 1 to 3. */
  ghost function FirstSteps(cfg: Config, o: Outside): seq<Action>
    requires Steady(o)
  {
    [SuspendFlux] + WorkloadSteps(cfg, o)
  }

  function SweepSteps(o: Outside): seq<Action> { if o.awsCli then [Sweep] else [] }

  /** Steps 4 to 9. */
  function FinalSteps(cfg: Config, o: Outside): seq<Action> {
    SweepSteps(o) + [DeleteProviders, UninstallHelm] + if HostOf(cfg, o) == Kind then [DeleteKind] else []
  }

  /** The whole aws teardown. Nothing in it depends on the force flag. */
  ghost function AwsTrace(cfg: Config, o: Outside): seq<Action>
    requires Steady(o)
  {
    if !Ready(cfg, o) then []
    else if HostOf(cfg, o) == Unreachable then SweepSteps(o)
    else if !WorkloadsGone(cfg, o) then FirstSteps(cfg, o)
    else FirstSteps(cfg, o) + FinalSteps(cfg, o)
  }

  /** Steps 2 and 3. */
  method DeleteAwsWorkloadClusters(run: Run, cfg: Config, o: Outside) returns (gone: bool)
    requires Steady(o)
    modifies run
    ensures gone == WorkloadsGone(cfg, o)
    ensures run.trace == old(run.trace) + WorkloadSteps(cfg, o)
  {
    run.Do(Listing(o, 0));
    var workloads := o.seen(0) - {cfg.mgmtCluster};
    if workloads == {} { return true; }
    run.Do(DeleteClusters(workloads));
    gone := WaitForClusters(run, o, {cfg.mgmtCluster}, cfg.timeout);
  }

  lemma WorkloadsGoneIff(cfg: Config, o: Outside)
    requires Steady(o)
    ensures WorkloadsGone(cfg, o) <==>
            || o.seen(0) - {cfg.mgmtCluster} == {}
            || exists r: nat :: r > 0 && o.seen(r) - {cfg.mgmtCluster} == {} &&
                                forall k :: 0 <= k < r - 1 ==> o.clock(k) < cfg.timeout
  {
    SeenToGoIff(o, {cfg.mgmtCluster}, cfg.timeout);
  }

  /** The run: its trace is the same for both values of `force`, and it is never refused. */
  method RunAwsTeardown(run: Run, cfg: Config, o: Outside, force: bool) returns (outcome: Outcome, refused: bool)
    requires Steady(o) && run.trace == []
    modifies run
    ensures run.trace == AwsTrace(cfg, o)
    ensures outcome == Failed <==>
            || (if cfg.awsOnly then !o.awsCli else !o.tools)
            || (!cfg.awsOnly && (o.kindReachable || o.mgmtReachable) &&
                o.seen(0) - {cfg.mgmtCluster} != {} &&
                !(exists r: nat :: r > 0 && o.seen(r) - {cfg.mgmtCluster} == {} &&
                                   forall k :: 0 <= k < r - 1 ==> o.clock(k) < cfg.timeout))
    ensures !refused
  {
    WorkloadsGoneIff(cfg, o);
    refused := false;
    if cfg.awsOnly && !o.awsCli { return Failed, false; }
    if !cfg.awsOnly && !o.tools { return Failed, false; }
    var host := if cfg.awsOnly then Unreachable else Discover(o);
    var clustersGone := true;
    if !cfg.awsOnly && host != Unreachable {
      run.Do(SuspendFlux);
      clustersGone := DeleteAwsWorkloadClusters(run, cfg, o);
      assert run.trace == FirstSteps(cfg, o);
      if !clustersGone { return Failed, false; }
    }
    ghost var first := run.trace;
    if o.awsCli { run.Do(Sweep); }
    assert run.trace == first + SweepSteps(o);
    if !cfg.awsOnly && host != Unreachable {
      run.Do(DeleteProviders);
      run.Do(UninstallHelm);
      assert run.trace == first + (SweepSteps(o) + [DeleteProviders, UninstallHelm]);
    }
    if !cfg.awsOnly {
      var guard := Resolve(clustersGone, force);
      match guard {
        case Refuse => refused := true;
        case _ => if host == Kind { run.Do(DeleteKind); }
      }
    }
    outcome := Done;
  }

  lemma HostedTrace(cfg: Config, o: Outside, wait: seq<Action>)
    requires Steady(o) && o.tools && !cfg.awsOnly && (o.kindReachable || o.mgmtReachable)
    requires wait == Looks(o, Pausing(o, {cfg.mgmtCluster}, cfg.timeout))
    ensures AwsTrace(cfg, o) ==
              [SuspendFlux, ListClusters(o.seen(0), o.actual(0))] +
              (if Workloads(cfg, o) == {} then [] else [DeleteClusters(Workloads(cfg, o))] + wait) +
              (if !WorkloadsGone(cfg, o) then []
               else (if o.awsCli then [Sweep] else []) + [DeleteProviders, UninstallHelm] +
                    (if o.kindReachable then [DeleteKind] else []))
  {
  }

  /** The run on a reachable host, action by action: suspend, list, delete the workload Clusters
      that were listed and wait for them; then, once they are gone, sweep if aws is there, delete
      the providers, uninstall the chart, and delete kind where kind is the host. */
  lemma AwsRunInFull(cfg: Config, o: Outside) returns (wait: seq<Action>)
    requires Steady(o) && o.tools && !cfg.awsOnly && (o.kindReachable || o.mgmtReachable)
    ensures var left := o.seen(0) - {cfg.mgmtCluster};
            var gone := left == {} || exists r: nat :: r > 0 && o.seen(r) - {cfg.mgmtCluster} == {} &&
                                                       forall k :: 0 <= k < r - 1 ==> o.clock(k) < cfg.timeout;
            AwsTrace(cfg, o) ==
              [SuspendFlux, ListClusters(o.seen(0), o.actual(0))] +
              (if left == {} then [] else [DeleteClusters(left)] + wait) +
              (if !gone then []
               else (if o.awsCli then [Sweep] else []) + [DeleteProviders, UninstallHelm] +
                    (if o.kindReachable then [DeleteKind] else []))
    ensures |wait| % 2 == 1
    ensures forall k :: 0 <= k < |wait| ==>
      wait[k] == if k % 2 == 0 then ListClusters(o.seen(k / 2 + 1), o.actual(k / 2 + 1)) else Sleep(30)
    ensures forall r :: 0 < r <= |wait| / 2 ==> o.seen(r) - {cfg.mgmtCluster} != {}
    ensures forall k :: 0 <= k < |wait| / 2 ==> o.clock(k) < cfg.timeout
    ensures o.seen(|wait| / 2 + 1) - {cfg.mgmtCluster} == {} || o.clock(|wait| / 2) >= cfg.timeout
  {
    WorkloadsGoneIff(cfg, o);
    wait := WaitInFull(o, {cfg.mgmtCluster}, cfg.timeout);
    HostedTrace(cfg, o, wait);
  }

  /** Without a reachable host, or when only AWS is to be cleaned up, the sweep is all there is. */
  lemma UnreachableRunInFull(cfg: Config, o: Outside)
    requires Steady(o) && (cfg.awsOnly || !(o.kindReachable || o.mgmtReachable))
    ensures AwsTrace(cfg, o) == if o.awsCli && (cfg.awsOnly || o.tools) then [Sweep] else []
  {
  }

  /** Which actions a run takes, each exactly when it should. */
  lemma AwsActionsIff(cfg: Config, o: Outside)
    requires Steady(o)
    ensures var trace, left := AwsTrace(cfg, o), o.seen(0) - {cfg.mgmtCluster};
            var started := if cfg.awsOnly then o.awsCli else o.tools;
            var host := !cfg.awsOnly && (o.kindReachable || o.mgmtReachable);
            var gone := left == {} || exists r: nat :: r > 0 && o.seen(r) - {cfg.mgmtCluster} == {} &&
                                                       forall k :: 0 <= k < r - 1 ==> o.clock(k) < cfg.timeout;
            && (SuspendFlux in trace <==> started && host)
            && (forall names :: DeleteClusters(names) in trace <==> started && host && left != {} && names == left)
            && (Sweep in trace <==> started && o.awsCli && (host ==> gone))
            && (DeleteProviders in trace <==> started && host && gone)
            && (UninstallHelm in trace <==> started && host && gone)
            && (DeleteKind in trace <==> started && !cfg.awsOnly && o.kindReachable && gone)
  {
    WorkloadsGoneIff(cfg, o);
    if o.tools && !cfg.awsOnly && (o.kindReachable || o.mgmtReachable) {
      var wait := Looks(o, Pausing(o, {cfg.mgmtCluster}, cfg.timeout));
      HostedTrace(cfg, o, wait);
      LooksAreHarmless(o, Pausing(o, {cfg.mgmtCluster}, cfg.timeout));
      HostedActions(Workloads(cfg, o), Listing(o, 0), wait, WorkloadsGone(cfg, o), o.awsCli, o.kindReachable);
    }
  }

  lemma HostedActions(names: set<string>, listing: Action, wait: seq<Action>, gone: bool, aws: bool, kind: bool)
    requires listing.ListClusters? && forall a :: a in wait ==> a.ListClusters? || a.Sleep?
    ensures var trace := [SuspendFlux, listing] + (if names == {} then [] else [DeleteClusters(names)] + wait) +
                         (if !gone then []
                          else (if aws then [Sweep] else []) + [DeleteProviders, UninstallHelm] +
                               (if kind then [DeleteKind] else []));
            && SuspendFlux in trace
            && (forall s :: DeleteClusters(s) in trace <==> names != {} && s == names)
            && (Sweep in trace <==> gone && aws) && (DeleteProviders in trace <==> gone)
            && (UninstallHelm in trace <==> gone) && (DeleteKind in trace <==> gone && kind)
  {
    HeadActions(names, listing, wait);
  }

  /** What suspending, listing, deleting and waiting amount to. */
  lemma HeadActions(names: set<string>, listing: Action, wait: seq<Action>)
    requires listing.ListClusters? && forall a :: a in wait ==> a.ListClusters? || a.Sleep?
    ensures var head := [SuspendFlux, listing] + if names == {} then [] else [DeleteClusters(names)] + wait;
            && SuspendFlux in head
            && (forall a :: a in head ==> a.SuspendFlux? || a.ListClusters? || a.Sleep? || a.DeleteClusters?)
            && (forall s :: DeleteClusters(s) in head <==> names != {} && s == names)
  {
    var head := [SuspendFlux, listing] + if names == {} then [] else [DeleteClusters(names)] + wait;
    assert head[0] == SuspendFlux;
    assert names != {} ==> head[2] == DeleteClusters(names);
  }

  /** A listing that shows the host free of other Clusters, and rightly so. */
  predicate Confirms(a: Action, spared: set<string>) {
    a.ListClusters? && a.actual <= spared
  }

  ghost predicate PrecededBy(trace: seq<Action>, i: nat, spared: set<string>)
    requires i < |trace|
  {
    exists a :: a in trace[..i] && Confirms(a, spared)
  }

  lemma StepsConfirm(cfg: Config, o: Outside)
    requires Steady(o) && Faithful(o) && WorkloadsGone(cfg, o)
    ensures exists a :: a in WorkloadSteps(cfg, o) && Confirms(a, {cfg.mgmtCluster})
  {
    if Workloads(cfg, o) == {} {
      assert Confirms(Listing(o, 0), {cfg.mgmtCluster}) && Listing(o, 0) in WorkloadSteps(cfg, o);
    } else {
      var pauses := Pausing(o, {cfg.mgmtCluster}, cfg.timeout);
      var last := Listing(o, pauses + 1);
      assert last in Looks(o, pauses);
      assert Confirms(last, {cfg.mgmtCluster}) && last in WorkloadSteps(cfg, o);
    }
  }

  predicate Destructive(a: Action) {
    a.Sweep? || a.DeleteProviders? || a.UninstallHelm? || a.DeleteKind?
  }

  lemma StepsAreHarmless(cfg: Config, o: Outside)
    requires Steady(o)
    ensures forall a :: a in FirstSteps(cfg, o) ==> !Destructive(a)
  {
    LooksAreHarmless(o, Pausing(o, {cfg.mgmtCluster}, cfg.timeout));
  }

  /** With faithful listings, nothing destructive happens on a reachable host before a listing
      without workload Clusters; the kind cluster in particular is never deleted without one. */
  lemma DestructionIsDominated(cfg: Config, o: Outside, i: nat)
    requires Steady(o) && Faithful(o) && i < |AwsTrace(cfg, o)| && Destructive(AwsTrace(cfg, o)[i])
    requires HostOf(cfg, o) != Unreachable
    ensures PrecededBy(AwsTrace(cfg, o), i, {cfg.mgmtCluster})
  {
    var trace, steps := AwsTrace(cfg, o), FirstSteps(cfg, o);
    StepsAreHarmless(cfg, o);
    assert steps <= trace;
    assert i >= |steps|;
    StepsConfirm(cfg, o);
    var a :| a in WorkloadSteps(cfg, o) && Confirms(a, {cfg.mgmtCluster});
    assert a in steps && trace[..i][..|steps|] == steps;
    assert a in trace[..i];
  }

  /** Kind is deleted exactly when it is the host, the tools are there and the wait confirmed. */
  lemma KindDeletedIff(cfg: Config, o: Outside)
    requires Steady(o)
    ensures DeleteKind in AwsTrace(cfg, o) <==> Ready(cfg, o) && HostOf(cfg, o) == Kind && WorkloadsGone(cfg, o)
  {
    StepsAreHarmless(cfg, o);
  }

  /** A run whose wait times out does nothing destructive. */
  lemma AbortedRunIsHarmless(cfg: Config, o: Outside)
    requires Steady(o) && AwsAborts(cfg, o)
    ensures forall a :: a in AwsTrace(cfg, o) ==> !Destructive(a)
  {
    StepsAreHarmless(cfg, o);
  }

  /** The premise is needed: a listing that fails reads as an empty one, and the kind cluster is
      deleted with its workload Clusters alive. */
  lemma FailedListingDeletesKind(cfg: Config, o: Outside, live: string)
    requires Steady(o) && Ready(cfg, o) && HostOf(cfg, o) == Kind
    requires o.seen(0) == {} && live in o.actual(0) && live != cfg.mgmtCluster
    ensures DeleteKind in AwsTrace(cfg, o)
    ensures forall a :: a in AwsTrace(cfg, o) ==> !Confirms(a, {cfg.mgmtCluster})
  {
    KindDeletedIff(cfg, o);
    assert WorkloadSteps(cfg, o) == [Listing(o, 0)];
  }

  // ── local-talos ────────────────────────────────────────────────────────────

  ghost predicate TalosGone(o: Outside, timeout: nat)
    requires Steady(o)
  {
    o.seen(0) == {} || SeenToGo(o, {}, timeout)
  }

  ghost function TalosSteps(o: Outside, timeout: nat): seq<Action>
    requires Steady(o)
  {
    [SuspendFlux, Listing(o, 0)] +
    if o.seen(0) == {} then [] else [DeleteClusters(o.seen(0))] + Looks(o, Pausing(o, {}, timeout))
  }

  ghost function TalosTrace(o: Outside, timeout: nat): seq<Action>
    requires Steady(o)
  {
    if Discover(o) == Unreachable then []
    else TalosSteps(o, timeout) + if TalosGone(o, timeout) && Discover(o) == Kind then [DeleteKind] else []
  }

  /** The management Cluster is deleted too; a timeout is reported but not as a failure. */
  method RunTalosTeardown(run: Run, o: Outside, awsOnly: bool, timeout: nat) returns (outcome: Outcome)
    requires Steady(o) && run.trace == []
    modifies run
    ensures outcome == Failed <==> awsOnly || !o.tools
    ensures run.trace == if outcome == Failed then [] else TalosTrace(o, timeout)
  {
    if awsOnly || !o.tools { return Failed; }
    var host := Discover(o);
    if host == Unreachable { return Done; }
    run.Do(SuspendFlux);
    var clustersGone := true;
    run.Do(Listing(o, 0));
    var clusters := o.seen(0);
    if clusters != {} {
      run.Do(DeleteClusters(clusters));
      clustersGone := WaitForClusters(run, o, {}, timeout);
    }
    assert run.trace == TalosSteps(o, timeout);
    if clustersGone && host == Kind { run.Do(DeleteKind); }
    outcome := Done;
  }

  /** The run on a reachable host, action by action: every listed Cluster is deleted, the
      management Cluster among them, and kind goes once none is left. */
  lemma TalosRunInFull(o: Outside, timeout: nat) returns (wait: seq<Action>)
    requires Steady(o) && (o.kindReachable || o.mgmtReachable)
    ensures var gone := o.seen(0) == {} || exists r: nat :: r > 0 && o.seen(r) == {} &&
                                                            forall k :: 0 <= k < r - 1 ==> o.clock(k) < timeout;
            TalosTrace(o, timeout) ==
              [SuspendFlux, ListClusters(o.seen(0), o.actual(0))] +
              (if o.seen(0) == {} then [] else [DeleteClusters(o.seen(0))] + wait) +
              (if gone && o.kindReachable then [DeleteKind] else [])
    ensures |wait| % 2 == 1
    ensures forall k :: 0 <= k < |wait| ==>
      wait[k] == if k % 2 == 0 then ListClusters(o.seen(k / 2 + 1), o.actual(k / 2 + 1)) else Sleep(30)
    ensures forall r :: 0 < r <= |wait| / 2 ==> o.seen(r) != {}
    ensures forall k :: 0 <= k < |wait| / 2 ==> o.clock(k) < timeout
    ensures o.seen(|wait| / 2 + 1) == {} || o.clock(|wait| / 2) >= timeout
  {
    TalosGoneIff(o, timeout);
    wait := WaitInFull(o, {}, timeout);
    forall r: nat ensures o.seen(r) - {} == o.seen(r) {}
  }

  lemma TalosGoneIff(o: Outside, timeout: nat)
    requires Steady(o)
    ensures TalosGone(o, timeout) <==>
            || o.seen(0) == {}
            || exists r: nat :: r > 0 && o.seen(r) == {} && forall k :: 0 <= k < r - 1 ==> o.clock(k) < timeout
  {
    SeenToGoIff(o, {}, timeout);
    forall r: nat ensures o.seen(r) - {} == o.seen(r) {}
  }

  /** Which actions a local-talos run takes, each exactly when it should. */
  lemma TalosActionsIff(o: Outside, timeout: nat)
    requires Steady(o)
    ensures var trace, host := TalosTrace(o, timeout), o.kindReachable || o.mgmtReachable;
            var gone := o.seen(0) == {} || exists r: nat :: r > 0 && o.seen(r) == {} &&
                                                            forall k :: 0 <= k < r - 1 ==> o.clock(k) < timeout;
            && (host <==> trace != []) && (SuspendFlux in trace <==> host)
            && (forall names :: DeleteClusters(names) in trace <==> host && names == o.seen(0) && names != {})
            && (DeleteKind in trace <==> o.kindReachable && gone)
            && Sweep !in trace && DeleteProviders !in trace && UninstallHelm !in trace
  {
    TalosGoneIff(o, timeout);
    if o.kindReachable || o.mgmtReachable {
      var wait := Looks(o, Pausing(o, {}, timeout));
      LooksAreHarmless(o, Pausing(o, {}, timeout));
      HeadActions(o.seen(0), Listing(o, 0), wait);
      var head := [SuspendFlux, Listing(o, 0)] + if o.seen(0) == {} then [] else [DeleteClusters(o.seen(0))] + wait;
      assert TalosSteps(o, timeout) == head;
    }
  }

  /** With faithful listings the kind cluster is deleted only after no Cluster was left. */
  lemma TalosDeletionIsDominated(o: Outside, timeout: nat, i: nat)
    requires Steady(o) && Faithful(o) && i < |TalosTrace(o, timeout)| && TalosTrace(o, timeout)[i] == DeleteKind
    ensures PrecededBy(TalosTrace(o, timeout), i, {})
  {
    var trace, steps := TalosTrace(o, timeout), TalosSteps(o, timeout);
    var pauses := Pausing(o, {}, timeout);
    LooksAreHarmless(o, pauses);
    assert forall a :: a in steps ==> !a.DeleteKind?;
    assert i == |steps| && trace[..i] == steps && TalosGone(o, timeout);
    var last := if o.seen(0) == {} then Listing(o, 0) else Listing(o, pauses + 1);
    assert o.seen(0) != {} ==> last in Looks(o, pauses);
    assert last in steps && Confirms(last, {});
  }
}
