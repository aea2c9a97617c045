/** The local-host branch of the teardown (bootstrap-rs/src/teardown.rs, `run_teardown` and
    `delete_capi_workloads`). */
module LocalTeardown {
  import opened Waiting
  import opened Teardown

  /** What the outside answers. `tools`: kind and kubectl are found; `joined`: a toolbox gets into
      kind's network and at kind's kubeconfig; about workload `n`: whether its `i`-th look finds
      it, whether it is there, whether the delete command succeeds, and the clock in the rounds of
      its wait. */
  datatype Local = Local(tools: bool, kindPresent: bool, kubeconfig: bool, engine: bool, joined: bool,
                         found: (nat, nat) -> bool, present: (nat, nat) -> bool,
                         accepted: nat -> bool, clock: (nat, nat) -> nat)

  datatype LocalConfig = LocalConfig(workloads: seq<string>, containers: bool, awsOnly: bool, toolbox: bool)

  const TIMEOUT: nat := 300
  const PAUSE: nat := 10

  /** A look that fails reads as "gone"; a faithful one does not fail. */
  ghost predicate Truthful(o: Local) {
    forall n: nat, i: nat :: o.found(n, i) == o.present(n, i)
  }

  ghost predicate Sleeps(o: Local) {
    forall n: nat, i: nat {:trigger SleptIn(o, n, i)} :: SleptIn(o, n, i)
  }

  predicate SleptIn(o: Local, n: nat, i: nat) { o.clock(n, i) + PAUSE <= o.clock(n, i + 1) }

  function WatchOf(o: Local, n: nat): Watch {
    Watch((i: nat) => !o.found(n, i + 1), (i: nat) => o.clock(n, i), TIMEOUT)
  }

  lemma WatchTicks(o: Local, n: nat)
    requires Sleeps(o)
    ensures Ticks(WatchOf(o, n), PAUSE)
  {
    forall i: nat ensures Tick(WatchOf(o, n), PAUSE, i) { assert SleptIn(o, n, i); }
  }

  function Look(cfg: LocalConfig, o: Local, n: nat, i: nat): Action
    requires n < |cfg.workloads|
  {
    LookFor(cfg.workloads[n], o.found(n, i), o.present(n, i))
  }

  function Pauses(cfg: LocalConfig, o: Local, n: nat, rounds: nat): seq<Action>
    requires n < |cfg.workloads|
  {
    if rounds == 0 then [] else Pauses(cfg, o, n, rounds - 1) + [Look(cfg, o, n, rounds), Sleep(PAUSE)]
  }

  lemma {:induction false} LooksAreHarmless(cfg: LocalConfig, o: Local, n: nat, rounds: nat)
    requires n < |cfg.workloads|
    ensures forall a :: a in Pauses(cfg, o, n, rounds) ==> a.LookFor? || a.Sleep?
  {
    if rounds > 0 { LooksAreHarmless(cfg, o, n, rounds - 1); }
  }

  ghost function Pausing(o: Local, n: nat): nat
    requires Sleeps(o)
  {
    WatchTicks(o, n);
    LastRound(WatchOf(o, n), PAUSE, 0)
  }

  ghost predicate SeenToGo(o: Local, n: nat)
    requires Sleeps(o)
  {
    WatchTicks(o, n);
    Confirmed(WatchOf(o, n), PAUSE)
  }

  /** The wait ends well exactly when some look after the first does not find the workload and
      five minutes had not passed in any round before it. */
  lemma SeenToGoIff(o: Local, n: nat)
    requires Sleeps(o)
    ensures SeenToGo(o, n) <==>
            exists r: nat :: r > 0 && !o.found(n, r) && forall k :: 0 <= k < r - 1 ==> o.clock(n, k) < 300
  {
    WatchTicks(o, n);
    var w := WatchOf(o, n);
    ConfirmedIff(w, PAUSE);
    if SeenToGo(o, n) {
      var r: nat :| w.gone(r) && forall k :: 0 <= k < r ==> w.clock(k) < w.timeout;
      WatchReads(o, n, r);
      forall k | 0 <= k < r ensures o.clock(n, k) < 300 { WatchReads(o, n, k); }
      assert !o.found(n, r + 1);
    }
    if r: nat :| r > 0 && !o.found(n, r) && forall k :: 0 <= k < r - 1 ==> o.clock(n, k) < 300 {
      WatchReads(o, n, r - 1);
      forall k | 0 <= k < r - 1 ensures w.clock(k) < w.timeout { WatchReads(o, n, k); }
    }
  }

  lemma WatchReads(o: Local, n: nat, i: nat)
    ensures WatchOf(o, n).gone(i) <==> !o.found(n, i + 1)
    ensures WatchOf(o, n).clock(i) == o.clock(n, i) && WatchOf(o, n).timeout == 300
  {
  }

  /** The rounds of the wait: each but the last finds the workload and has time left. */
  lemma Rounds(o: Local, n: nat, k: nat)
    requires Sleeps(o) && k <= Pausing(o, n)
    ensures k < Pausing(o, n) ==> o.found(n, k + 1) && o.clock(n, k) < 300
    ensures k == Pausing(o, n) ==> !o.found(n, k + 1) || o.clock(n, k) >= 300
  {
    WatchTicks(o, n);
    WatchReads(o, n, k);
    assert k < Pausing(o, n) ==> GoesOn(WatchOf(o, n), k);
  }

  /** Workload `n` was not there, or was deleted and seen to go. */
  ghost predicate WorkloadGone(o: Local, n: nat)
    requires Sleeps(o)
  {
    !o.found(n, 0) || (o.accepted(n) && SeenToGo(o, n))
  }

  ghost function WaitTrace(cfg: LocalConfig, o: Local, n: nat): seq<Action>
    requires Sleeps(o) && n < |cfg.workloads|
  {
    Pauses(cfg, o, n, Pausing(o, n)) + [Look(cfg, o, n, Pausing(o, n) + 1)]
  }

  ghost function WorkloadTrace(cfg: LocalConfig, o: Local, n: nat): seq<Action>
    requires Sleeps(o) && n < |cfg.workloads|
  {
    if !o.found(n, 0) then [Look(cfg, o, n, 0)]
    else [Look(cfg, o, n, 0), DeleteWorkload(cfg.workloads[n])] + if !o.accepted(n) then [] else WaitTrace(cfg, o, n)
  }

  ghost predicate AllGone(o: Local, n: nat)
    requires Sleeps(o)
  {
    forall m :: 0 <= m < n ==> WorkloadGone(o, m)
  }

  /** The first `n` workloads; the rest is skipped once one of them does not go. */
  ghost function WorkloadsTrace(cfg: LocalConfig, o: Local, n: nat): seq<Action>
    requires Sleeps(o) && n <= |cfg.workloads|
  {
    if n == 0 then []
    else if !AllGone(o, n - 1) then WorkloadsTrace(cfg, o, n - 1)
    else WorkloadsTrace(cfg, o, n - 1) + WorkloadTrace(cfg, o, n - 1)
  }

  predicate Reachable(o: Local) { o.kindPresent || o.kubeconfig }

  /** Why a run fails before it has touched anything: a tool is missing, the mode does not go with
      the profile, or the toolbox does not reach kind. */
  predicate Refuses(cfg: LocalConfig, o: Local) {
    cfg.awsOnly || !o.tools || (o.kindPresent && cfg.toolbox && o.engine && !o.joined)
  }

  ghost predicate LocalFails(cfg: LocalConfig, o: Local)
    requires Sleeps(o)
  {
    Refuses(cfg, o) || (Reachable(o) && !AllGone(o, |cfg.workloads|))
  }

  ghost function Deletions(cfg: LocalConfig, o: Local): seq<Action>
    requires Sleeps(o)
  {
    if Refuses(cfg, o) then []
    else
      (if !o.kindPresent && o.kubeconfig then [SuspendWorkload] else []) +
      (if Reachable(o) then WorkloadsTrace(cfg, o, |cfg.workloads|) else [])
  }

  function HostRemoval(cfg: LocalConfig, o: Local): seq<Action> {
    if o.kindPresent then [DeleteKind] else if cfg.containers && o.engine then [RemoveContainers] else []
  }

  ghost function LocalTrace(cfg: LocalConfig, o: Local): seq<Action>
    requires Sleeps(o)
  {
    Deletions(cfg, o) +
    if LocalFails(cfg, o) then [] else HostRemoval(cfg, o) + if o.engine then [RemoveRegistry] else []
  }

  lemma {:induction false} PausesInFull(cfg: LocalConfig, o: Local, n: nat, rounds: nat)
    requires n < |cfg.workloads|
    ensures |Pauses(cfg, o, n, rounds)| == 2 * rounds
    ensures forall k :: 0 <= k < 2 * rounds ==>
      Pauses(cfg, o, n, rounds)[k] ==
        if k % 2 == 0 then LookFor(cfg.workloads[n], o.found(n, k / 2 + 1), o.present(n, k / 2 + 1)) else Sleep(10)
  {
    if rounds > 0 { PausesInFull(cfg, o, n, rounds - 1); }
  }

  /** The wait for one workload, action by action: looks with ten seconds between them, the last
      of them the first that does not find it or is followed by a clock at or past 300 seconds. */
  lemma WaitInFull(cfg: LocalConfig, o: Local, n: nat) returns (wait: seq<Action>)
    requires Sleeps(o) && n < |cfg.workloads|
    ensures wait == WaitTrace(cfg, o, n) && |wait| % 2 == 1
    ensures forall k :: 0 <= k < |wait| ==>
      wait[k] ==
        if k % 2 == 0 then LookFor(cfg.workloads[n], o.found(n, k / 2 + 1), o.present(n, k / 2 + 1)) else Sleep(10)
    ensures forall r :: 0 < r <= |wait| / 2 ==> o.found(n, r)
    ensures forall k :: 0 <= k < |wait| / 2 ==> o.clock(n, k) < 300
    ensures !o.found(n, |wait| / 2 + 1) || o.clock(n, |wait| / 2) >= 300
  {
    var last := Pausing(o, n);
    PausesInFull(cfg, o, n, last);
    wait := WaitTrace(cfg, o, n);
    assert |wait| == 2 * last + 1;
    forall r | 0 < r <= last ensures o.found(n, r) { Rounds(o, n, r - 1); }
    forall k | 0 <= k < last ensures o.clock(n, k) < 300 { Rounds(o, n, k); }
    Rounds(o, n, last);
  }

  /** What is done about one workload, action by action: look; if it is there, ask for its
      deletion; if that is accepted, wait. */
  lemma WorkloadInFull(cfg: LocalConfig, o: Local, n: nat) returns (wait: seq<Action>)
    requires Sleeps(o) && n < |cfg.workloads|
    ensures WorkloadTrace(cfg, o, n) ==
            [LookFor(cfg.workloads[n], o.found(n, 0), o.present(n, 0))] +
            (if !o.found(n, 0) then [] else [DeleteWorkload(cfg.workloads[n])]) +
            (if o.found(n, 0) && o.accepted(n) then wait else [])
    ensures WorkloadGone(o, n) <==>
            || !o.found(n, 0)
            || (o.accepted(n) &&
                exists r: nat :: r > 0 && !o.found(n, r) && forall k :: 0 <= k < r - 1 ==> o.clock(n, k) < 300)
    ensures |wait| % 2 == 1
    ensures forall k :: 0 <= k < |wait| ==>
      wait[k] ==
        if k % 2 == 0 then LookFor(cfg.workloads[n], o.found(n, k / 2 + 1), o.present(n, k / 2 + 1)) else Sleep(10)
    ensures forall r :: 0 < r <= |wait| / 2 ==> o.found(n, r)
    ensures forall k :: 0 <= k < |wait| / 2 ==> o.clock(n, k) < 300
    ensures !o.found(n, |wait| / 2 + 1) || o.clock(n, |wait| / 2) >= 300
  {
    wait := WaitInFull(cfg, o, n);
    WorkloadGoneIff(o, n);
  }

  lemma WorkloadGoneIff(o: Local, n: nat)
    requires Sleeps(o)
    ensures WorkloadGone(o, n) <==>
            || !o.found(n, 0)
            || (o.accepted(n) &&
                exists r: nat :: r > 0 && !o.found(n, r) && forall k :: 0 <= k < r - 1 ==> o.clock(n, k) < 300)
  {
    SeenToGoIff(o, n);
  }

  method DeleteCapiWorkload(run: Run, cfg: LocalConfig, o: Local, n: nat) returns (gone: bool)
    requires Sleeps(o) && n < |cfg.workloads|
    modifies run
    ensures gone == WorkloadGone(o, n)
    ensures run.trace == old(run.trace) + WorkloadTrace(cfg, o, n)
  {
    run.Do(Look(cfg, o, n, 0));
    if !o.found(n, 0) { return true; }
    run.Do(DeleteWorkload(cfg.workloads[n]));
    assert run.trace == old(run.trace) + [Look(cfg, o, n, 0), DeleteWorkload(cfg.workloads[n])];
    if !o.accepted(n) { return false; }
    gone := WaitForWorkload(run, cfg, o, n);
    Associate(old(run.trace), [Look(cfg, o, n, 0), DeleteWorkload(cfg.workloads[n])], WaitTrace(cfg, o, n));
  }

  lemma PauseOnce(cfg: LocalConfig, o: Local, n: nat, i: nat, start: seq<Action>)
    requires n < |cfg.workloads|
    ensures start + Pauses(cfg, o, n, i) + [Look(cfg, o, n, i + 1)] + [Sleep(PAUSE)] == start + Pauses(cfg, o, n, i + 1)
  {
  }

  lemma TraceNext(cfg: LocalConfig, o: Local, n: nat, start: seq<Action>)
    requires Sleeps(o) && n < |cfg.workloads| && AllGone(o, n)
    ensures start + WorkloadsTrace(cfg, o, n) + WorkloadTrace(cfg, o, n) == start + WorkloadsTrace(cfg, o, n + 1)
  {
    Associate(start, WorkloadsTrace(cfg, o, n), WorkloadTrace(cfg, o, n));
  }

  lemma Associate(a: seq<Action>, b: seq<Action>, c: seq<Action>)
    ensures a + b + c == a + (b + c)
  {
  }

  method WaitForWorkload(run: Run, cfg: LocalConfig, o: Local, n: nat) returns (gone: bool)
    requires Sleeps(o) && n < |cfg.workloads|
    modifies run
    ensures gone == SeenToGo(o, n)
    ensures run.trace == old(run.trace) + WaitTrace(cfg, o, n)
  {
    WatchTicks(o, n);
    ghost var w := WatchOf(o, n);
    ghost var start := run.trace;
    var i := 0;
    while true
      invariant LastRound(w, PAUSE, i) == LastRound(w, PAUSE, 0)
      invariant run.trace == start + Pauses(cfg, o, n, i)
      decreases TIMEOUT - w.clock(i)
    {
      run.Do(Look(cfg, o, n, i + 1));
      Associate(start, Pauses(cfg, o, n, i), [Look(cfg, o, n, i + 1)]);
      if !o.found(n, i + 1) { return true; }
      if o.clock(n, i) >= TIMEOUT { return false; }
      run.Do(Sleep(PAUSE));
      PauseOnce(cfg, o, n, i, start);
      assert GoesOn(w, i) && Tick(w, PAUSE, i);
      i := i + 1;
    }
  }

  lemma OneMoreGone(o: Local, n: nat)
    requires Sleeps(o)
    ensures AllGone(o, n + 1) <==> AllGone(o, n) && WorkloadGone(o, n)
  {
  }

  method DeleteCapiWorkloads(run: Run, cfg: LocalConfig, o: Local) returns (gone: bool)
    requires Sleeps(o)
    modifies run
    ensures gone == AllGone(o, |cfg.workloads|)
    ensures run.trace == old(run.trace) + WorkloadsTrace(cfg, o, |cfg.workloads|)
  {
    ghost var start := run.trace;
    gone := true;
    for n := 0 to |cfg.workloads|
      invariant gone && AllGone(o, n)
      invariant run.trace == start + WorkloadsTrace(cfg, o, n)
    {
      TraceNext(cfg, o, n, start);
      OneMoreGone(o, n);
      gone := DeleteCapiWorkload(run, cfg, o, n);
      assert run.trace == start + WorkloadsTrace(cfg, o, n + 1);
      if !gone {
        SkippedAfter(cfg, o, n + 1, |cfg.workloads|);
        return;
      }
    }
  }

  lemma {:induction false} SkippedAfter(cfg: LocalConfig, o: Local, n: nat, m: nat)
    requires Sleeps(o) && n <= m <= |cfg.workloads| && !AllGone(o, n)
    ensures WorkloadsTrace(cfg, o, m) == WorkloadsTrace(cfg, o, n)
    ensures !AllGone(o, m)
  {
    if n < m { SkippedAfter(cfg, o, n, m - 1); }
  }

  method ReleaseWorkloads(run: Run, cfg: LocalConfig, o: Local) returns (gone: bool)
    requires Sleeps(o) && !Refuses(cfg, o) && run.trace == []
    modifies run
    ensures gone <==> !LocalFails(cfg, o)
    ensures run.trace == Deletions(cfg, o)
  {
    gone := true;
    if !o.kindPresent && o.kubeconfig { run.Do(SuspendWorkload); }
    if o.kindPresent || o.kubeconfig { gone := DeleteCapiWorkloads(run, cfg, o); }
  }

  method RemoveHost(run: Run, cfg: LocalConfig, o: Local)
    modifies run
    ensures run.trace == old(run.trace) + HostRemoval(cfg, o) + if o.engine then [RemoveRegistry] else []
  {
    if o.kindPresent {
      run.Do(DeleteKind);
    } else if cfg.containers && o.engine {
      run.Do(RemoveContainers);
    }
    if o.engine { run.Do(RemoveRegistry); }
  }

  /** The preflight, the workloads, then the host, then the registry. */
  method RunLocalTeardown(run: Run, cfg: LocalConfig, o: Local) returns (outcome: Outcome)
    requires Sleeps(o) && run.trace == []
    modifies run
    ensures outcome == Failed <==>
            || cfg.awsOnly || !o.tools || (o.kindPresent && cfg.toolbox && o.engine && !o.joined)
            || ((o.kindPresent || o.kubeconfig) && exists m :: 0 <= m < |cfg.workloads| && !WorkloadGone(o, m))
    ensures run.trace == LocalTrace(cfg, o)
  {
    if !cfg.awsOnly && !o.tools { return Failed; }
    if cfg.awsOnly { return Failed; }
    if o.kindPresent && cfg.toolbox && o.engine && !o.joined { return Failed; }
    var gone := ReleaseWorkloads(run, cfg, o);
    if !gone { return Failed; }
    RemoveHost(run, cfg, o);
    Associate(Deletions(cfg, o), HostRemoval(cfg, o), if o.engine then [RemoveRegistry] else []);
    outcome := Done;
  }

  // ── The whole run, action by action ────────────────────────────────────────

  function Flat(blocks: seq<seq<Action>>): seq<Action> {
    if blocks == [] then [] else Flat(blocks[..|blocks| - 1]) + blocks[|blocks| - 1]
  }

  /** One block per workload in their order, up to the first that does not go. */
  ghost predicate InOrder(cfg: LocalConfig, o: Local, blocks: seq<seq<Action>>, n: nat)
    requires Sleeps(o) && n <= |cfg.workloads|
  {
    && |blocks| <= n
    && (forall m :: 0 <= m < |blocks| ==> blocks[m] == WorkloadTrace(cfg, o, m))
    && (forall m :: 0 <= m < |blocks| - 1 ==> WorkloadGone(o, m))
    && (|blocks| < n ==> |blocks| > 0 && !WorkloadGone(o, |blocks| - 1))
  }

  lemma {:induction false} BlocksOf(cfg: LocalConfig, o: Local, n: nat) returns (blocks: seq<seq<Action>>)
    requires Sleeps(o) && n <= |cfg.workloads|
    ensures InOrder(cfg, o, blocks, n) && Flat(blocks) == WorkloadsTrace(cfg, o, n)
  {
    if n == 0 { return []; }
    blocks := BlocksOf(cfg, o, n - 1);
    if AllGone(o, n - 1) {
      BlockAdded(cfg, o, blocks, n - 1);
      blocks := blocks + [WorkloadTrace(cfg, o, n - 1)];
    } else {
      BlocksStop(cfg, o, blocks, n - 1);
    }
  }

  lemma BlockAdded(cfg: LocalConfig, o: Local, blocks: seq<seq<Action>>, n: nat)
    requires Sleeps(o) && n < |cfg.workloads| && InOrder(cfg, o, blocks, n) && AllGone(o, n)
    ensures InOrder(cfg, o, blocks + [WorkloadTrace(cfg, o, n)], n + 1)
    ensures Flat(blocks + [WorkloadTrace(cfg, o, n)]) == Flat(blocks) + WorkloadTrace(cfg, o, n)
  {
    assert 0 < |blocks| <= n ==> WorkloadGone(o, |blocks| - 1);
    var longer := blocks + [WorkloadTrace(cfg, o, n)];
    assert longer[..|blocks|] == blocks;
  }

  lemma BlocksStop(cfg: LocalConfig, o: Local, blocks: seq<seq<Action>>, n: nat)
    requires Sleeps(o) && n < |cfg.workloads| && InOrder(cfg, o, blocks, n) && !AllGone(o, n)
    ensures InOrder(cfg, o, blocks, n + 1)
  {
    var m :| 0 <= m < n && !WorkloadGone(o, m);
    assert |blocks| == n ==> m == n - 1;
  }

  /** A run that is not refused: a suspension where only the kubeconfig leads to the host; on a
      reachable host one block per workload, each as `WorkloadInFull` says, up to the first that
      does not go; then, if none stayed, the host and the registry. */
  lemma LocalRunInFull(cfg: LocalConfig, o: Local) returns (blocks: seq<seq<Action>>)
    requires Sleeps(o) && o.tools && !cfg.awsOnly && (o.kindPresent && cfg.toolbox && o.engine ==> o.joined)
    ensures InOrder(cfg, o, blocks, if o.kindPresent || o.kubeconfig then |cfg.workloads| else 0)
    ensures LocalTrace(cfg, o) ==
            (if !o.kindPresent && o.kubeconfig then [SuspendWorkload] else []) + Flat(blocks) +
            if (o.kindPresent || o.kubeconfig) && exists m :: 0 <= m < |cfg.workloads| && !WorkloadGone(o, m) then []
            else
              (if o.kindPresent then [DeleteKind] else if cfg.containers && o.engine then [RemoveContainers] else []) +
              (if o.engine then [RemoveRegistry] else [])
  {
    blocks := BlocksOf(cfg, o, if Reachable(o) then |cfg.workloads| else 0);
  }

  /** A workload's deletion is asked for exactly when it is found after all before it have gone. */
  lemma DeletionAskedIff(cfg: LocalConfig, o: Local, name: string)
    requires Sleeps(o)
    ensures DeleteWorkload(name) in LocalTrace(cfg, o) <==>
            && o.tools && !cfg.awsOnly && (o.kindPresent && cfg.toolbox && o.engine ==> o.joined)
            && (o.kindPresent || o.kubeconfig)
            && exists n :: 0 <= n < |cfg.workloads| && cfg.workloads[n] == name && o.found(n, 0) &&
                           forall m :: 0 <= m < n ==> WorkloadGone(o, m)
  {
    if Refuses(cfg, o) || !Reachable(o) {
      assert DeleteWorkload(name) !in LocalTrace(cfg, o);
    } else {
      AskedAmong(cfg, o, name, |cfg.workloads|);
      var asked := DeleteWorkload(name);
      assert asked in LocalTrace(cfg, o) <==> asked in WorkloadsTrace(cfg, o, |cfg.workloads|);
    }
  }

  lemma {:induction false} AskedAmong(cfg: LocalConfig, o: Local, name: string, n: nat)
    requires Sleeps(o) && n <= |cfg.workloads|
    ensures DeleteWorkload(name) in WorkloadsTrace(cfg, o, n) <==>
            exists i :: 0 <= i < n && cfg.workloads[i] == name && o.found(i, 0) && AllGone(o, i)
  {
    if n > 0 {
      AskedAmong(cfg, o, name, n - 1);
      AskedAlone(cfg, o, name, n - 1);
    }
  }

  lemma AskedAlone(cfg: LocalConfig, o: Local, name: string, n: nat)
    requires Sleeps(o) && n < |cfg.workloads|
    ensures DeleteWorkload(name) in WorkloadTrace(cfg, o, n) <==> o.found(n, 0) && cfg.workloads[n] == name
  {
    LooksAreHarmless(cfg, o, n, Pausing(o, n));
    if o.found(n, 0) { assert WorkloadTrace(cfg, o, n)[1] == DeleteWorkload(cfg.workloads[n]); }
  }

  /** When the host and the registry are removed. */
  lemma HostRemovedIff(cfg: LocalConfig, o: Local)
    requires Sleeps(o)
    ensures var trace := LocalTrace(cfg, o);
            var started := o.tools && !cfg.awsOnly && (o.kindPresent && cfg.toolbox && o.engine ==> o.joined);
            var gone := (o.kindPresent || o.kubeconfig) ==> forall m :: 0 <= m < |cfg.workloads| ==> WorkloadGone(o, m);
            && (DeleteKind in trace <==> started && gone && o.kindPresent)
            && (RemoveContainers in trace <==> started && gone && !o.kindPresent && cfg.containers && o.engine)
            && (RemoveRegistry in trace <==> started && gone && o.engine)
  {
    WorkloadStepsAreHarmless(cfg, o, |cfg.workloads|);
  }

  // ── Ordering ───────────────────────────────────────────────────────────────

  predicate RemovesHost(a: Action) { a.DeleteKind? || a.RemoveContainers? }

  /** A look that finds the workload absent, and rightly so. */
  predicate SeesAbsent(a: Action, workload: string) {
    a.LookFor? && a.workload == workload && !a.present
  }

  lemma {:induction false} WorkloadsAreSeenToGo(cfg: LocalConfig, o: Local, n: nat, m: nat)
    requires Sleeps(o) && Truthful(o) && m < n <= |cfg.workloads| && AllGone(o, n)
    ensures exists a :: a in WorkloadsTrace(cfg, o, n) && SeesAbsent(a, cfg.workloads[m])
  {
    if m < n - 1 {
      WorkloadsAreSeenToGo(cfg, o, n - 1, m);
      var a :| a in WorkloadsTrace(cfg, o, n - 1) && SeesAbsent(a, cfg.workloads[m]);
      assert a in WorkloadsTrace(cfg, o, n);
    } else {
      assert WorkloadGone(o, m);
      var a := if !o.found(m, 0) then Look(cfg, o, m, 0) else Look(cfg, o, m, Pausing(o, m) + 1);
      assert o.found(m, 0) ==> a in WaitTrace(cfg, o, m);
      assert a in WorkloadTrace(cfg, o, m) && SeesAbsent(a, cfg.workloads[m]);
    }
  }

  lemma OneWorkloadIsHarmless(cfg: LocalConfig, o: Local, n: nat)
    requires Sleeps(o) && n < |cfg.workloads|
    ensures forall a :: a in WorkloadTrace(cfg, o, n) ==> a.LookFor? || a.Sleep? || a.DeleteWorkload?
  {
    LooksAreHarmless(cfg, o, n, Pausing(o, n));
  }

  lemma {:induction false} WorkloadStepsAreHarmless(cfg: LocalConfig, o: Local, n: nat)
    requires Sleeps(o) && n <= |cfg.workloads|
    ensures forall a :: a in WorkloadsTrace(cfg, o, n) ==> a.LookFor? || a.Sleep? || a.DeleteWorkload?
  {
    if n > 0 {
      WorkloadStepsAreHarmless(cfg, o, n - 1);
      OneWorkloadIsHarmless(cfg, o, n - 1);
    }
  }

  /** The host goes only after every workload was seen to be absent, unless no host was
      reachable; the registry goes last. */
  lemma LocalOrdering(cfg: LocalConfig, o: Local, i: nat)
    requires Sleeps(o) && Truthful(o) && i < |LocalTrace(cfg, o)|
    ensures RemovesHost(LocalTrace(cfg, o)[i]) && Reachable(o) ==>
              forall m :: 0 <= m < |cfg.workloads| ==>
                exists a :: a in LocalTrace(cfg, o)[..i] && SeesAbsent(a, cfg.workloads[m])
    ensures LocalTrace(cfg, o)[i] == RemoveRegistry ==>
              i == |LocalTrace(cfg, o)| - 1 && HostRemoval(cfg, o) <= LocalTrace(cfg, o)[|Deletions(cfg, o)|..]
  {
    var trace, steps := LocalTrace(cfg, o), Deletions(cfg, o);
    WorkloadStepsAreHarmless(cfg, o, |cfg.workloads|);
    assert steps <= trace;
    assert i < |steps| ==> trace[i] in steps;
    if RemovesHost(trace[i]) && Reachable(o) {
      assert trace[..i][..|steps|] == steps;
      forall m | 0 <= m < |cfg.workloads| ensures exists a :: a in trace[..i] && SeesAbsent(a, cfg.workloads[m]) {
        WorkloadsAreSeenToGo(cfg, o, |cfg.workloads|, m);
        var a :| a in WorkloadsTrace(cfg, o, |cfg.workloads|) && SeesAbsent(a, cfg.workloads[m]);
        assert a in steps;
        assert a in trace[..i];
      }
    }
  }

  /** While the cluster is still kind, nothing suspends the workload's Kustomization. */
  lemma KindIsNotSuspended(cfg: LocalConfig, o: Local)
    requires Sleeps(o)
    ensures SuspendWorkload in LocalTrace(cfg, o) <==> !Refuses(cfg, o) && !o.kindPresent && o.kubeconfig
  {
    WorkloadStepsAreHarmless(cfg, o, |cfg.workloads|);
    if !Refuses(cfg, o) && !o.kindPresent && o.kubeconfig { assert LocalTrace(cfg, o)[0] == SuspendWorkload; }
  }
}
