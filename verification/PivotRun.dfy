/** Phases 4 to 6 of the pivot, whole pivots, and bootstraps that end in one
    (bootstrap-rs/src/main.rs). */
module PivotRun {
  import opened PivotSite
  import opened Pivot

  // ── Phase 4 ────────────────────────────────────────────────────────────────

  /** Suspend one Kustomization. */
  method SuspendOne(k: Clusters, name: string) returns (ok: bool)
    requires k.Valid()
    modifies k`site, k`history
    ensures k.Valid()
    ensures k.site.kindExists == old(k.site.kindExists) && k.site.seeded == old(k.site.seeded)
    ensures old(k.site.kind.Keys) <= k.site.kind.Keys
    ensures ok ==> k.site.running == old(k.site.running) - {name}
    ensures k.reliable ==> ok
  {
    var done;
    ok, done := k.Attempt();
    if done { k.Happen(Suspend(name)); }
    k.Interfere();
  }

  /** Suspend every Kustomization that the listing shows. */
  method SuspendFlux(k: Clusters, done: nat) returns (ok: bool, now: nat)
    requires done == 15
    requires k.Valid()
    modifies k`site, k`history
    ensures k.Valid()
    ensures k.site.kindExists == old(k.site.kindExists) && k.site.seeded == old(k.site.seeded)
    ensures old(k.site.kind.Keys) <= k.site.kind.Keys
    ensures ok && k.faithful && k.original ==> k.site.running == {}
    ensures k.reliable ==> ok
    ensures now == if ok then 16 else 15
  {
    now := done;
    ghost var start := k.site;
    k.Interfere();
    var names := k.List(k.setup.kustomizations, k.faithful);
    ok := true;
    while names != {}
      invariant k.Valid()
      invariant k.site.kindExists == start.kindExists && k.site.seeded == start.seeded
      invariant start.kind.Keys <= k.site.kind.Keys
      invariant k.faithful && k.original ==> k.site.running <= names
      decreases names
    {
      var name :| name in names;
      names := names - {name};
      ok := SuspendOne(k, name);
      if !ok { return; }
    }
    now := Passed(FLUX_SUSPENDED, now);
  }

  /** Flux is suspended on kind and the managed Clusters there are paused. */
  ghost predicate Quiet(setup: Setup, s: Site) {
    s.running == {} && AtRest(setup, s)
  }

  /** The start of the move: pause the managed Clusters on kind and take stock. */
  method PauseAndList(k: Clusters) returns (ok: bool, inventory: set<Object>)
    requires k.Valid() && k.site.kindExists
    modifies k`site, k`history
    ensures k.Valid() && k.site.kindExists && k.site.running == old(k.site.running)
    ensures k.reliable ==> ok
    ensures ok ==> inventory <= Managed(k.setup, k.site.kind)
    ensures ok ==> forall o :: o in old(k.site.kind) && o.ns == k.setup.ns ==> o in inventory
    ensures ok && old(k.site.running) == {} ==> Quiet(k.setup, k.site) && inventory == Managed(k.setup, k.site.kind)
  {
    inventory := {};
    ok := PauseClusters(k);
    if !ok { return; }
    inventory := Managed(k.setup, k.site.kind);
    k.Interfere();
  }

  method PauseClusters(k: Clusters) returns (ok: bool)
    requires k.Valid() && k.site.kindExists
    modifies k`site, k`history
    ensures k.Valid() && k.site.kindExists && k.site.running == old(k.site.running)
    ensures k.reliable ==> ok
    ensures old(k.site.kind.Keys) <= k.site.kind.Keys && (ok ==> AtRest(k.setup, k.site))
  {
    k.Interfere();
    var done;
    ok, done := k.Attempt();
    if done { k.Happen(Pause); }
  }

  /** `clusterctl move`, which may stop at any point: pause, create on the target, and only then
      delete on kind. */
  method Move(k: Clusters, done: nat) returns (ok: bool, now: nat)
    requires done == 16
    requires k.Valid() && k.site.kindExists
    modifies k`site, k`history
    ensures k.Valid() && k.site.kindExists
    ensures k.reliable ==> ok
    ensures ok ==> forall o :: o in old(k.site.kind) && o.ns == k.setup.ns ==> o in k.site.target
    ensures ok && old(k.site.running) == {} ==> Emptied(k.setup, k.site)
    ensures now == if ok then 17 else 16
  {
    now := done;
    ghost var suspended := k.site.running == {};
    var inventory;
    ok, inventory := PauseAndList(k);
    if !ok { return; }
    ok := CreateAll(k, inventory);
    if !ok { return; }
    ok := RemoveAll(k, inventory);
    if ok { now := Passed(INVENTORY_MOVED, now); }
    if ok && suspended { NothingManagedMeansEmptied(k.setup, k.site); }
  }

  lemma NothingManagedMeansEmptied(setup: Setup, s: Site)
    requires s.running == {} && Managed(setup, s.kind) == {}
    ensures Emptied(setup, s)
  {
    assert forall o :: o in s.kind && o.ns == setup.ns ==> o in Managed(setup, s.kind);
  }

  /** One object of the first half: it is on the target afterwards, kind stays as it is. */
  method CreateOne(k: Clusters, o: Object) returns (ok: bool)
    requires k.Valid() && k.site.kindExists && o in k.site.kind
    modifies k`site, k`history
    ensures k.Valid() && k.site.kindExists && k.site.running == old(k.site.running)
    ensures old(k.site.kind.Keys) <= k.site.kind.Keys && old(k.site.target.Keys) <= k.site.target.Keys
    ensures old(Quiet(k.setup, k.site)) ==>
              Quiet(k.setup, k.site) && Managed(k.setup, k.site.kind) == old(Managed(k.setup, k.site.kind))
    ensures ok ==> o in k.site.target
    ensures k.reliable ==> ok
  {
    var done;
    ok, done := k.Attempt();
    if done { k.Happen(Create(o)); }
    k.Interfere();
  }

  /** One object of the second half: it leaves kind, and nothing else does. */
  method RemoveOne(k: Clusters, o: Object) returns (ok: bool)
    requires k.Valid() && k.site.kindExists && o in k.site.kind && o in k.site.target && o.ns == k.setup.ns
    modifies k`site, k`history
    ensures k.Valid() && k.site.kindExists && k.site.running == old(k.site.running)
    ensures old(k.site.kind.Keys) - {o} <= k.site.kind.Keys && old(k.site.target.Keys) <= k.site.target.Keys
    ensures ok && old(Quiet(k.setup, k.site)) ==>
              Quiet(k.setup, k.site) && Managed(k.setup, k.site.kind) == old(Managed(k.setup, k.site.kind)) - {o}
    ensures k.reliable ==> ok
  {
    var done;
    ok, done := k.Attempt();
    if done { k.Happen(Remove(o)); }
    k.Interfere();
  }

  /** The first half of the move. */
  method CreateAll(k: Clusters, inventory: set<Object>) returns (ok: bool)
    requires k.Valid() && k.site.kindExists && inventory <= Managed(k.setup, k.site.kind)
    modifies k`site, k`history
    ensures k.Valid()
    ensures k.site.kindExists && k.site.running == old(k.site.running)
    ensures inventory <= k.site.kind.Keys
    ensures ok ==> inventory <= k.site.target.Keys
    ensures old(Quiet(k.setup, k.site)) ==>
              Quiet(k.setup, k.site) && Managed(k.setup, k.site.kind) == old(Managed(k.setup, k.site.kind))
    ensures k.reliable ==> ok
  {
    ghost var start := k.site;
    ghost var quiet := Quiet(k.setup, k.site);
    var todo := inventory;
    ok := true;
    while todo != {}
      invariant k.Valid()
      invariant k.site.kindExists && k.site.running == start.running
      invariant todo <= inventory <= k.site.kind.Keys && inventory - todo <= k.site.target.Keys
      invariant quiet ==> Quiet(k.setup, k.site) && Managed(k.setup, k.site.kind) == Managed(k.setup, start.kind)
      invariant ok
      decreases todo
    {
      var o :| o in todo;
      todo := todo - {o};
      ok := CreateOne(k, o);
      if !ok { return; }
    }
  }

  /** The second half: every object is on the target by now. */
  method RemoveAll(k: Clusters, inventory: set<Object>) returns (ok: bool)
    requires k.Valid() && k.site.kindExists && forall o :: o in inventory ==> o.ns == k.setup.ns
    requires inventory <= k.site.kind.Keys && inventory <= k.site.target.Keys
    modifies k`site, k`history
    ensures k.Valid()
    ensures k.site.kindExists && k.site.running == old(k.site.running)
    ensures inventory <= k.site.target.Keys
    ensures ok && old(Quiet(k.setup, k.site) && inventory == Managed(k.setup, k.site.kind)) ==>
              Managed(k.setup, k.site.kind) == {}
    ensures k.reliable ==> ok
  {
    ghost var start := k.site;
    ghost var quiet := Quiet(k.setup, k.site) && inventory == Managed(k.setup, k.site.kind);
    var todo := inventory;
    ok := true;
    while todo != {}
      invariant k.Valid()
      invariant k.site.kindExists && k.site.running == start.running
      invariant todo <= inventory && todo <= k.site.kind.Keys && inventory <= k.site.target.Keys
      invariant quiet ==> Quiet(k.setup, k.site) && Managed(k.setup, k.site.kind) == todo
      invariant ok
      decreases todo
    {
      var o :| o in todo;
      todo := todo - {o};
      ok := RemoveOne(k, o);
      if !ok { return; }
    }
  }

  /** Kind loses nothing and stays emptied, Flux there stays as it is; the target loses nothing,
      and what is active there stays active. */
  ghost predicate HandedOver(setup: Setup, s: Site, s': Site) {
    && s'.kindExists == s.kindExists && s'.running == s.running && s.kind.Keys <= s'.kind.Keys
    && s.target.Keys <= s'.target.Keys && (forall c :: Unpaused(s.target, c) ==> Unpaused(s'.target, c))
    && (s.seeded ==> s'.seeded) && (Emptied(setup, s) ==> Emptied(setup, s'))
  }

  lemma HandsOverTransitively(setup: Setup, a: Site, b: Site, c: Site)
    requires HandedOver(setup, a, b) && HandedOver(setup, b, c)
    ensures HandedOver(setup, a, c)
  {
  }

  lemma DriftHandsOver(setup: Setup, s: Site, s': Site)
    requires Drifts(setup, s, s')
    ensures HandedOver(setup, s, s')
  {
    if Emptied(setup, s) {
      assert AtRest(setup, s) && Managed(setup, s.kind) == {};
      forall o | o in s'.kind ensures o.ns != setup.ns { assert o !in Managed(setup, s'.kind); }
    }
  }

  function ManagedClusters(setup: Setup, inventory: Inventory): set<Object> {
    set o | o in inventory && o.ns == setup.ns && o.isCluster
  }

  lemma EventHandsOver(setup: Setup, s: Site, e: Event)
    requires (e.Unpause? || e.Restore? || e.Seed?) && Enabled(setup, s, e)
    ensures HandedOver(setup, s, After(setup, s, e))
  {
  }

  ghost predicate AllUnpaused(s: Site, clusters: set<Object>) {
    forall c :: c in clusters ==> Unpaused(s.target, c)
  }

  lemma StayUnpaused(setup: Setup, s: Site, s': Site, clusters: set<Object>)
    requires HandedOver(setup, s, s') && AllUnpaused(s, clusters)
    ensures AllUnpaused(s', clusters)
  {
  }

  /** Unpause one Cluster, whatever happens afterwards. */
  method UnpauseOne(k: Clusters, o: Object)
    requires k.Valid() && (k.faithful && k.original ==> Emptied(k.setup, k.site))
    requires o in ManagedClusters(k.setup, k.site.target)
    modifies k`site, k`history
    ensures k.Valid()
    ensures HandedOver(k.setup, old(k.site), k.site)
    ensures k.reliable ==> Unpaused(k.site.target, o)
  {
    ghost var start := k.site;
    var ok, patched := k.Attempt();
    if patched {
      EventHandsOver(k.setup, k.site, Unpause(o));
      k.Happen(Unpause(o));
    }
    ghost var before := k.site;
    k.Interfere();
    DriftHandsOver(k.setup, before, k.site);
    if patched { HandsOverTransitively(k.setup, start, before, k.site); }
  }

  /** After the move: unpause the Clusters listed on the target; single failures are tolerated. */
  method UnpauseClusters(k: Clusters, done: nat) returns (now: nat)
    requires done == 17
    requires k.Valid() && (k.faithful && k.original ==> Emptied(k.setup, k.site))
    modifies k`site, k`history
    ensures k.Valid()
    ensures HandedOver(k.setup, old(k.site), k.site)
    ensures k.reliable ==> AllUnpaused(k.site, ManagedClusters(k.setup, old(k.site.target)))
    ensures now == 18
  {
    now := done;
    ghost var start := k.site;
    var clusters := k.List(ManagedClusters(k.setup, k.site.target), k.reliable);
    ghost var unpaused := {};
    while clusters != {}
      invariant k.Valid() && HandedOver(k.setup, start, k.site)
      invariant clusters <= ManagedClusters(k.setup, start.target)
      invariant k.reliable ==>
                  ManagedClusters(k.setup, start.target) == clusters + unpaused && AllUnpaused(k.site, unpaused)
      decreases clusters
    {
      var o :| o in clusters;
      clusters := clusters - {o};
      ghost var before := k.site;
      assert o in start.target.Keys;
      UnpauseOne(k, o);
      HandsOverTransitively(k.setup, start, before, k.site);
      if k.reliable { StayUnpaused(k.setup, before, k.site, unpaused); }
      unpaused := unpaused + {o};
    }
    now := Passed(CLUSTERS_UNPAUSED, now);
  }

  /** Re-apply one object from the checkout if it is missing. */
  method RestoreOne(k: Clusters, f: Object) returns (ok: bool)
    requires k.Valid() && (k.faithful && k.original ==> Emptied(k.setup, k.site))
    modifies k`site, k`history
    ensures k.Valid() && HandedOver(k.setup, old(k.site), k.site)
    ensures ok ==> f in k.site.target
    ensures k.reliable ==> ok && (f in old(k.site.target) ==> k.site == old(k.site))
  {
    ok := k.Check(f in k.site.target);
    if !ok {
      var done;
      ok, done := k.Attempt();
      if done {
        EventHandsOver(k.setup, k.site, Restore(f));
        k.Happen(Restore(f));
      }
    }
  }

  /** Re-apply from the checkout what should have come over with the inventory. */
  method RestoreFallbacks(k: Clusters, done: nat) returns (ok: bool, now: nat)
    requires done == 18
    requires k.Valid() && (k.faithful && k.original ==> Emptied(k.setup, k.site))
    modifies k`site, k`history
    ensures k.Valid()
    ensures HandedOver(k.setup, old(k.site), k.site)
    ensures ok ==> forall f :: f in k.setup.fallbacks ==> f in k.site.target
    ensures k.reliable ==> ok
    ensures k.reliable && (forall f :: f in k.setup.fallbacks ==> f in old(k.site.target)) ==> k.site == old(k.site)
    ensures if ok then now == 20 else 18 <= now < 20
  {
    now := done;
    ghost var start := k.site;
    ok, now := k.Take(CLUSTERS_LISTED, now, true);
    if !ok { return; }
    for i := 0 to |k.setup.fallbacks|
      invariant k.Valid() && HandedOver(k.setup, start, k.site)
      invariant ok && forall j :: 0 <= j < i ==> k.setup.fallbacks[j] in k.site.target.Keys
      invariant k.reliable && (forall f :: f in k.setup.fallbacks ==> f in start.target) ==> k.site == start
    {
      ghost var before := k.site;
      ok := RestoreOne(k, k.setup.fallbacks[i]);
      HandsOverTransitively(k.setup, start, before, k.site);
      if !ok { return; }
    }
    now := Passed(FALLBACKS_THERE, now);
  }

  // ── Phases 5 and 6 ─────────────────────────────────────────────────────────

  method SeedTarget(k: Clusters, done: nat) returns (ok: bool, now: nat)
    requires done == 20
    requires k.Valid() && (k.faithful && k.original ==> Emptied(k.setup, k.site))
    modifies k`site, k`history
    ensures k.Valid()
    ensures HandedOver(k.setup, old(k.site), k.site)
    ensures ok ==> k.site.seeded
    ensures k.reliable ==> ok
    ensures now == if ok then 21 else 20
  {
    now := done;
    ghost var start := k.site;
    var started;
    ok, started := k.Attempt();
    if started {
      EventHandsOver(k.setup, start, Seed);
      k.Happen(Seed);
    }
    if ok { now := Passed(FLUX_SEEDED, now); }
    ghost var before := k.site;
    k.Interfere();
    DriftHandsOver(k.setup, before, k.site);
    if started { HandsOverTransitively(k.setup, start, before, k.site); }
  }

  method DeleteBootstrapCluster(k: Clusters, skip: bool, done: nat) returns (ok: bool, now: nat)
    requires done == 21
    requires k.Valid() && k.site.kindExists && (k.faithful && k.original ==> Emptied(k.setup, k.site))
    modifies k`site, k`history
    ensures k.Valid()
    ensures k.site.target == old(k.site.target) && k.site.seeded == old(k.site.seeded)
    ensures k.reliable && k.setup.mgmtCluster in ManagedClusters(k.setup, old(k.site.target)) ==> ok
    ensures ok && !skip ==> !k.site.kindExists
    ensures !k.site.kindExists ==>
              !skip && exists c :: c in k.site.target && c.ns == k.setup.ns && c.isCluster
    ensures if skip then ok && now == 21 else if ok then now == 23 else 21 <= now < 23
  {
    now := done;
    if skip { return true, now; }
    var clusters := k.List(ManagedClusters(k.setup, k.site.target), k.reliable);
    if clusters == {} { return false, now; }
    ghost var c :| c in clusters;
    ok, now := k.Take(REGISTRY_STILL_SERVING, now, true);
    if !ok { return; }
    var deleted;
    ok, deleted := k.Attempt();
    if deleted { k.Happen(DeleteKind); }
    if ok { now := Passed(KIND_DELETED, now); }
  }

  // ── Whole pivots ───────────────────────────────────────────────────────────

  /** What a rerun needs to find on kind. */
  predicate Resumable(setup: Setup, s: Site) {
    setup.mgmtCluster in s.kind && setup.secret in s.kind
  }

  predicate SetupValid(setup: Setup) {
    setup.mgmtCluster.isCluster && setup.mgmtCluster.ns == setup.ns && setup.secret.ns == setup.ns
  }

  /** Phases 0 and 1; `failed` is the phase that failed, if any. */
  method LookForCluster(k: Clusters, timeout: nat, interval: nat, done: nat) returns (ok: bool, failed: nat, now: nat)
    requires done == 5
    requires k.Valid() && interval > 0 && SetupValid(k.setup)
    modifies k`site, k`history
    ensures k.Valid() && Drifts(k.setup, old(k.site), k.site) && k.site.providers == old(k.site.providers)
    ensures !ok ==> failed <= 1
    ensures !ok ==> if failed == 0 then now < 8 else now == 8
    ensures k.reliable && Resumable(k.setup, old(k.site)) ==> ok
    ensures old(Quiet(k.setup, k.site)) && !Resumable(k.setup, old(k.site)) ==> !ok
    ensures old(Quiet(k.setup, k.site)) && k.setup.mgmtCluster !in old(k.site.kind) ==> !ok && failed == 0
    ensures if ok then now == 9 else 5 <= now < 9
  {
    now := done;
    ghost var start := k.site;
    ok, now := Preflight(k, now);
    if !ok { return false, 0, now; }
    ghost var a := k.site;
    QuietKeepsManaged(k.setup, start, a);
    ok, now := AwaitSecret(k, timeout, interval, now);
    failed := if ok then 2 else 1;
    DriftsTransitively(k.setup, start, a, k.site);
    QuietKeepsManaged(k.setup, start, k.site);
  }

  /** Phases 0 to 3. */
  method Prepare(k: Clusters, timeout: nat, interval: nat, done: nat) returns (ok: bool, failed: nat, now: nat)
    requires done == 5
    requires k.Valid() && interval > 0 && SetupValid(k.setup)
    modifies k`site, k`history
    ensures k.Valid() && Drifts(k.setup, old(k.site), k.site)
    ensures !ok ==> failed <= 3
    ensures !ok && failed == 0 ==> now < 8
    ensures !ok && failed == 1 ==> now == 8
    ensures !ok && failed == 2 ==> 9 <= now < 11
    ensures !ok && failed == 3 ==> 11 <= now
    ensures ok ==> ProvidersDefined(k.setup, old(k.site))
    ensures k.reliable && Resumable(k.setup, old(k.site)) ==> ok || failed == 3
    ensures k.reliable && Resumable(k.setup, old(k.site)) && ProvidersDefined(k.setup, old(k.site)) ==> ok
    ensures old(Quiet(k.setup, k.site)) && !Resumable(k.setup, old(k.site)) ==> !ok && failed <= 1
    ensures old(Quiet(k.setup, k.site)) && k.setup.mgmtCluster !in old(k.site.kind) ==> !ok && failed == 0
    ensures if ok then now == 15 else 5 <= now < 15
  {
    now := done;
    ghost var start := k.site;
    ok, failed, now := LookForCluster(k, timeout, interval, now);
    if !ok { return; }
    ghost var b := k.site;
    ok, now := ExportKubeconfig(k, now);
    if !ok { return false, 2, now; }
    ghost var c := k.site;
    DriftsTransitively(k.setup, start, b, c);
    ok, now := InstallProviders(k, now);
    DriftsTransitively(k.setup, start, c, k.site);
    failed := if ok then 4 else 3;
  }

  lemma QuietKeepsManaged(setup: Setup, s: Site, s': Site)
    requires Drifts(setup, s, s') && SetupValid(setup)
    ensures Quiet(setup, s) ==> (setup.mgmtCluster in s'.kind <==> setup.mgmtCluster in s.kind)
    ensures Quiet(setup, s) ==> (setup.secret in s'.kind <==> setup.secret in s.kind)
  {
    forall o | o == setup.mgmtCluster || o == setup.secret
      ensures Quiet(setup, s) ==> (o in s'.kind <==> o in s.kind)
    {
      assert o in s.kind <==> o in Managed(setup, s.kind);
      assert o in s'.kind <==> o in Managed(setup, s'.kind);
    }
  }

  /** Phases 5 and 6. */
  method SeedAndDelete(k: Clusters, skipDelete: bool, done: nat) returns (outcome: Outcome, now: nat)
    requires done == 20
    requires k.Valid() && k.site.kindExists && SetupValid(k.setup)
    requires k.faithful && k.original ==> Emptied(k.setup, k.site)
    modifies k`site, k`history
    ensures k.Valid()
    ensures outcome == Completed || outcome == Stopped(5) || outcome == Stopped(6)
    ensures !k.site.kindExists ==>
              && (outcome == Completed || outcome == Stopped(6))
              && exists c :: c in k.site.target && c.ns == k.setup.ns && c.isCluster
    ensures outcome == Completed ==> k.site.seeded && (skipDelete || !k.site.kindExists)
    ensures old(k.site.target.Keys) <= k.site.target.Keys
    ensures forall c :: Unpaused(old(k.site.target), c) ==> Unpaused(k.site.target, c)
    ensures k.reliable && k.setup.mgmtCluster in old(k.site.target) ==> outcome == Completed
    ensures skipDelete ==> k.site.kindExists
    ensures outcome == Completed ==> now == if skipDelete then 21 else 23
    ensures outcome == Stopped(5) ==> now == 20
    ensures outcome == Stopped(6) ==> !skipDelete && 21 <= now < 23
  {
    var ok;
    ok, now := SeedTarget(k, done);
    if !ok { return Stopped(5), now; }
    ok, now := DeleteBootstrapCluster(k, skipDelete, now);
    if !ok { return Stopped(6), now; }
    outcome := Completed;
  }

  /** What follows a successful move: unpause, restore, seed, delete kind. */
  method Finish(k: Clusters, skipDelete: bool, done: nat) returns (outcome: Outcome, now: nat)
    requires done == 17
    requires k.Valid() && k.site.kindExists && SetupValid(k.setup)
    requires k.faithful && k.original ==> Emptied(k.setup, k.site)
    modifies k`site, k`history
    ensures k.Valid()
    ensures outcome == Completed || (outcome.Stopped? && 4 <= outcome.phase <= 6)
    ensures !k.site.kindExists ==>
              && (outcome == Completed || outcome == Stopped(6))
              && exists c :: c in k.site.target && c.ns == k.setup.ns && c.isCluster
    ensures outcome == Completed ==> k.site.seeded && (skipDelete || !k.site.kindExists)
    ensures k.reliable && outcome == Completed ==> AllUnpaused(k.site, ManagedClusters(k.setup, old(k.site.target)))
    ensures k.reliable && k.setup.mgmtCluster in old(k.site.target) ==> outcome == Completed
    ensures skipDelete ==> k.site.kindExists
    ensures old(k.site.target.Keys) <= k.site.target.Keys
    ensures outcome == Completed ==> forall f :: f in k.setup.fallbacks ==> f in k.site.target
    ensures outcome == Completed ==> now == if skipDelete then 21 else 23
    ensures outcome == Stopped(4) ==> 18 <= now < 20
    ensures outcome == Stopped(5) ==> now == 20
    ensures outcome == Stopped(6) ==> !skipDelete && 21 <= now < 23
  {
    ghost var moved := ManagedClusters(k.setup, k.site.target);
    now := UnpauseClusters(k, done);
    ghost var a := k.site;
    var ok;
    ok, now := RestoreFallbacks(k, now);
    if !ok { return Stopped(4), now; }
    if k.reliable { StayUnpaused(k.setup, a, k.site, moved); }
    outcome, now := SeedAndDelete(k, skipDelete, now);
  }

  /** Phase 4, up to the move. */
  method SuspendAndMove(k: Clusters, done: nat) returns (ok: bool, now: nat)
    requires done == 15
    requires k.Valid() && k.site.kindExists
    modifies k`site, k`history
    ensures k.Valid() && k.site.kindExists
    ensures k.reliable ==> ok
    ensures ok ==> forall o :: o in old(k.site.kind) && o.ns == k.setup.ns ==> o in k.site.target
    ensures ok && k.faithful && k.original ==> Emptied(k.setup, k.site)
    ensures if ok then now == 17 else 15 <= now < 17
  {
    now := done;
    ok, now := SuspendFlux(k, now);
    if ok { ok, now := Move(k, now); }
  }

  /** Phases 4 to 6. */
  method HandOver(k: Clusters, skipDelete: bool, done: nat) returns (outcome: Outcome, now: nat)
    requires done == 15
    requires k.Valid() && k.site.kindExists && SetupValid(k.setup)
    modifies k`site, k`history
    ensures k.Valid()
    ensures outcome == Completed || (outcome.Stopped? && 4 <= outcome.phase <= 6)
    ensures !k.site.kindExists ==>
              && (outcome == Completed || outcome == Stopped(6))
              && exists c :: c in k.site.target && c.ns == k.setup.ns && c.isCluster
    ensures outcome == Completed ==> k.site.seeded && (skipDelete || !k.site.kindExists)
    ensures skipDelete ==> k.site.kindExists
    ensures outcome == Completed ==> forall f :: f in k.setup.fallbacks ==> f in k.site.target
    ensures outcome == Completed ==> forall o :: o in old(k.site.kind) && o.ns == k.setup.ns ==> o in k.site.target
    ensures k.reliable && outcome == Completed ==>
              forall c :: c in old(k.site.kind) && c.ns == k.setup.ns && c.isCluster ==> Unpaused(k.site.target, c)
    ensures k.reliable && k.original && k.setup.mgmtCluster in old(k.site.kind) ==> outcome == Completed
    ensures outcome == Completed ==> now == if skipDelete then 21 else 23
    ensures outcome == Stopped(4) ==> 15 <= now < 20
    ensures outcome == Stopped(5) ==> now == 20
    ensures outcome == Stopped(6) ==> !skipDelete && 21 <= now < 23
  {
    ghost var clusters := ManagedClusters(k.setup, k.site.kind);
    assert forall o :: o in clusters ==> o in k.site.kind;
    var ok;
    ok, now := SuspendAndMove(k, done);
    if !ok { return Stopped(4), now; }
    assert clusters <= ManagedClusters(k.setup, k.site.target);
    outcome, now := Finish(k, skipDelete, now);
  }

  /** The pivot. Stopping anywhere, with any interference, leaves a safe history behind; a
      fault-free run completes from exactly the states that still hold the management Cluster
      and its kubeconfig secret on kind, and then Flux and every moved Cluster are active on the
      target. */
  method RunPivot(k: Clusters, timeout: nat, interval: nat, skipDelete: bool, done: nat)
    returns (outcome: Outcome, now: nat)
    requires done == 5
    requires k.Valid() && interval > 0 && SetupValid(k.setup) && k.site.kindExists
    modifies k`site, k`history
    ensures k.Valid()
    ensures outcome != NotStarted
    ensures !k.site.kindExists ==>
              && (outcome == Completed || outcome == Stopped(6))
              && exists c :: c in k.site.target && c.ns == k.setup.ns && c.isCluster
    ensures outcome == Completed ==> k.site.seeded && (skipDelete || !k.site.kindExists)
    ensures skipDelete ==> k.site.kindExists
    ensures outcome == Completed ==> forall f :: f in k.setup.fallbacks ==> f in k.site.target
    ensures outcome == Completed ==> forall o :: o in old(k.site.kind) && o.ns == k.setup.ns ==> o in k.site.target
    ensures k.reliable && outcome == Completed ==>
              forall c :: c in old(k.site.kind) && c.ns == k.setup.ns && c.isCluster ==> Unpaused(k.site.target, c)
    ensures outcome == Completed ==> now == if skipDelete then 21 else 23
    ensures outcome.Stopped? ==> outcome.phase <= 6
    ensures outcome == Stopped(0) ==> 5 <= now < 8
    ensures outcome == Stopped(1) ==> now == 8
    ensures outcome == Stopped(2) ==> 9 <= now < 11
    ensures outcome == Stopped(3) ==> 11 <= now < 15
    ensures outcome == Stopped(4) ==> 15 <= now < 20
    ensures outcome == Stopped(5) ==> now == 20
    ensures outcome == Stopped(6) ==> !skipDelete && 21 <= now < 23
    ensures (k.reliable && k.original &&
             k.setup.mgmtCluster in old(k.site.kind) && k.setup.secret in old(k.site.kind) &&
             forall p :: p in k.setup.waited ==> p in old(k.site.providers) || p in k.setup.manifests) ==>
              outcome == Completed
    ensures (exists p :: p in k.setup.waited && p !in old(k.site.providers) && p !in k.setup.manifests) ==>
              outcome.Stopped? && outcome.phase <= 3
    ensures k.reliable && k.original && Resumable(k.setup, old(k.site)) ==> !StoppedEarly(outcome)
    ensures old(Quiet(k.setup, k.site)) && !Resumable(k.setup, old(k.site)) ==> StoppedEarly(outcome)
    ensures old(Quiet(k.setup, k.site)) && k.setup.mgmtCluster !in old(k.site.kind) ==>
              outcome == Stopped(0) && k.site.kindExists && Drifts(k.setup, old(k.site), k.site)
  {
    var ok, failed;
    ok, failed, now := Prepare(k, timeout, interval, done);
    if !ok { return Stopped(failed), now; }
    assert old(k.site.kind.Keys) <= k.site.kind.Keys;
    outcome, now := HandOver(k, skipDelete, now);
  }

  /** Once kind is gone, the target holds every managed object there ever was. */
  lemma KindGoneMeansSelfManaged(setup: Setup, s: Site, o: Object)
    requires Inv(setup, s) && !s.kindExists && o in s.ever && o.ns == setup.ns
    ensures o in s.target
  {
    assert o !in s.kind;
  }

  /** Phases 0 and 1 are the ones that look for the management Cluster and its secret. */
  predicate StoppedEarly(outcome: Outcome) { outcome == Stopped(0) || outcome == Stopped(1) }

  // ── Bootstraps ─────────────────────────────────────────────────────────────

  /** `kind create cluster`, which refuses a name that is taken. */
  method CreateKindCluster(k: Clusters) returns (ok: bool)
    requires k.Valid()
    modifies k
    ensures k.Valid()
    ensures !old(k.original) ==> !k.original && k.byCreation == old(k.byCreation)
    ensures old(k.site.kindExists) ==> !ok && k.original == old(k.original) && k.site == old(k.site)
    ensures !old(k.site.kindExists) && Creatable(k.setup, old(k.site)) ==> k.original == old(k.original)
    ensures !old(k.site.kindExists) && k.reliable ==> ok && k.site.kind == map[]
    ensures old(k.original) && !k.original ==> k.byCreation
    ensures ok ==> k.site.kindExists
  {
    if k.site.kindExists { return false; }
    var created, there := k.Attempt();
    if there { k.Replace(CreateKind); }
    if !created { return false; }
    ok := k.Check(true);
  }

  /** Step 1 of a bootstrap: reuse the kind cluster if the listing shows it, unless told to
      recreate it. */
  method EnsureKindCluster(k: Clusters, recreate: bool, done: nat) returns (ok: bool, now: nat)
    requires done == 1
    requires k.Valid()
    modifies k
    ensures k.Valid()
    ensures !old(k.original) ==> !k.original && k.byCreation == old(k.byCreation)
    ensures !recreate && old(k.site.kindExists) ==>
              k.original == old(k.original) && k.site == old(k.site) && (k.reliable ==> ok)
    ensures recreate && old(k.site.kindExists) && k.reliable ==> ok && k.site.kind == map[]
    ensures !old(k.site.kindExists) && Creatable(k.setup, old(k.site)) ==> k.original == old(k.original)
    ensures !recreate && old(k.original) && !k.original ==> k.byCreation
    ensures ok ==> k.site.kindExists
    ensures k.reliable ==> ok
    ensures recreate && old(k.original && k.site.kindExists) && !Emptied(k.setup, old(k.site)) && k.reliable ==>
              !k.original && !k.byCreation
    ensures now == if ok then 2 else 1
  {
    now := done;
    var listed := k.Check(k.site.kindExists);
    if listed && !recreate {
      var context := k.Check(true);
      if !context {
        var exported := k.Check(true);
        if !exported { return false, now; }
      }
      ok, now := k.Take(KIND_THERE, now, true);
      return;
    }
    if listed {
      var deleted, gone := k.Attempt();
      if gone { k.Replace(DeleteKind); }
      if !deleted { return false, now; }
    }
    ok := CreateKindCluster(k);
    if ok { now := Passed(KIND_THERE, now); }
  }

  /** The steps between kind and the pivot: the registry, the Flux Operator, the secrets, the
      FluxInstance, and the look at what comes of it. Flux that is there already is installed
      again, which leaves suspended what a pivot has suspended. */
  method InstallFluxOnKind(k: Clusters, done: nat) returns (ok: bool, now: nat)
    requires done == 2
    requires k.Valid() && k.site.kindExists
    modifies k`site, k`history
    ensures k.Valid() && Drifts(k.setup, old(k.site), k.site) && k.site.providers == old(k.site.providers)
    ensures k.reliable ==> ok
    ensures if ok then now == 5 else 2 <= now < 5
  {
    now := done;
    ghost var start := k.site;
    k.Interfere();
    ok, now := k.Take(FLUX_PREPARED, now, true);
    if !ok { return; }
    var installed;
    ok, installed := k.Attempt();
    if installed { k.Happen(InstallFlux); }
    if ok { now := Passed(FLUX_INSTALLED, now); }
    ghost var mid := k.site;
    k.Interfere();
    DriftsTransitively(k.setup, start, mid, k.site);
    if ok { ok, now := k.Take(FLUX_WATCHED, now, true); }
  }

  /** What a bootstrap does once kind is there. */
  method FluxAndPivot(k: Clusters, pivot: bool, timeout: nat, interval: nat, skipDelete: bool, done: nat)
    returns (outcome: Outcome, now: nat)
    requires done == 2
    requires k.Valid() && interval > 0 && SetupValid(k.setup) && k.site.kindExists
    modifies k`site, k`history
    ensures k.Valid()
    ensures Emptied(k.setup, old(k.site)) ==>
              (outcome == NotStarted || outcome == Stopped(0)) && k.site.kindExists && Emptied(k.setup, k.site)
    ensures (k.reliable && pivot && k.original && Resumable(k.setup, old(k.site)) &&
             ProvidersDefined(k.setup, old(k.site))) ==> outcome == Completed
    ensures !pivot ==> outcome == NotStarted && k.site.kindExists && old(k.site.kind.Keys) <= k.site.kind.Keys
    ensures skipDelete ==> k.site.kindExists
    ensures outcome == NotStarted <==> !pivot || now < 5
    ensures k.reliable && !pivot ==> now == 5
    ensures outcome == Completed ==> now == if skipDelete then 21 else 23
  {
    ghost var start := k.site;
    var ok;
    ok, now := InstallFluxOnKind(k, done);
    ghost var settled := k.site;
    DriftHandsOver(k.setup, start, settled);
    if !ok || !pivot { return NotStarted, now; }
    outcome, now := RunPivot(k, timeout, interval, skipDelete, now);
    if Emptied(k.setup, settled) && outcome == Stopped(0) && Drifts(k.setup, settled, k.site) {
      DriftHandsOver(k.setup, settled, k.site);
    }
  }

  /** A bootstrap ends in the pivot, if it is wanted. Without `--recreate` it is safe when it finds
      kind, and when it may create one; from a kind that a move has emptied it does not get past
      Phase 0, and before the move a fault-free one completes. */
  method RunBootstrap(k: Clusters, recreate: bool, pivot: bool, timeout: nat, interval: nat, skipDelete: bool)
    returns (outcome: Outcome, now: nat)
    requires k.Valid() && interval > 0 && SetupValid(k.setup)
    modifies k
    ensures k.Valid()
    ensures !old(k.original) ==> !k.original && k.byCreation == old(k.byCreation)
    ensures !recreate && (old(k.site.kindExists) || Creatable(k.setup, old(k.site))) ==> k.original == old(k.original)
    ensures !recreate && old(k.original) && !k.original ==> k.byCreation
    ensures !recreate && old(k.site.kindExists) && Emptied(k.setup, old(k.site)) ==>
              (outcome == NotStarted || outcome == Stopped(0)) && k.site.kindExists && Emptied(k.setup, k.site)
    ensures (k.reliable && pivot && !recreate && old(k.original && k.site.kindExists) &&
             k.setup.mgmtCluster in old(k.site.kind) && k.setup.secret in old(k.site.kind) &&
             forall p :: p in k.setup.waited ==> p in old(k.site.providers) || p in k.setup.manifests) ==>
              outcome == Completed
    ensures !pivot ==> outcome == NotStarted
    ensures !pivot && !recreate && old(k.site.kindExists) ==>
              k.site.kindExists && old(k.site.kind.Keys) <= k.site.kind.Keys
    ensures skipDelete && !recreate && old(k.site.kindExists) ==> k.site.kindExists
    ensures recreate && old(k.original && k.site.kindExists) && !Emptied(k.setup, old(k.site)) && k.reliable ==>
              !k.original && !k.byCreation
    ensures outcome == NotStarted <==> !pivot || now < 5
    ensures k.reliable && !pivot ==> now == 5
    ensures outcome == Completed ==> now == if skipDelete then 21 else 23
  {
    var ok;
    ok, now := k.Take(PREFLIGHT_PASSED, 0, true);
    if !ok { return NotStarted, now; }
    ok, now := EnsureKindCluster(k, recreate, now);
    if !ok { return NotStarted, now; }
    outcome, now := FluxAndPivot(k, pivot, timeout, interval, skipDelete, now);
  }

  /** Any number of bootstraps without `--recreate`, from whatever state, with whatever failing in
      each of them: every state on the way is safe, and kind was deleted only when it was empty and
      the target held the whole inventory; up to the first creation of kind, if any, over a target
      that had taken over. */
  method RerunBootstraps(k: Clusters, runs: nat, timeout: nat, interval: nat)
    requires k.Valid() && k.original && k.faithful && interval > 0 && SetupValid(k.setup)
    modifies k
    ensures k.Valid()
    ensures k.original ==> SafeHistory(k.setup, k.history)
    ensures !k.original ==>
              LapsedByCreation(k.setup, k.history, k.lapse) && SafeHistory(k.setup, k.history[..k.lapse])
  {
    for i := 0 to runs
      invariant k.Valid() && (!k.original ==> k.byCreation)
    {
      var pivot, skip: bool := *, *;
      var outcome, steps := RunBootstrap(k, false, pivot, timeout, interval, skip);
    }
  }
}
