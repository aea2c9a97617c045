/** The pivot (bootstrap-rs/src/main.rs, `run_pivot` and its phases) against two clusters on
    which Flux and the controllers go on working between any two commands. */
module Pivot {
  import opened PivotSite
  import Polling

  datatype Outcome = NotStarted | Completed | Stopped(phase: nat)

  // The steps of a bootstrap and its pivot, in order.

  // before the pivot
  const PREFLIGHT_PASSED: nat := 0
  const KIND_THERE: nat := 1
  const FLUX_PREPARED: nat := 2
  const FLUX_INSTALLED: nat := 3
  const FLUX_WATCHED: nat := 4

  // phase 0
  const CONTEXT_CHECKED: nat := 5
  const CLUSTER_FOUND: nat := 6
  const REGISTRY_SERVING: nat := 7

  // phase 1
  const SECRET_FOUND: nat := 8

  // phase 2
  const KUBECONFIG_WRITTEN: nat := 9
  const NODES_READY: nat := 10

  // phase 3
  const OPERATORS_INSTALLED: nat := 11
  const MANIFESTS_APPLIED: nat := 12
  const CREDENTIALS_THERE: nat := 13
  const PROVIDERS_READY: nat := 14

  // phase 4
  const FLUX_SUSPENDED: nat := 15
  const INVENTORY_MOVED: nat := 16
  const CLUSTERS_UNPAUSED: nat := 17
  const CLUSTERS_LISTED: nat := 18
  const FALLBACKS_THERE: nat := 19

  // phase 5
  const FLUX_SEEDED: nat := 20

  // phase 6
  const REGISTRY_STILL_SERVING: nat := 21
  const KIND_DELETED: nat := 22

  /** Step number `done` has succeeded; no step is taken before its turn. */
  function Passed(step: nat, done: nat): (now: nat)
    requires done == step
    ensures now == done + 1
  {
    done + 1
  }

  /** The state is logged after every event. `faithful`: listing the Kustomizations to suspend
      misses none. `reliable`: no command fails without a reason. Safety is promised of the whole
      history, or of the part before the first unlicensed creation or recreation of kind. */
  class Clusters {
    const setup: Setup
    const faithful: bool
    const reliable: bool
    const first: Site
    var site: Site
    ghost var history: seq<Site>
    /** No bootstrap has created or deleted kind without a license; otherwise the first one to do
        so led to the state number `lapse`. */
    ghost var original: bool
    ghost var lapse: nat
    ghost var byCreation: bool

    ghost predicate Valid()
      reads this
    {
      (reliable ==> faithful) && Records(site)
    }

    /** The log is the one of a run that has reached `s`. */
    ghost predicate Records(s: Site)
      reads this`history, this`original, this`lapse, this`byCreation
    {
      && Logged(setup, first, s, history)
      && if original then faithful ==> Inv(setup, s) && SafeHistory(setup, history)
         else Lapsed(setup, history, lapse, byCreation, faithful)
    }

    constructor (setup: Setup, site: Site, faithful: bool, reliable: bool)
      requires (reliable ==> faithful) && Inv(setup, site)
      ensures Valid() && this.setup == setup && this.first == site && this.site == site
      ensures this.faithful == faithful && this.reliable == reliable && original
    {
      this.setup, this.faithful, this.reliable := setup, faithful, reliable;
      this.first, this.site := site, site;
      history := [site];
      original, lapse, byCreation := true, 0, true;
    }

    ghost method Record(s: Site, e: Event)
      requires Records(s) && Enabled(setup, s, e) && (faithful && original ==> Licensed(setup, s, e))
      modifies this`history
      ensures Records(After(setup, s, e)) && history == old(history) + [After(setup, s, e)]
    {
      if faithful && original { SafelyAppended(setup, history, s, e); }
      if !original { LapseStays(setup, history, After(setup, s, e), lapse, byCreation, faithful); }
      Appended(setup, first, history, s, e);
      history := history + [After(setup, s, e)];
    }

    ghost method RecordLapse(s: Site, e: Event)
      requires Records(s) && Enabled(setup, s, e) && (e.CreateKind? || e.DeleteKind?)
      requires original && !Licensed(setup, s, e)
      modifies this`history, this`original, this`lapse, this`byCreation
      ensures Records(After(setup, s, e)) && history == old(history) + [After(setup, s, e)]
      ensures !original && byCreation == e.CreateKind?
    {
      LapseBegins(setup, history, s, e, faithful);
      Appended(setup, first, history, s, e);
      original, lapse, byCreation := false, |history|, e.CreateKind?;
      history := history + [After(setup, s, e)];
    }

    method Happen(e: Event)
      requires Valid() && Enabled(setup, site, e)
      requires faithful && original ==> Licensed(setup, site, e)
      modifies this`site, this`history
      ensures Valid() && site == After(setup, old(site), e) && history == old(history) + [site]
    {
      Record(site, e);
      site := After(setup, site, e);
    }

    /** The creation or the deletion of kind outside a pivot. */
    method Replace(e: Event)
      requires Valid() && Enabled(setup, site, e) && (e.CreateKind? || e.DeleteKind?)
      modifies this
      ensures Valid() && site == After(setup, old(site), e)
      ensures original == (old(original) && Licensed(setup, old(site), e)) && history == old(history) + [site]
      ensures !old(original) ==> byCreation == old(byCreation)
      ensures old(original) && !original ==> byCreation == e.CreateKind?
    {
      if original && !Licensed(setup, site, e) {
        RecordLapse(site, e);
      } else {
        Record(site, e);
      }
      site := After(setup, site, e);
    }

    /** Any number of things that happen by themselves. */
    method Interfere()
      requires Valid()
      modifies this`site, this`history
      ensures Valid()
      ensures Drifts(setup, old(site), site) && site.providers == old(site.providers)
    {
      ghost var start := site;
      var n :| n >= 0;
      for i := 0 to n
        invariant Valid() && Drifts(setup, start, site) && site.providers == start.providers
      {
        var e: Event := *;
        if IsInterference(e) && Enabled(setup, site, e) {
          DriftsFurther(setup, start, site, e);
          Happen(e);
        }
      }
    }

    /** A command that reports whether something is the case: it may fail for other reasons,
        but it does not succeed without cause. */
    method Check(truth: bool) returns (ok: bool)
      ensures ok ==> truth
      ensures reliable ==> ok == truth
    {
      ok := *;
      if reliable || !truth { ok := truth; }
    }

    /** A step that succeeds only if something is the case; `done` steps have succeeded before. */
    method Take(step: nat, done: nat, truth: bool) returns (ok: bool, now: nat)
      requires done == step
      ensures ok ==> truth
      ensures reliable ==> ok == truth
      ensures now == done + if ok then 1 else 0
    {
      ok := Check(truth);
      now := if ok then Passed(step, done) else done;
    }

    /** A command that changes something: when it fails, it may have had its effect all the same. */
    method Attempt() returns (ok: bool, done: bool)
      ensures ok ==> done
      ensures reliable ==> ok
    {
      ok := Check(true);
      done := *;
      if ok { done := true; }
    }

    /** A listing whose failure looks like an empty list. */
    method List<T(==)>(all: set<T>, complete: bool) returns (items: set<T>)
      ensures items <= all && (complete ==> items == all)
    {
      items := *;
      if complete || !(items <= all) { items := all; }
    }
  }

  ghost predicate Follows(setup: Setup, s: Site, s': Site) {
    exists e :: Enabled(setup, s, e) && s' == After(setup, s, e)
  }

  /** Each state follows from the one before by an event: nothing is left out. */
  ghost predicate Execution(setup: Setup, history: seq<Site>)
    decreases |history|
  {
    var n := |history| - 1;
    n > 0 ==> Follows(setup, history[n - 1], history[n]) && Execution(setup, history[..n])
  }

  /** Every state is safe, and so is every step from one to the next. */
  ghost predicate SafeHistory(setup: Setup, history: seq<Site>)
    decreases |history|
  {
    var n := |history| - 1;
    n >= 0 ==>
      && Safe(setup, history[n]) && (n > 0 ==> SafeStep(setup, history[n - 1], history[n]))
      && SafeHistory(setup, history[..n])
  }

  /** The log starts at `first`, ends at `site` and misses nothing. */
  ghost predicate Logged(setup: Setup, first: Site, site: Site, history: seq<Site>) {
    |history| > 0 && history[0] == first && history[|history| - 1] == site && Execution(setup, history)
  }

  lemma Appended(setup: Setup, first: Site, history: seq<Site>, site: Site, e: Event)
    requires Logged(setup, first, site, history) && Enabled(setup, site, e)
    ensures Logged(setup, first, After(setup, site, e), history + [After(setup, site, e)])
  {
    assert (history + [After(setup, site, e)])[..|history|] == history;
    assert Follows(setup, site, After(setup, site, e));
  }

  lemma SafelyAppended(setup: Setup, history: seq<Site>, site: Site, e: Event)
    requires |history| > 0 && history[|history| - 1] == site && SafeHistory(setup, history)
    requires Inv(setup, site) && Enabled(setup, site, e) && Licensed(setup, site, e)
    ensures Inv(setup, After(setup, site, e)) && SafeHistory(setup, history + [After(setup, site, e)])
  {
    StepKeepsInv(setup, site, e);
    assert (history + [After(setup, site, e)])[..|history|] == history;
  }

  lemma {:induction false} SafeThroughout(setup: Setup, history: seq<Site>, i: nat)
    requires SafeHistory(setup, history) && Execution(setup, history) && i < |history|
    ensures Safe(setup, history[i])
    ensures i > 0 ==> Follows(setup, history[i - 1], history[i]) && SafeStep(setup, history[i - 1], history[i])
    decreases |history|
  {
    if i < |history| - 1 { SafeThroughout(setup, history[..|history| - 1], i); }
  }

  /** What a safe history promises of each of its states and steps, field by field: no managed
      Cluster is unpaused on both sides, every object is on one side unless it went with kind from
      another namespace, and kind goes only with Flux suspended, no managed object left in it, and
      every managed object on the target. */
  lemma SafeInFull(setup: Setup, history: seq<Site>, i: nat)
    requires SafeHistory(setup, history) && Execution(setup, history) && i < |history|
    ensures forall c: Object :: c.ns == setup.ns && c.isCluster && c in history[i].kind && c in history[i].target ==>
                                  history[i].kind[c] || history[i].target[c]
    ensures forall o :: o in history[i].ever ==>
                          o in history[i].kind || o in history[i].target || (!history[i].kindExists && o.ns != setup.ns)
    ensures i > 0 && history[i - 1].kindExists && !history[i].kindExists ==>
              var s := history[i - 1];
              && s.running == {} && (forall o :: o in s.kind ==> o.ns != setup.ns)
              && forall o :: o in s.ever && o.ns == setup.ns ==> o in s.target
  {
    SafeThroughout(setup, history, i);
    forall c: Object | c.ns == setup.ns && c.isCluster && c in history[i].kind && c in history[i].target
      ensures history[i].kind[c] || history[i].target[c]
    {
      assert !(Unpaused(history[i].kind, c) && Unpaused(history[i].target, c));
    }
  }

  lemma StepLosesNothing(setup: Setup, s: Site, s': Site, o: Object)
    requires Follows(setup, s, s') && SafeStep(setup, s, s') && (!s.kindExists ==> s.kind == map[])
    ensures !s'.kindExists ==> s'.kind == map[]
    ensures o.ns == setup.ns && (o in s.kind || o in s.target) ==> o in s'.kind || o in s'.target
  {
    var e :| Enabled(setup, s, e) && s' == After(setup, s, e);
    EventLosesNothing(setup, s, e, o);
  }

  lemma EventLosesNothing(setup: Setup, s: Site, e: Event, o: Object)
    requires Enabled(setup, s, e) && SafeStep(setup, s, After(setup, s, e)) && (!s.kindExists ==> s.kind == map[])
    ensures !After(setup, s, e).kindExists ==> After(setup, s, e).kind == map[]
    ensures o.ns == setup.ns && (o in s.kind || o in s.target) ==>
              o in After(setup, s, e).kind || o in After(setup, s, e).target
  {
    match e {
      case Remove(_) =>
      case DeleteKind =>
      case CreateKind =>
      case _ =>
    }
  }

  /** A managed object that is on one of the two sides at some time is on one of them ever after,
      whatever runs, fails or interferes. */
  lemma {:induction false} NothingIsEverLost(setup: Setup, history: seq<Site>, i: nat, j: nat, o: Object)
    requires SafeHistory(setup, history) && Execution(setup, history) && i <= j < |history|
    requires !history[0].kindExists ==> history[0].kind == map[]
    ensures !history[j].kindExists ==> history[j].kind == map[]
    ensures o.ns == setup.ns && (o in history[i].kind || o in history[i].target) ==>
              o in history[j].kind || o in history[j].target
  {
    if j > 0 {
      NothingIsEverLost(setup, history, if i < j then i else j - 1, j - 1, o);
      SafeThroughout(setup, history, j);
      StepLosesNothing(setup, history[j - 1], history[j], o);
    }
  }

  /** Kind was created over a target that had taken over, or with something lost. */
  ghost predicate LapsedByCreation(setup: Setup, history: seq<Site>, lapse: nat) {
    && 0 < lapse < |history|
    && !history[lapse - 1].kindExists && history[lapse].kindExists && !Creatable(setup, history[lapse - 1])
  }

  /** Kind was deleted with something in it, or with Flux at work. */
  ghost predicate LapsedByDeletion(setup: Setup, history: seq<Site>, lapse: nat) {
    && 0 < lapse < |history|
    && history[lapse - 1].kindExists && !history[lapse].kindExists && !Emptied(setup, history[lapse - 1])
  }

  /** State number `lapse` is the first that came about without a license; all before it is safe. */
  ghost predicate Lapsed(setup: Setup, history: seq<Site>, lapse: nat, byCreation: bool, faithful: bool) {
    && (if byCreation then LapsedByCreation(setup, history, lapse) else LapsedByDeletion(setup, history, lapse))
    && (faithful ==> SafeHistory(setup, history[..lapse]))
  }

  lemma LapseBegins(setup: Setup, history: seq<Site>, site: Site, e: Event, faithful: bool)
    requires |history| > 0 && history[|history| - 1] == site && (e.CreateKind? || e.DeleteKind?)
    requires Enabled(setup, site, e) && !Licensed(setup, site, e) && (faithful ==> SafeHistory(setup, history))
    ensures Lapsed(setup, history + [After(setup, site, e)], |history|, e.CreateKind?, faithful)
  {
    assert (history + [After(setup, site, e)])[..|history|] == history;
  }

  lemma LapseStays(setup: Setup, history: seq<Site>, s: Site, lapse: nat, byCreation: bool, faithful: bool)
    requires Lapsed(setup, history, lapse, byCreation, faithful)
    ensures Lapsed(setup, history + [s], lapse, byCreation, faithful)
  {
    assert (history + [s])[..lapse] == history[..lapse];
  }

  function Managed(setup: Setup, inventory: Inventory): set<Object> {
    set o | o in inventory && o.ns == setup.ns
  }

  /** No managed Cluster on kind is being reconciled. */
  predicate AtRest(setup: Setup, s: Site) {
    forall o :: o in s.kind && o.ns == setup.ns && o.isCluster ==> s.kind[o]
  }

  /** What interference can do: add objects, never take any away; and on a kind whose Flux is
      suspended and whose Clusters are paused it does not touch the managed inventory. */
  ghost predicate Drifts(setup: Setup, s: Site, s': Site) {
    && s'.kindExists == s.kindExists && s'.running == s.running && s'.seeded == s.seeded
    && s.kind.Keys <= s'.kind.Keys && s.target.Keys <= s'.target.Keys
    && (forall c :: Unpaused(s.target, c) ==> Unpaused(s'.target, c))
    && (s.running == {} && AtRest(setup, s) ==>
          AtRest(setup, s') && Managed(setup, s'.kind) == Managed(setup, s.kind))
  }

  lemma DriftsFurther(setup: Setup, start: Site, s: Site, e: Event)
    requires Drifts(setup, start, s) && IsInterference(e) && Enabled(setup, s, e)
    ensures Drifts(setup, start, After(setup, s, e))
  {
    var s' := After(setup, s, e);
    if start.running == {} && AtRest(setup, start) && e.ControllersOnKind? {
      assert e.cluster.ns != setup.ns;
    }
  }

  lemma DriftsTransitively(setup: Setup, a: Site, b: Site, c: Site)
    requires Drifts(setup, a, b) && Drifts(setup, b, c)
    ensures Drifts(setup, a, c)
  {
  }

  // ── Phases 0 to 3 ──────────────────────────────────────────────────────────

  /** Phase 0: the context, the management Cluster on kind, the registry. */
  method Preflight(k: Clusters, done: nat) returns (ok: bool, now: nat)
    requires done == 5
    requires k.Valid()
    modifies k`site, k`history
    ensures k.Valid() && Drifts(k.setup, old(k.site), k.site)
    ensures k.site.providers == old(k.site.providers)
    ensures ok ==> k.setup.mgmtCluster in k.site.kind
    ensures k.reliable && k.setup.mgmtCluster in old(k.site.kind) ==> ok
    ensures if ok then now == 8 else 5 <= now < 8
  {
    now := done;
    ok, now := k.Take(CONTEXT_CHECKED, now, true);
    if !ok { return; }
    k.Interfere();
    ok, now := k.Take(CLUSTER_FOUND, now, k.setup.mgmtCluster in k.site.kind);
    if !ok { return; }
    ok, now := k.Take(REGISTRY_SERVING, now, true);
  }

  /** Phase 1: wait for the kubeconfig secret. */
  method AwaitSecret(k: Clusters, timeout: nat, interval: nat, done: nat) returns (found: bool, now: nat)
    requires done == 8
    requires k.Valid() && interval > 0
    modifies k`site, k`history
    ensures k.Valid() && Drifts(k.setup, old(k.site), k.site)
    ensures k.site.providers == old(k.site.providers)
    ensures found ==> k.setup.secret in k.site.kind
    ensures k.reliable && k.setup.secret in old(k.site.kind) ==> found
    ensures now == if found then 9 else 8
  {
    now := done;
    ghost var start := k.site;
    found := false;
    for i := 0 to Polling.Budget(timeout, interval)
      invariant k.Valid() && Drifts(k.setup, start, k.site)
      invariant k.site.providers == start.providers
      invariant found ==> k.setup.secret in k.site.kind
    {
      found := k.Check(k.setup.secret in k.site.kind);
      if found { break; }
      k.Interfere();
    }
    if !found { found := k.Check(k.setup.secret in k.site.kind); }
    if found { now := Passed(SECRET_FOUND, now); }
  }

  /** Phase 2: export the kubeconfig and wait for the nodes. */
  method ExportKubeconfig(k: Clusters, done: nat) returns (ok: bool, now: nat)
    requires done == 9
    requires k.Valid()
    modifies k`site, k`history
    ensures k.Valid() && Drifts(k.setup, old(k.site), k.site)
    ensures k.site.providers == old(k.site.providers)
    ensures k.reliable && k.setup.secret in old(k.site.kind) ==> ok
    ensures if ok then now == 11 else 9 <= now < 11
  {
    now := done;
    k.Interfere();
    ok, now := k.Take(KUBECONFIG_WRITTEN, now, k.setup.secret in k.site.kind);
    if !ok { return; }
    ok, now := k.Take(NODES_READY, now, true);
    k.Interfere();
  }

  lemma InstallDrifts(setup: Setup, s: Site, p: string)
    ensures Drifts(setup, s, After(setup, s, Install(p)))
  {
  }

  /** Apply one provider manifest. */
  method InstallOne(k: Clusters, p: string) returns (ok: bool)
    requires k.Valid()
    modifies k`site, k`history
    ensures k.Valid() && Drifts(k.setup, old(k.site), k.site)
    ensures old(k.site.providers) <= k.site.providers <= old(k.site.providers) + {p} && (ok ==> p in k.site.providers)
    ensures k.reliable ==> ok
  {
    var done;
    ok, done := k.Attempt();
    if !done { return; }
    InstallDrifts(k.setup, k.site, p);
    k.Happen(Install(p));
    ghost var mid := k.site;
    k.Interfere();
    DriftsTransitively(k.setup, old(k.site), mid, k.site);
  }

  function Elements(items: seq<string>): set<string> { set p | p in items }

  /** The wait for one provider. */
  method AwaitProvider(k: Clusters, p: string) returns (ok: bool)
    requires k.Valid()
    modifies k`site, k`history
    ensures k.Valid() && Drifts(k.setup, old(k.site), k.site)
    ensures k.site.providers == old(k.site.providers)
    ensures ok ==> p in k.site.providers
    ensures k.reliable && p in k.site.providers ==> ok
  {
    k.Interfere();
    ok := k.Check(p in k.site.providers);
  }

  /** Every provider that Phase 3 waits for is there, or in the manifests that Phase 3 applies. */
  predicate ProvidersDefined(setup: Setup, s: Site) {
    forall p :: p in setup.waited ==> p in s.providers || p in setup.manifests
  }

  method ApplyManifests(k: Clusters) returns (ok: bool)
    requires k.Valid()
    modifies k`site, k`history
    ensures k.Valid() && Drifts(k.setup, old(k.site), k.site)
    ensures k.site.providers <= old(k.site.providers) + Elements(k.setup.manifests)
    ensures ok ==> k.site.providers == old(k.site.providers) + Elements(k.setup.manifests)
    ensures k.reliable ==> ok
  {
    ghost var start := k.site;
    ok := true;
    for i := 0 to |k.setup.manifests|
      invariant k.Valid() && Drifts(k.setup, start, k.site)
      invariant k.site.providers == start.providers + Elements(k.setup.manifests[..i])
      invariant ok
    {
      ghost var before := k.site;
      ok := InstallOne(k, k.setup.manifests[i]);
      DriftsTransitively(k.setup, start, before, k.site);
      if !ok { return; }
      assert k.setup.manifests[..i + 1] == k.setup.manifests[..i] + [k.setup.manifests[i]];
    }
    assert k.setup.manifests[..|k.setup.manifests|] == k.setup.manifests;
  }

  method AwaitProviders(k: Clusters) returns (ok: bool)
    requires k.Valid()
    modifies k`site, k`history
    ensures k.Valid() && Drifts(k.setup, old(k.site), k.site) && k.site.providers == old(k.site.providers)
    ensures ok ==> Elements(k.setup.waited) <= k.site.providers
    ensures k.reliable && Elements(k.setup.waited) <= k.site.providers ==> ok
  {
    ghost var start := k.site;
    ok := true;
    for i := 0 to |k.setup.waited|
      invariant k.Valid() && Drifts(k.setup, start, k.site) && k.site.providers == start.providers
      invariant ok && Elements(k.setup.waited[..i]) <= k.site.providers
    {
      assert k.setup.waited[i] in Elements(k.setup.waited);
      assert k.setup.waited[..i + 1] == k.setup.waited[..i] + [k.setup.waited[i]];
      ok := AwaitNextProvider(k, start, i);
      if !ok { return; }
    }
    assert k.setup.waited[..|k.setup.waited|] == k.setup.waited;
  }

  method AwaitNextProvider(k: Clusters, ghost start: Site, i: nat) returns (ok: bool)
    requires k.Valid() && i < |k.setup.waited| && Drifts(k.setup, start, k.site)
    modifies k`site, k`history
    ensures k.Valid() && Drifts(k.setup, start, k.site) && k.site.providers == old(k.site.providers)
    ensures ok ==> k.setup.waited[i] in k.site.providers
    ensures k.reliable && k.setup.waited[i] in k.site.providers ==> ok
  {
    ghost var before := k.site;
    ok := AwaitProvider(k, k.setup.waited[i]);
    DriftsTransitively(k.setup, start, before, k.site);
  }

  lemma DefinedIff(setup: Setup, s: Site, applied: Site)
    requires applied.providers == s.providers + Elements(setup.manifests)
    ensures Elements(setup.waited) <= applied.providers <==> ProvidersDefined(setup, s)
  {
    forall p | p in setup.waited
      ensures p in applied.providers <==> p in s.providers || p in setup.manifests
      ensures p in Elements(setup.waited)
    {
      assert p in setup.manifests <==> p in Elements(setup.manifests);
    }
  }

  /** Phase 3: install the operators, apply the provider manifests, wait for the providers. */
  method InstallProviders(k: Clusters, done: nat) returns (ok: bool, now: nat)
    requires done == 11
    requires k.Valid()
    modifies k`site, k`history
    ensures k.Valid() && Drifts(k.setup, old(k.site), k.site)
    ensures ok ==> ProvidersDefined(k.setup, old(k.site))
    ensures k.reliable && ProvidersDefined(k.setup, old(k.site)) ==> ok
    ensures if ok then now == 15 else 11 <= now < 15
  {
    now := done;
    ghost var start := k.site;
    ok, now := k.Take(OPERATORS_INSTALLED, now, true);
    if !ok { return; }
    ok := ApplyManifests(k);
    if !ok { return; }
    now := Passed(MANIFESTS_APPLIED, now);
    ok, now := k.Take(CREDENTIALS_THERE, now, true);
    if !ok { return; }
    ghost var applied := k.site;
    DefinedIff(k.setup, start, applied);
    ok := AwaitProviders(k);
    if ok { now := Passed(PROVIDERS_READY, now); }
    DriftsTransitively(k.setup, start, applied, k.site);
  }
}
