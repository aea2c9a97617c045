/** Where the pivot's guarantees end: runs of commands, in the pivot's order, that break them
    once one of the premises is missing (bootstrap-rs/src/main.rs). */
module PivotLimits {
  import opened PivotSite
  import opened PivotRun
  import opened Pivot

  predicate Playable(setup: Setup, s: Site, events: seq<Event>)
    decreases |events|
  {
    events == [] || (Enabled(setup, s, events[0]) && Playable(setup, After(setup, s, events[0]), events[1..]))
  }

  function Play(setup: Setup, s: Site, events: seq<Event>): Site
    requires Playable(setup, s, events)
    decreases |events|
  {
    if events == [] then s else Play(setup, After(setup, s, events[0]), events[1..])
  }

  /** A run of the move over one Cluster, then the unpausing, with whatever `before` and `after`. */
  function HandOver(c: Object): seq<Event> { [Pause, Create(c), Remove(c), Unpause(c)] }

  lemma PlayFirst(setup: Setup, s: Site, e: Event, rest: seq<Event>)
    requires Enabled(setup, s, e) && Playable(setup, After(setup, s, e), rest)
    ensures Playable(setup, s, [e] + rest) && Play(setup, s, [e] + rest) == Play(setup, After(setup, s, e), rest)
  {
    assert ([e] + rest)[1..] == rest;
  }

  function AfterHandOver(setup: Setup, s: Site, c: Object): Site {
    s.(kind := Paused(s.kind, setup.ns) - {c}, target := s.target[c := true][c := false])
  }

  lemma HandOverMoves(setup: Setup, s: Site, c: Object, rest: seq<Event>)
    requires s.kindExists && c in s.kind && c.isCluster && c.ns == setup.ns
    requires Playable(setup, AfterHandOver(setup, s, c), rest)
    ensures Playable(setup, s, HandOver(c) + rest)
    ensures Play(setup, s, HandOver(c) + rest) == Play(setup, AfterHandOver(setup, s, c), rest)
  {
    var s1 := After(setup, s, Pause);
    var s2 := After(setup, s1, Create(c));
    var s3 := After(setup, s2, Remove(c));
    PlayFirst(setup, s3, Unpause(c), rest);
    PlayFirst(setup, s2, Remove(c), [Unpause(c)] + rest);
    PlayFirst(setup, s1, Create(c), [Remove(c)] + ([Unpause(c)] + rest));
    PlayFirst(setup, s, Pause, [Create(c)] + ([Remove(c)] + ([Unpause(c)] + rest)));
    assert HandOver(c) + rest == [Pause] + ([Create(c)] + ([Remove(c)] + ([Unpause(c)] + rest)));
  }

  lemma PlayOne(setup: Setup, s: Site, e: Event)
    requires Enabled(setup, s, e)
    ensures Playable(setup, s, [e]) && Play(setup, s, [e]) == After(setup, s, e)
  {
    assert [e][1..] == [];
    assert Playable(setup, After(setup, s, e), []);
  }

  /** One Cluster on kind, Flux at work there, nothing on the target yet. */
  function Start(c: Object, kustomization: string): Site {
    Site(true, map[c := false], {kustomization}, map[], false, {}, {c})
  }

  /** When the listing of the Kustomizations fails, it looks empty: nothing is suspended, and
      after the move Flux puts the Cluster back on kind. Both sides then reconcile it. */
  lemma FailedListingSplitsOwnership(setup: Setup, c: Object, kustomization: string)
    requires c.isCluster && c.ns == setup.ns && c in setup.desired
    ensures var events := HandOver(c) + [FluxOnKind({c})];
            && Playable(setup, Start(c, kustomization), events)
            && !SingleOwner(setup, Play(setup, Start(c, kustomization), events))
  {
    var s := Start(c, kustomization);
    var moved := AfterHandOver(setup, s, c);
    PlayOne(setup, moved, FluxOnKind({c}));
    HandOverMoves(setup, s, c, [FluxOnKind({c})]);
    var end := After(setup, moved, FluxOnKind({c}));
    assert Unpaused(end.kind, c) && Unpaused(end.target, c);
  }

  /** A bootstrap that is run again after the pivot completed creates a new kind cluster, whose
      Flux brings the Clusters back: both sides reconcile them. */
  lemma RerunAfterCompletionSplitsOwnership(setup: Setup, s: Site, c: Object)
    requires !s.kindExists && s.kind == map[] && Unpaused(s.target, c) && c.ns == setup.ns
    requires c in setup.desired && setup.kustomizations != {}
    ensures Playable(setup, s, [CreateKind, FluxOnKind({c})])
    ensures !SingleOwner(setup, Play(setup, s, [CreateKind, FluxOnKind({c})]))
  {
    var s1 := After(setup, s, CreateKind);
    PlayOne(setup, s1, FluxOnKind({c}));
    assert [CreateKind, FluxOnKind({c})][1..] == [FluxOnKind({c})];
    var end := After(setup, s1, FluxOnKind({c}));
    assert Unpaused(end.kind, c) && Unpaused(end.target, c);
  }

  /** The move covers one namespace. A Cluster that Git defines in another one stays active on
      kind when the seeded Flux creates it on the target. */
  lemma OtherNamespaceSplitsOwnership(setup: Setup, s: Site, c: Object)
    requires s.kindExists && c.ns != setup.ns && Unpaused(s.kind, c) && c in setup.desired
    ensures Playable(setup, s, [Seed, FluxOnTarget({c})])
    ensures var end := Play(setup, s, [Seed, FluxOnTarget({c})]); Unpaused(end.kind, c) && Unpaused(end.target, c)
  {
    PlayOne(setup, After(setup, s, Seed), FluxOnTarget({c}));
    assert [Seed, FluxOnTarget({c})][1..] == [FluxOnTarget({c})];
  }

  /** Deleting an emptied kind loses exactly the objects of other namespaces that the target
      does not have. */
  lemma DeletionLosesOtherNamespaces(setup: Setup, s: Site, o: Object)
    requires Inv(setup, s) && Emptied(setup, s) && s.kindExists && o in s.ever
    ensures var end := After(setup, s, DeleteKind);
            (o !in end.kind && o !in end.target) <==> (o.ns != setup.ns && o in s.kind && o !in s.target)
  {
    assert o in s.kind || o in s.target;
  }

  /** That the target has a Cluster, which is all that Phase 6 looks at, is too weak a guard: with
      anything left on kind only, the deletion loses it. It is safe because Phase 4 succeeded. */
  lemma NonEmptyTargetIsNotEnough(setup: Setup, c: Object, o: Object)
    requires c.isCluster && c.ns == setup.ns && o.ns == setup.ns && o != c
    ensures var s := Site(true, map[o := true], {}, map[c := true], false, {}, {c, o});
            Inv(setup, s) && !NothingLost(setup, After(setup, s, DeleteKind))
  {
    var s := Site(true, map[o := true], {}, map[c := true], false, {}, {c, o});
    assert !TakenOver(setup, s);
    assert o in After(setup, s, DeleteKind).ever;
  }

  // ── The providers that Phase 3 waits for ───────────────────────────────────

  const COMMON: seq<string> := ["coreprovider/cluster-api", "bootstrapprovider/kubeadm", "controlplaneprovider/kubeadm"]
  const ADDON := "addonprovider/helm"

  /** Always the same four, and the environment's infrastructure provider. */
  function Waited(infrastructure: string): seq<string> { COMMON + [infrastructure, ADDON] }

  const AWS: seq<string> := COMMON + ["infrastructureprovider/aws", ADDON]
  const LOCAL_HOST: seq<string> := COMMON + ["infrastructureprovider/docker", ADDON]
  const LOCAL_TALOS: seq<string> := COMMON +
    ["bootstrapprovider/talos", "controlplaneprovider/talos", "infrastructureprovider/tinkerbell-tinkerbell"]

  /** The manifests of aws and local-host define all of them, on any target. */
  lemma AwsAndLocalHostAreComplete(setup: Setup, s: Site)
    requires || (setup.manifests == AWS && setup.waited == Waited("infrastructureprovider/aws"))
             || (setup.manifests == LOCAL_HOST && setup.waited == Waited("infrastructureprovider/docker"))
    ensures ProvidersDefined(setup, s)
  {
  }

  /** Those of local-talos do not, so on a target that does not have the addon provider already
      every pivot stops in Phase 3 at the latest. */
  method TalosStopsInPhase3(k: Clusters, timeout: nat, interval: nat, skipDelete: bool)
    returns (outcome: Outcome)
    requires k.Valid() && interval > 0 && SetupValid(k.setup) && k.site.kindExists
    requires k.setup.manifests == LOCAL_TALOS
    requires k.setup.waited == Waited("infrastructureprovider/tinkerbell-tinkerbell")
    requires ADDON !in k.site.providers
    modifies k`site, k`history
    ensures k.Valid() && outcome.Stopped? && outcome.phase <= 3
  {
    TalosLacksAnAddonProvider(k.setup, k.site);
    var steps;
    outcome, steps := RunPivot(k, timeout, interval, skipDelete, 5);
  }

  lemma TalosLacksAnAddonProvider(setup: Setup, s: Site)
    requires setup.manifests == LOCAL_TALOS
    requires setup.waited == Waited("infrastructureprovider/tinkerbell-tinkerbell") && ADDON !in s.providers
    ensures !ProvidersDefined(setup, s)
  {
    assert setup.waited[4] == ADDON;
    assert |ADDON| == 18;
    assert forall i :: 0 <= i < |LOCAL_TALOS| ==> |LOCAL_TALOS[i]| == 18 ==> LOCAL_TALOS[i] != ADDON;
  }
}
