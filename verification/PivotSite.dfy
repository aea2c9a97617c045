/** The two clusters of the pivot, what the pivot's commands do to them, and what may happen
    between two commands (bootstrap-rs/src/main.rs, pivot phases 0 to 6). */
module PivotSite {

  /** A CAPI object. Only a Cluster has a pause flag that matters. */
  datatype Object = Object(ns: string, name: string, isCluster: bool)

  /** The objects of one cluster, each with its pause flag. */
  type Inventory = map<Object, bool>

  /** `running`: the Flux Kustomizations in kind that are not suspended; `seeded`: Flux runs on
      the target; `ever`: all CAPI objects created so far, on either side. */
  datatype Site = Site(kindExists: bool, kind: Inventory, running: set<string>,
                       target: Inventory, seeded: bool, providers: set<string>, ever: set<Object>)

  /** `desired`: what Git defines, hence what Flux creates; `kustomizations`: all of Flux's
      Kustomizations in kind; `manifests`: the providers that the target is given;
      `waited`: the ones the pivot waits for there. */
  datatype Setup = Setup(ns: string, mgmtCluster: Object, secret: Object, desired: set<Object>,
                         kustomizations: set<string>, manifests: seq<string>, waited: seq<string>,
                         fallbacks: seq<Object>)

  datatype Event =
    // what happens by itself
    | FluxOnKind(objects: set<Object>)
    | ControllersOnKind(cluster: Object, objects: set<Object>)
    | FluxOnTarget(objects: set<Object>)
    | ControllersOnTarget(cluster: Object, objects: set<Object>)
    // what the pivot's commands do
    | Install(provider: string)
    | Suspend(kustomization: string)
    | Pause
    | Create(object: Object)
    | Remove(object: Object)
    | Unpause(object: Object)
    | Restore(object: Object)
    | Seed
    | DeleteKind
    // what a bootstrap does when there is no kind cluster: create it, for Flux to fill
    | CreateKind
    // what a bootstrap does on every kind cluster
    | InstallFlux

  predicate Unpaused(inventory: Inventory, o: Object) {
    o.isCluster && o in inventory && !inventory[o]
  }

  /** Controllers add objects to a cluster that is not paused, in its namespace. */
  predicate MayAdd(inventory: Inventory, cluster: Object, objects: set<Object>) {
    Unpaused(inventory, cluster) && forall o: Object :: o in objects ==> !o.isCluster && o.ns == cluster.ns
  }

  predicate Enabled(setup: Setup, s: Site, e: Event) {
    match e
    case FluxOnKind(objects) => s.kindExists && s.running != {} && objects <= setup.desired
    case ControllersOnKind(cluster, objects) => s.kindExists && MayAdd(s.kind, cluster, objects)
    case FluxOnTarget(objects) => s.seeded && objects <= setup.desired
    case ControllersOnTarget(cluster, objects) => MayAdd(s.target, cluster, objects)
    case Create(o) => s.kindExists && o in s.kind
    case Remove(o) => s.kindExists && o in s.kind && o in s.target
    case Unpause(o) => o in s.target && o.ns == setup.ns
    case DeleteKind => s.kindExists
    case CreateKind => !s.kindExists
    case InstallFlux => s.kindExists
    case Install(_) => true
    case Suspend(_) => true
    case Pause => s.kindExists
    case Restore(_) => true
    case Seed => true
  }

  predicate IsInterference(e: Event) {
    e.FluxOnKind? || e.ControllersOnKind? || e.FluxOnTarget? || e.ControllersOnTarget?
  }

  /** Flux applies the manifests from Git, which do not know about pausing. */
  function Applied(inventory: Inventory, objects: set<Object>): Inventory {
    inventory + map o | o in objects :: false
  }

  function Added(inventory: Inventory, objects: set<Object>): Inventory {
    inventory + map o | o in objects && o !in inventory :: false
  }

  function Paused(inventory: Inventory, ns: string): Inventory {
    map o | o in inventory :: if o.ns == ns && o.isCluster then true else inventory[o]
  }

  function After(setup: Setup, s: Site, e: Event): Site
    requires Enabled(setup, s, e)
  {
    match e
    case FluxOnKind(objects) => s.(kind := Applied(s.kind, objects), ever := s.ever + objects)
    case ControllersOnKind(_, objects) => s.(kind := Added(s.kind, objects), ever := s.ever + objects)
    case FluxOnTarget(objects) => s.(target := Applied(s.target, objects), ever := s.ever + objects)
    case ControllersOnTarget(_, objects) => s.(target := Added(s.target, objects), ever := s.ever + objects)
    case Install(provider) => s.(providers := s.providers + {provider})
    case Suspend(name) => s.(running := s.running - {name})
    case Pause => s.(kind := Paused(s.kind, setup.ns))
    case Create(o) => s.(target := s.target[o := true])
    case Remove(o) => s.(kind := s.kind - {o})
    case Unpause(o) => s.(target := s.target[o := false])
    case Restore(o) => s.(target := Applied(s.target, {o}), ever := s.ever + {o})
    case Seed => s.(seeded := true)
    case DeleteKind => s.(kindExists := false, kind := map[], running := {})
    case CreateKind => s.(kindExists := true, kind := map[], running := setup.kustomizations)
    // what is suspended stays so
    case InstallFlux => s
  }

  // ── Safety ─────────────────────────────────────────────────────────────────

  /** No managed Cluster is reconciled by both sides at once. */
  ghost predicate SingleOwner(setup: Setup, s: Site) {
    forall c: Object :: c.ns == setup.ns ==> !(Unpaused(s.kind, c) && Unpaused(s.target, c))
  }

  /** Every object is on one side at least; only another namespace's can have gone with kind. */
  ghost predicate NothingLost(setup: Setup, s: Site) {
    forall o :: o in s.ever ==> o in s.kind || o in s.target || (!s.kindExists && o.ns != setup.ns)
  }

  ghost predicate Safe(setup: Setup, s: Site) {
    SingleOwner(setup, s) && NothingLost(setup, s)
  }

  /** The move has left nothing behind and Flux will not put anything back. */
  ghost predicate Emptied(setup: Setup, s: Site) {
    s.running == {} && forall o :: o in s.kind ==> o.ns != setup.ns
  }

  /** The target has started to act on what it was given. */
  ghost predicate TakenOver(setup: Setup, s: Site) {
    s.seeded || exists c: Object :: c.ns == setup.ns && Unpaused(s.target, c)
  }

  ghost predicate Inv(setup: Setup, s: Site) {
    && Safe(setup, s)
    && (TakenOver(setup, s) ==> Emptied(setup, s))
    && (!s.kindExists ==> s.kind == map[] && s.running == {})
    && s.running <= setup.kustomizations
  }

  /** Kind goes only when it is empty and the target holds the whole inventory. */
  ghost predicate SafeStep(setup: Setup, s: Site, s': Site) {
    s.kindExists && !s'.kindExists ==>
      Emptied(setup, s) && forall o :: o in s.ever && o.ns == setup.ns ==> o in s.target
  }

  /** A new kind cluster can be filled from Git without harm: the target has not started to act,
      and every object that is left anywhere is left there. */
  ghost predicate Creatable(setup: Setup, s: Site) {
    !TakenOver(setup, s) && forall o :: o in s.ever ==> o in s.target
  }

  /** What the pivot must have established before a command, for the command to be safe. */
  ghost predicate Licensed(setup: Setup, s: Site, e: Event) {
    match e
    case Unpause(_) => Emptied(setup, s)
    case Restore(_) => Emptied(setup, s)
    case Seed => Emptied(setup, s)
    case DeleteKind => Emptied(setup, s)
    case CreateKind => Creatable(setup, s)
    case _ => true
  }

  /** Every step keeps the invariant: the commands under their license, and whatever happens in
      between without any condition. */
  lemma StepKeepsInv(setup: Setup, s: Site, e: Event)
    requires Inv(setup, s) && Enabled(setup, s, e) && Licensed(setup, s, e)
    ensures Inv(setup, After(setup, s, e)) && SafeStep(setup, s, After(setup, s, e))
  {
    var s' := After(setup, s, e);
    match e {
      case FluxOnKind(objects) => assert !TakenOver(setup, s);
      case ControllersOnKind(cluster, objects) =>
        if TakenOver(setup, s') { assert TakenOver(setup, s); }
      case FluxOnTarget(objects) => assert TakenOver(setup, s);
      case ControllersOnTarget(cluster, objects) =>
        if TakenOver(setup, s') && cluster.ns == setup.ns { assert TakenOver(setup, s); }
        TargetAdditions(setup, s, objects);
      case _ =>
    }
  }

  /** Creating a kind cluster whose Flux is at work keeps the invariant exactly when it is
      licensed. */
  lemma CreationIsSafeIff(setup: Setup, s: Site)
    requires Inv(setup, s) && !s.kindExists && setup.kustomizations != {}
    ensures Inv(setup, After(setup, s, CreateKind)) <==> Creatable(setup, s)
  {
    var s' := After(setup, s, CreateKind);
    assert TakenOver(setup, s') <==> TakenOver(setup, s);
    if Inv(setup, s') {
      forall o | o in s.ever ensures o in s.target { assert o in s'.ever && o !in s'.kind; }
    }
  }

  lemma TargetAdditions(setup: Setup, s: Site, objects: set<Object>)
    requires forall o: Object :: o in objects ==> !o.isCluster
    ensures forall c :: Unpaused(Added(s.target, objects), c) <==> Unpaused(s.target, c)
  {
  }
}
