/** Step 4e of the orphan sweep: the contents of the VPCs that carry a target's ownership tag
    (bootstrap-rs/src/teardown.rs, `cleanup_vpc_resources` and `cleanup_vpc`). */
module SweepVpc {
  import opened AwsWorld
  import opened Basics
  import opened SweepScope
  import opened Aws
  import opened SecurityGroups

  /** No gateway or profile that still exists has lost an attachment. */
  ghost predicate Anchored(w0: World, w: World) {
    forall e :: (e in w0.edges && e.link.Attachment? && (e.blocker.Igw? || e.blocker.InstanceProfile?) &&
                 e.blocker in w.live) ==> e in w.edges
  }

  /** Every EKS cluster the sweep can delete is gone. */
  ghost predicate EksCleared(cfg: SweepConfig, w0: World, w: World) {
    forall r :: r in w.live && r.EksCluster? && Swept(cfg, w0, r) ==> Stuck(cfg, w0, r)
  }

  /** The run is fault-free so far, and the earlier phases have done their work. */
  ghost predicate Smooth(aws: Account, cfg: SweepConfig, w0: World)
    reads aws
  {
    aws.reliable && EksCleared(cfg, w0, aws.world) && Anchored(w0, aws.world)
  }

  /** Among the resources the sweep deletes, a lasting obstacle is reached earlier. */
  lemma RankRises(cfg: SweepConfig, w: World, e: Edge)
    requires Typed(e) && Lasting(cfg, e) && Swept(cfg, w, e.blocker)
    ensures Rank(e.blocker) < Rank(e.blocked)
  {
  }

  /** `w` is what is left of the well-typed world `w0`. */
  ghost predicate Remains(w0: World, w: World) {
    WellTyped(w0) && w.live <= w0.live && w.edges <= w0.edges
  }

  /** Each obstacle to `r` is a lasting one that the sweep does not delete or cannot reach. */
  lemma ObstaclesMakeStuck(cfg: SweepConfig, w0: World, w: World, r: Resource)
    requires Remains(w0, w) && Blocked(w, r)
    requires forall e :: Blocks(w, e, r) ==>
               Lasting(cfg, e) && (Swept(cfg, w0, e.blocker) ==> Stuck(cfg, w0, e.blocker))
    ensures Stuck(cfg, w0, r)
  {
    var e :| e in w.edges && Blocks(w, e, r);
    assert Typed(e) && Blocks(w0, e, r);
    if Swept(cfg, w0, e.blocker) { RankRises(cfg, w0, e); }
  }

  // What each section of `cleanup_vpc` has settled.

  ghost predicate NatsDone(w: World, v: VpcInfo) {
    forall id :: Nat(v, id) !in w.live
  }

  ghost predicate SubnetsDone(cfg: SweepConfig, w0: World, w: World, v: VpcInfo) {
    forall id :: Subnet(v, id) in w.live ==> Stuck(cfg, w0, Subnet(v, id))
  }

  /** The gateways still attached to `v` are out of reach. */
  ghost predicate GatewaysDone(cfg: SweepConfig, w0: World, w: World, v: VpcInfo) {
    forall r :: r in w.live && r.Igw? && Edge(r, Vpc(v), Attachment) in w.edges ==> Stuck(cfg, w0, r)
  }

  ghost predicate TablesDone(cfg: SweepConfig, w0: World, w: World, v: VpcInfo) {
    forall id :: RouteTable(v, id, false) in w.live ==> Stuck(cfg, w0, RouteTable(v, id, false))
  }

  ghost predicate GroupsDone(cfg: SweepConfig, w0: World, w: World, v: VpcInfo) {
    forall id :: SecurityGroup(v, id, false) in w.live ==> Stuck(cfg, w0, SecurityGroup(v, id, false))
  }

  /** The groups of `v` that are left, other than the default one, name no group any more. */
  ghost predicate RulesGone(w: World, v: VpcInfo) {
    forall e :: e in w.edges && IsRule(e) && OwnGroup(v, e.blocker) ==> e.blocker !in w.live
  }

  predicate OwnGroup(v: VpcInfo, g: Resource) { g.SecurityGroup? && g.vpc == v && !g.isDefault }

  /** No rule that the sweep strips elsewhere names a group of `v`. */
  ghost predicate Uncrossed(cfg: SweepConfig, w: World, v: VpcInfo) {
    forall e :: (e in w.edges && IsRule(e) && e.blocker in w.live && e.blocked in w.live && Stripped(cfg, e.blocker) &&
                 e.blocked.SecurityGroup? && e.blocked.vpc == v) ==> e.blocker.vpc == v
  }

  /** What a VPC consists of besides its groups is dealt with. */
  ghost predicate PlumbingDone(cfg: SweepConfig, w0: World, w: World, v: VpcInfo) {
    NatsDone(w, v) && SubnetsDone(cfg, w0, w, v) && GatewaysDone(cfg, w0, w, v) && TablesDone(cfg, w0, w, v)
  }

  /** What holds of `v`'s contents whatever the rules of other VPCs say. */
  ghost predicate ContentsDone(cfg: SweepConfig, w0: World, w: World, v: VpcInfo) {
    PlumbingDone(cfg, w0, w, v) && RulesGone(w, v)
  }

  ghost predicate VpcDone(cfg: SweepConfig, w0: World, w: World, v: VpcInfo) {
    && ContentsDone(cfg, w0, w, v)
    && (RulesGoInTime(cfg, w0) ==> GroupsDone(cfg, w0, w, v) && (Vpc(v) in w.live ==> Stuck(cfg, w0, Vpc(v))))
  }

  /** No VPC and no NAT gateway is lost. */
  ghost predicate KeepsNetworks(w: World, w': World) {
    forall r :: r in w.live && r !in w'.live ==> !r.Vpc? && !r.Nat?
  }

  /** No VPC but `v`, and no NAT gateway outside `v`, is lost. */
  ghost predicate LosesOnly(w: World, w': World, v: VpcInfo) {
    forall r :: r in w.live && r !in w'.live && (r.Vpc? || r.Nat?) ==> r.vpc == v
  }

  /** An address that a section for `v` could not release: something else uses it. */
  ghost predicate UsedElsewhere(w0: World, w: World, r: Resource, v: VpcInfo) {
    exists e :: Blocks(w0, e, r) && e.blocker in w.live && !(e.blocker.Nat? && e.blocker.vpc == v)
  }

  method CleanupNats(aws: Account, ghost cfg: SweepConfig, ghost w0: World, v: VpcInfo)
    requires Ready(cfg, w0, aws.world) && SweptVpc(cfg, v)
    modifies aws
    ensures Ready(cfg, w0, aws.world)
    ensures old(Smooth(aws, cfg, w0)) ==> Smooth(aws, cfg, w0)
    ensures Shrinks(old(aws.world), aws.world) && aws.world.edges == old(aws.world.edges)
    ensures forall u :: Vpc(u) in old(aws.world.live) ==> Vpc(u) in aws.world.live
    ensures LosesOnly(old(aws.world), aws.world, v)
    ensures aws.reliable ==> NatsDone(aws.world, v)
  {
    ghost var start := aws.world;
    var nats := aws.List((r: Resource) => r.Nat? && r.vpc == v);
    DeleteEach(aws, cfg, w0, nats);
    ghost var mid := aws.world;
    WaitEach(aws, cfg, w0, nats);
    LeavesGoAlone(start, mid, nats);
    LeavesGoAlone(mid, aws.world, nats);
    if aws.reliable {
      forall id ensures Nat(v, id) !in aws.world.live {
        if Nat(v, id) in start.live { LeafAnswered(start, Nat(v, id), mid); }
      }
    }
  }

  lemma AddressesAnswered(w: World, w': World, t: Target)
    requires LocksVersions(w) && Pending(w') && forall r :: r in w.live && OwnsEip(t, r) ==> Answered(w, r, w')
    requires w'.live <= w.live
    ensures forall r :: OwnsEip(t, r) && r in w'.live ==> Blocked(w, r)
  {
    assert forall r :: r in w'.deleting ==> Async(r);
  }

  method ReleaseAddresses(aws: Account, ghost cfg: SweepConfig, ghost w0: World, t: Target)
    requires Ready(cfg, w0, aws.world) && t in cfg.targets && HasVpc(w0, t)
    modifies aws
    ensures Ready(cfg, w0, aws.world)
    ensures old(Smooth(aws, cfg, w0)) ==> Smooth(aws, cfg, w0)
    ensures Shrinks(old(aws.world), aws.world) && aws.world.edges == old(aws.world.edges)
    ensures KeepsNetworks(old(aws.world), aws.world)
    ensures aws.reliable ==>
              forall r :: OwnsEip(t, r) && r in aws.world.live ==> Blocked(old(aws.world), r)
  {
    ghost var start := aws.world;
    DeleteListed(aws, cfg, w0, (r: Resource) => OwnsEip(t, r));
    if aws.reliable { AddressesAnswered(start, aws.world, t); }
  }

  method DeleteSubnets(aws: Account, ghost cfg: SweepConfig, ghost w0: World, v: VpcInfo)
    requires Ready(cfg, w0, aws.world) && SweptVpc(cfg, v)
    modifies aws
    ensures Ready(cfg, w0, aws.world)
    ensures old(Smooth(aws, cfg, w0)) ==> Smooth(aws, cfg, w0)
    ensures Shrinks(old(aws.world), aws.world) && aws.world.edges == old(aws.world.edges)
    ensures KeepsNetworks(old(aws.world), aws.world)
    ensures old(Smooth(aws, cfg, w0) && NatsDone(aws.world, v)) ==> SubnetsDone(cfg, w0, aws.world, v)
  {
    ghost var start := aws.world;
    ghost var done := Smooth(aws, cfg, w0) && NatsDone(start, v);
    DeleteListed(aws, cfg, w0, (r: Resource) => r.Subnet? && r.vpc == v);
    if done { SubnetsSettle(cfg, w0, start, aws.world, v); }
  }

  lemma SubnetsSettle(cfg: SweepConfig, w0: World, w: World, w': World, v: VpcInfo)
    requires Remains(w0, w) && EksCleared(cfg, w0, w) && NatsDone(w, v) && LocksVersions(w)
    requires w'.live <= w.live && Pending(w')
    requires forall r: Resource :: r.Subnet? && r.vpc == v && r in w.live ==> Answered(w, r, w')
    ensures SubnetsDone(cfg, w0, w', v)
  {
    forall id | Subnet(v, id) in w'.live ensures Stuck(cfg, w0, Subnet(v, id)) {
      assert Answered(w, Subnet(v, id), w');
      SubnetObstaclesAreStuck(cfg, w0, w, v, id);
    }
  }

  lemma SubnetObstaclesAreStuck(cfg: SweepConfig, w0: World, w: World, v: VpcInfo, id: string)
    requires Remains(w0, w) && EksCleared(cfg, w0, w) && NatsDone(w, v) && Blocked(w, Subnet(v, id))
    ensures Stuck(cfg, w0, Subnet(v, id))
  {
    forall e | Blocks(w, e, Subnet(v, id))
      ensures Lasting(cfg, e) && (Swept(cfg, w0, e.blocker) ==> Stuck(cfg, w0, e.blocker))
    {
      assert Typed(e);
    }
    ObstaclesMakeStuck(cfg, w0, w, Subnet(v, id));
  }

  /** Fault-free so far, with no loose attachments. */
  ghost predicate Tidy(aws: Account, w0: World)
    reads aws
  {
    aws.reliable && Anchored(w0, aws.world)
  }

  /** At most `a` is lost, with its attachments. */
  ghost predicate Sheds(w: World, w': World, a: Resource) {
    && Shrinks(w, w')
    && (forall r :: r in w.live && r !in w'.live ==> r == a)
    && (forall e :: e in w.edges && e !in w'.edges ==> LooseEnd(e) == a)
  }

  lemma DetachSheds(w: World, a: Resource, b: Resource)
    requires MayAttach(a, b) && Mutual(w)
    ensures Sheds(w, AfterDetach(w, a, b), a)
  {
    DetachCutsOnlyLooseEnd(w, a, b);
  }

  lemma DeleteSheds(reliable: bool, w: World, w': World, a: Resource)
    requires (a.Igw? || a.InstanceProfile?) && Deleted(reliable, w, a, w')
    ensures Sheds(w, w', a)
  {
    assert forall c :: GoesWith(c, a) ==> c == a;
  }

  lemma ShedsTwice(w: World, w': World, w'': World, a: Resource)
    requires Sheds(w, w', a) && Sheds(w', w'', a)
    ensures Sheds(w, w'', a)
  {
  }

  /** Detach, then delete: a gateway from its VPC, or a profile from its role. */
  method DetachAndDelete(aws: Account, ghost cfg: SweepConfig, ghost w0: World, a: Resource, b: Resource)
    requires Ready(cfg, w0, aws.world) && Scoped(cfg, w0, a) && MayAttach(a, b)
    requires a in aws.world.live && AttachedTo(aws.world, a, b)
    modifies aws
    ensures Ready(cfg, w0, aws.world) && Sheds(old(aws.world), aws.world, a)
    ensures old(Tidy(aws, w0)) ==> Tidy(aws, w0)
    ensures old(Tidy(aws, w0)) && a in aws.world.live ==> Stuck(cfg, w0, a)
  {
    ghost var start := aws.world;
    ghost var tidy := Tidy(aws, w0);
    aws.Detach(a, b);
    ghost var loose := aws.world;
    aws.Delete(a);
    DetachDeleteIsBound(aws.reliable, cfg, w0, start, loose, aws.world, a, b);
    if tidy { DetachOutcome(cfg, w0, start, a, b); }
  }

  lemma DetachDeleteIsBound(reliable: bool, cfg: SweepConfig, w0: World, start: World, loose: World, end: World,
                            a: Resource, b: Resource)
    requires Ready(cfg, w0, start) && Scoped(cfg, w0, a) && MayAttach(a, b) && a in start.live
    requires loose == AfterDetach(start, a, b) || loose == start
    requires Deleted(reliable, loose, a, end)
    ensures Ready(cfg, w0, end) && Sheds(start, end, a)
  {
    DetachExtends(cfg, w0, start, a, b);
    DetachSheds(start, a, b);
    DeleteExtends(cfg, w0, loose, a);
    DeleteSheds(reliable, loose, end, a);
    ShedsTwice(start, loose, end, a);
  }

  lemma DetachOutcome(cfg: SweepConfig, w0: World, w: World, a: Resource, b: Resource)
    requires Ready(cfg, w0, w) && Anchored(w0, w)
    requires a in w.live && AttachedTo(w, a, b) && MayAttach(a, b)
    ensures var end := AfterDelete(AfterDetach(w, a, b), a);
            && Anchored(w0, end)
            && (a in end.live ==> Stuck(cfg, w0, a))
  {
    if Held(w, a) {
      HeldIsStuck(cfg, w0, w, a);
      assert Blocked(w, a);
    } else {
      DetachedIsFree(w, a, b);
      DetachCutsOnlyLooseEnd(w, a, b);
      forall e | e in w0.edges && e.link.Attachment? && (e.blocker.Igw? || e.blocker.InstanceProfile?)
        ensures LooseEnd(e) == e.blocker {}
    }
  }

  lemma HeldIsStuck(cfg: SweepConfig, w0: World, w: World, a: Resource)
    requires Remains(w0, w) && Held(w, a) && (a.Igw? || a.InstanceProfile?)
    ensures Stuck(cfg, w0, a)
  {
    var e :| e in w.edges && Blocks(w, e, a) && e.link.Holds?;
    assert Typed(e) && Blocks(w0, e, a);
  }

  lemma DetachedIsFree(w: World, a: Resource, b: Resource)
    requires Valid(w) && a in w.live && MayAttach(a, b) && !Held(w, a)
    requires AttachedTo(w, a, b)
    ensures Accepts(AfterDetach(w, a, b), a)
  {
    var w' := AfterDetach(w, a, b);
    forall e | e in w'.edges ensures !Blocks(w', e, a) {
      assert Typed(e);
      assert Blocks(w', e, a) ==> Blocks(w, e, a) && !e.link.Holds?;
      assert e.link.Attachment? && e.blocked == a ==> Edge(a, e.blocker, Attachment) in w.edges;
    }
  }

  ghost predicate AttachedFrom(w: World, items: seq<Resource>, i: nat, b: Resource) {
    forall j :: i <= j < |items| ==> items[j] in w.live && AttachedTo(w, items[j], b)
  }

  lemma RestStaysAttached(w: World, w': World, items: seq<Resource>, i: nat, b: Resource)
    requires i < |items| && AttachedFrom(w, items, i, b) && Sheds(w, w', items[i])
    requires b.Vpc? || b.IamRole?
    requires forall j :: i < j < |items| ==> items[j] != items[i] && MayAttach(items[j], b)
    requires b in w'.live
    ensures AttachedFrom(w', items, i + 1, b)
  {
    forall j | i < j < |items| ensures items[j] in w'.live && AttachedTo(w', items[j], b) {
      assert LooseEnd(Edge(items[j], b, Attachment)) == items[j];
    }
  }

  ghost predicate Lost(w: World, w': World, items: seq<Resource>) {
    Shrinks(w, w') && forall r :: r in w.live && r !in w'.live ==> r in items
  }

  lemma LosesOneMore(w: World, w': World, w'': World, items: seq<Resource>, i: nat)
    requires i < |items| && Lost(w, w', items[..i]) && Sheds(w', w'', items[i])
    ensures Lost(w, w'', items[..i + 1])
  {
    assert items[..i + 1] == items[..i] + [items[i]];
  }

  method DetachAndDeleteNext(aws: Account, ghost cfg: SweepConfig, ghost w0: World, ghost start: World,
                             items: seq<Resource>, i: nat, b: Resource)
    requires Ready(cfg, w0, aws.world)
    requires i < |items| && Scoped(cfg, w0, items[i]) && AttachedFrom(aws.world, items, i, b)
    requires forall j :: i <= j < |items| ==> MayAttach(items[j], b)
    requires forall j :: i < j < |items| ==> items[j] != items[i]
    requires Lost(start, aws.world, items[..i])
    modifies aws
    ensures Ready(cfg, w0, aws.world) && Sheds(old(aws.world), aws.world, items[i])
    ensures AttachedFrom(aws.world, items, i + 1, b) && Lost(start, aws.world, items[..i + 1])
    ensures old(Tidy(aws, w0)) ==> Tidy(aws, w0) && (items[i] in aws.world.live ==> Stuck(cfg, w0, items[i]))
  {
    ghost var before := aws.world;
    DetachAndDelete(aws, cfg, w0, items[i], b);
    RestStaysAttached(before, aws.world, items, i, b);
    LosesOneMore(start, before, aws.world, items, i);
  }

  method DetachAndDeleteEach(aws: Account, ghost cfg: SweepConfig, ghost w0: World, items: seq<Resource>, b: Resource)
    requires Ready(cfg, w0, aws.world)
    requires forall i, j :: 0 <= i < j < |items| ==> items[i] != items[j]
    requires forall a :: a in items ==>
               a in aws.world.live && AttachedTo(aws.world, a, b) && MayAttach(a, b) && Scoped(cfg, w0, a)
    modifies aws
    ensures Ready(cfg, w0, aws.world) && Lost(old(aws.world), aws.world, items)
    ensures old(Tidy(aws, w0)) ==> Tidy(aws, w0) && forall a :: a in items && a in aws.world.live ==> Stuck(cfg, w0, a)
  {
    ghost var start := aws.world;
    ghost var tidy := Tidy(aws, w0);
    for i := 0 to |items|
      invariant Ready(cfg, w0, aws.world) && Lost(start, aws.world, items[..i])
      invariant AttachedFrom(aws.world, items, i, b)
      invariant tidy ==> Tidy(aws, w0)
      invariant tidy ==> forall j :: 0 <= j < i && items[j] in aws.world.live ==> Stuck(cfg, w0, items[j])
    {
      forall j | i <= j < |items| ensures MayAttach(items[j], b) { assert items[j] in items; }
      assert items[i] in items;
      DetachAndDeleteNext(aws, cfg, w0, start, items, i, b);
    }
    assert items[..|items|] == items;
  }

  method DeleteGateways(aws: Account, ghost cfg: SweepConfig, ghost w0: World, v: VpcInfo)
    requires Ready(cfg, w0, aws.world) && SweptVpc(cfg, v) && Vpc(v) in aws.world.live
    modifies aws
    ensures Ready(cfg, w0, aws.world)
    ensures Shrinks(old(aws.world), aws.world)
    ensures KeepsNetworks(old(aws.world), aws.world)
    ensures old(Smooth(aws, cfg, w0)) ==> Smooth(aws, cfg, w0)
    ensures old(Smooth(aws, cfg, w0)) ==> GatewaysDone(cfg, w0, aws.world, v)
  {
    var w := aws.world;
    var igws := aws.List((r: Resource) => r.Igw? && Edge(r, Vpc(v), Attachment) in w.edges);
    forall a | a in igws ensures Scoped(cfg, w0, a) && MayAttach(a, Vpc(v)) {
      assert Typed(Edge(a, Vpc(v), Attachment)) && AttachedTo(w0, a, Vpc(v));
    }
    DetachAndDeleteEach(aws, cfg, w0, igws, Vpc(v));
  }

  function Except(items: seq<Resource>, skip: Option<Resource>): (rest: seq<Resource>)
    ensures forall r :: r in rest <==> r in items && Some(r) != skip
  {
    if items == [] then []
    else if Some(items[0]) == skip then Except(items[1..], skip)
    else [items[0]] + Except(items[1..], skip)
  }

  /** The main table is looked up first and skipped; when the lookup fails the delete is
      attempted, and AWS refuses it. */
  method DeleteRouteTables(aws: Account, ghost cfg: SweepConfig, ghost w0: World, v: VpcInfo)
    requires Ready(cfg, w0, aws.world) && SweptVpc(cfg, v)
    modifies aws
    ensures Ready(cfg, w0, aws.world)
    ensures old(Smooth(aws, cfg, w0)) ==> Smooth(aws, cfg, w0)
    ensures Shrinks(old(aws.world), aws.world) && aws.world.edges == old(aws.world.edges)
    ensures KeepsNetworks(old(aws.world), aws.world)
    ensures old(Smooth(aws, cfg, w0) && SubnetsDone(cfg, w0, aws.world, v)) ==> TablesDone(cfg, w0, aws.world, v)
  {
    ghost var start := aws.world;
    ghost var done := Smooth(aws, cfg, w0) && SubnetsDone(cfg, w0, start, v);
    DeleteTablesBut(aws, cfg, w0, v);
    if done { TablesSettle(cfg, w0, start, aws.world, v); }
  }

  method DeleteTablesBut(aws: Account, ghost cfg: SweepConfig, ghost w0: World, v: VpcInfo)
    requires Ready(cfg, w0, aws.world) && SweptVpc(cfg, v)
    modifies aws
    ensures Ready(cfg, w0, aws.world)
    ensures Shrinks(old(aws.world), aws.world) && aws.world.edges == old(aws.world.edges)
    ensures forall r :: r in old(aws.world.live) && r !in aws.world.live ==> r.RouteTable?
    ensures aws.reliable ==>
              forall r: Resource :: r.RouteTable? && r.vpc == v && !r.main && r in old(aws.world.live) ==>
                Answered(old(aws.world), r, aws.world)
  {
    var mains := aws.List((r: Resource) => r.RouteTable? && r.vpc == v && r.main);
    var tables := aws.List((r: Resource) => r.RouteTable? && r.vpc == v);
    var main := if mains == [] then None else Some(mains[0]);
    DeleteEach(aws, cfg, w0, Except(tables, main));
  }

  lemma TablesSettle(cfg: SweepConfig, w0: World, w: World, w': World, v: VpcInfo)
    requires Remains(w0, w) && SubnetsDone(cfg, w0, w, v) && LocksVersions(w)
    requires w'.live <= w.live && Pending(w')
    requires forall r: Resource :: r.RouteTable? && r.vpc == v && !r.main && r in w.live ==> Answered(w, r, w')
    ensures TablesDone(cfg, w0, w', v)
  {
    forall id | RouteTable(v, id, false) in w'.live ensures Stuck(cfg, w0, RouteTable(v, id, false)) {
      assert Answered(w, RouteTable(v, id, false), w');
      TableObstaclesAreStuck(cfg, w0, w, v, id);
    }
  }

  lemma TableObstaclesAreStuck(cfg: SweepConfig, w0: World, w: World, v: VpcInfo, id: string)
    requires Remains(w0, w) && SubnetsDone(cfg, w0, w, v) && Blocked(w, RouteTable(v, id, false))
    ensures Stuck(cfg, w0, RouteTable(v, id, false))
  {
    var r := RouteTable(v, id, false);
    forall e | Blocks(w, e, r)
      ensures Lasting(cfg, e) && (Swept(cfg, w0, e.blocker) ==> Stuck(cfg, w0, e.blocker))
    {
      assert Typed(e);
      assert e.blocker.Subnet? ==> e.blocker == Subnet(v, e.blocker.id);
    }
    ObstaclesMakeStuck(cfg, w0, w, r);
  }

  /** Whatever keeps a group alive after the two loops keeps it out of reach. */
  lemma OutsideObstacleSticks(cfg: SweepConfig, w0: World, w: World, groups: seq<Resource>, g: Resource)
    requires Remains(w0, w) && EksCleared(cfg, w0, w) && Stripped(cfg, g) && Uncrossed(cfg, w, g.vpc)
    requires g in w.live && ObstructedFromOutside(w, groups, g)
    requires forall id :: SecurityGroup(g.vpc, id, false) in w.live ==> SecurityGroup(g.vpc, id, false) in groups
    ensures Stuck(cfg, w0, g)
  {
    var e :| Blocks(w, e, g) && !(IsRule(e) && e.blocker in groups);
    assert Typed(e) && Blocks(w0, e, g);
    if IsRule(e) {
      var b := e.blocker;
      assert b == SecurityGroup(b.vpc, b.id, b.isDefault);
      assert !Stripped(cfg, b);
    }
    assert Lasting(cfg, e);
    if Swept(cfg, w0, e.blocker) { RankRises(cfg, w0, e); }
  }

  /** The two loops leave no rule of a listed group. */
  lemma ListedRulesGo(w: World, groups: seq<Resource>, v: VpcInfo)
    requires WellTyped(w) && LocksVersions(w) && Listing(w, groups)
    requires forall id :: SecurityGroup(v, id, false) in w.live ==> SecurityGroup(v, id, false) in groups
    ensures RulesGone(DeleteAll(Strip(w, groups), groups), v)
  {
    DeletesAreIndependent(w, groups, |groups|);
    assert groups[..|groups|] == groups;
    forall g | OwnGroup(v, g) && g in w.live ensures g in groups { assert g == SecurityGroup(v, g.id, false); }
  }

  method DeleteGroupsOf(aws: Account, ghost cfg: SweepConfig, ghost w0: World, v: VpcInfo)
    requires Ready(cfg, w0, aws.world) && SweptVpc(cfg, v)
    modifies aws
    ensures Ready(cfg, w0, aws.world)
    ensures Shrinks(old(aws.world), aws.world)
    ensures KeepsNetworks(old(aws.world), aws.world)
    ensures old(Smooth(aws, cfg, w0)) ==> Smooth(aws, cfg, w0) && RulesGone(aws.world, v)
    ensures old(Smooth(aws, cfg, w0) && Uncrossed(cfg, aws.world, v)) ==> GroupsDone(cfg, w0, aws.world, v)
  {
    ghost var start := aws.world;
    ghost var smooth := Smooth(aws, cfg, w0);
    var groups := DeleteSecurityGroups(aws, cfg, w0, v);
    if smooth {
      ListedRulesGo(start, groups, v);
      if Uncrossed(cfg, start, v) { GroupsAreDone(cfg, w0, start, aws.world, groups, v); }
    }
  }

  lemma GroupsAreDone(cfg: SweepConfig, w0: World, w: World, w': World, groups: seq<Resource>, v: VpcInfo)
    requires Ready(cfg, w0, w) && EksCleared(cfg, w0, w) && SweptVpc(cfg, v) && Uncrossed(cfg, w, v)
    requires Listing(w, groups) && w' == DeleteAll(Strip(w, groups), groups) && w'.live <= w.live
    requires forall id :: SecurityGroup(v, id, false) in w.live ==> SecurityGroup(v, id, false) in groups
    ensures GroupsDone(cfg, w0, w', v)
  {
    forall id | SecurityGroup(v, id, false) in w'.live ensures Stuck(cfg, w0, SecurityGroup(v, id, false)) {
      var g := SecurityGroup(v, id, false);
      TwoPassesAreExact(w, groups, g);
      OutsideObstacleSticks(cfg, w0, w, groups, g);
    }
  }

  method DeleteVpc(aws: Account, ghost cfg: SweepConfig, ghost w0: World, v: VpcInfo)
    requires Ready(cfg, w0, aws.world) && SweptVpc(cfg, v)
    modifies aws
    ensures Ready(cfg, w0, aws.world)
    ensures old(Smooth(aws, cfg, w0)) ==> Smooth(aws, cfg, w0)
    ensures Shrinks(old(aws.world), aws.world) && aws.world.edges == old(aws.world.edges)
    ensures LosesOnly(old(aws.world), aws.world, v)
    ensures old(Smooth(aws, cfg, w0) && ContentsDone(cfg, w0, aws.world, v) && GroupsDone(cfg, w0, aws.world, v)) ==>
              (Vpc(v) in aws.world.live ==> Stuck(cfg, w0, Vpc(v)))
  {
    ghost var w := aws.world;
    ghost var done := Smooth(aws, cfg, w0) && ContentsDone(cfg, w0, w, v) && GroupsDone(cfg, w0, w, v);
    DeleteOne(aws, cfg, w0, Vpc(v));
    if done && Vpc(v) in aws.world.live {
      assert Blocked(w, Vpc(v)) by { assert Answered(w, Vpc(v), aws.world); }
      VpcObstaclesAreStuck(cfg, w0, w, v);
    }
  }

  lemma VpcObstaclesAreStuck(cfg: SweepConfig, w0: World, w: World, v: VpcInfo)
    requires Remains(w0, w) && EksCleared(cfg, w0, w) && Blocked(w, Vpc(v))
    requires ContentsDone(cfg, w0, w, v) && GroupsDone(cfg, w0, w, v)
    ensures Stuck(cfg, w0, Vpc(v))
  {
    forall e | Blocks(w, e, Vpc(v))
      ensures Lasting(cfg, e) && (Swept(cfg, w0, e.blocker) ==> Stuck(cfg, w0, e.blocker))
    {
      assert Typed(e);
      var b := e.blocker;
      match b {
        case Subnet(u, id) => assert b == Subnet(v, id);
        case RouteTable(u, id, _) => assert b == RouteTable(v, id, false);
        case SecurityGroup(u, id, _) => assert b == SecurityGroup(v, id, false);
        case Igw(_, _) => assert e == Edge(b, Vpc(v), Attachment);
        case _ =>
      }
    }
    ObstaclesMakeStuck(cfg, w0, w, Vpc(v));
  }

  /** The rules that name `v`'s groups from elsewhere have been stripped, if they ever are in time. */
  ghost predicate InTurn(cfg: SweepConfig, w0: World, w: World, v: VpcInfo) {
    RulesGoInTime(cfg, w0) ==> Uncrossed(cfg, w, v)
  }

  method CleanupVpc(aws: Account, ghost cfg: SweepConfig, ghost w0: World, t: Target, v: VpcInfo)
    requires Ready(cfg, w0, aws.world) && t in cfg.targets && OwnsVpc(t, v) && Vpc(v) in aws.world.live
    modifies aws
    ensures Ready(cfg, w0, aws.world)
    ensures Shrinks(old(aws.world), aws.world) && LosesOnly(old(aws.world), aws.world, v)
    ensures old(Smooth(aws, cfg, w0)) ==> Smooth(aws, cfg, w0)
    ensures old(Smooth(aws, cfg, w0) && InTurn(cfg, w0, aws.world, v)) ==> VpcDone(cfg, w0, aws.world, v)
    ensures old(Smooth(aws, cfg, w0)) ==>
              forall r :: OwnsEip(t, r) && r in aws.world.live ==> UsedElsewhere(w0, old(aws.world), r, v)
  {
    ReleaseAddressesOf(aws, cfg, w0, t, v);
    DeleteContents(aws, cfg, w0, v);
  }

  /** NAT gateways first: the addresses they use cannot be released before they are gone. */
  method ReleaseAddressesOf(aws: Account, ghost cfg: SweepConfig, ghost w0: World, t: Target, v: VpcInfo)
    requires Ready(cfg, w0, aws.world) && t in cfg.targets && OwnsVpc(t, v) && Vpc(v) in aws.world.live
    modifies aws
    ensures Ready(cfg, w0, aws.world)
    ensures old(Smooth(aws, cfg, w0)) ==> Smooth(aws, cfg, w0)
    ensures Shrinks(old(aws.world), aws.world) && aws.world.edges == old(aws.world.edges)
    ensures forall u :: Vpc(u) in old(aws.world.live) ==> Vpc(u) in aws.world.live
    ensures LosesOnly(old(aws.world), aws.world, v)
    ensures aws.reliable ==> NatsDone(aws.world, v)
    ensures aws.reliable ==>
              forall r :: OwnsEip(t, r) && r in aws.world.live ==> UsedElsewhere(w0, old(aws.world), r, v)
  {
    ghost var start := aws.world;
    CleanupNats(aws, cfg, w0, v);
    ghost var natless := aws.world;
    ReleaseAddresses(aws, cfg, w0, t);
    if aws.reliable {
      forall r | OwnsEip(t, r) && r in aws.world.live ensures UsedElsewhere(w0, start, r, v) {
        BlockedMeansUsed(w0, start, natless, r, v);
      }
    }
  }

  lemma BlockedMeansUsed(w0: World, start: World, w: World, r: Resource, v: VpcInfo)
    requires w.edges <= w0.edges && w.live <= start.live <= w0.live && NatsDone(w, v) && Blocked(w, r)
    ensures UsedElsewhere(w0, start, r, v)
  {
    var e :| e in w.edges && Blocks(w, e, r);
    assert e.blocker.Nat? ==> e.blocker == Nat(e.blocker.vpc, e.blocker.id);
    assert Blocks(w0, e, r);
  }

  method DeletePlumbing(aws: Account, ghost cfg: SweepConfig, ghost w0: World, v: VpcInfo)
    requires Ready(cfg, w0, aws.world) && SweptVpc(cfg, v) && Vpc(v) in aws.world.live
    modifies aws
    ensures Ready(cfg, w0, aws.world)
    ensures Shrinks(old(aws.world), aws.world) && KeepsNetworks(old(aws.world), aws.world)
    ensures old(Smooth(aws, cfg, w0)) ==> Smooth(aws, cfg, w0)
    ensures old(Smooth(aws, cfg, w0) && NatsDone(aws.world, v)) ==> PlumbingDone(cfg, w0, aws.world, v)
  {
    DeleteSubnets(aws, cfg, w0, v);
    DeleteGateways(aws, cfg, w0, v);
    DeleteRouteTables(aws, cfg, w0, v);
  }

  /** Subnets, gateways, route tables, groups, the VPC itself. */
  method DeleteContents(aws: Account, ghost cfg: SweepConfig, ghost w0: World, v: VpcInfo)
    requires Ready(cfg, w0, aws.world) && SweptVpc(cfg, v) && Vpc(v) in aws.world.live
    modifies aws
    ensures Ready(cfg, w0, aws.world)
    ensures Shrinks(old(aws.world), aws.world) && LosesOnly(old(aws.world), aws.world, v)
    ensures old(Smooth(aws, cfg, w0)) ==> Smooth(aws, cfg, w0)
    ensures old(Smooth(aws, cfg, w0) && NatsDone(aws.world, v) && InTurn(cfg, w0, aws.world, v)) ==>
              VpcDone(cfg, w0, aws.world, v)
  {
    ghost var start := aws.world;
    DeletePlumbing(aws, cfg, w0, v);
    if InTurn(cfg, w0, start, v) { StaysInTurn(cfg, w0, start, aws.world, v); }
    DeleteGroupsAndVpc(aws, cfg, w0, v);
  }

  method DeleteGroupsAndVpc(aws: Account, ghost cfg: SweepConfig, ghost w0: World, v: VpcInfo)
    requires Ready(cfg, w0, aws.world) && SweptVpc(cfg, v)
    modifies aws
    ensures Ready(cfg, w0, aws.world)
    ensures Shrinks(old(aws.world), aws.world) && LosesOnly(old(aws.world), aws.world, v)
    ensures old(Smooth(aws, cfg, w0)) ==> Smooth(aws, cfg, w0)
    ensures old(Smooth(aws, cfg, w0) && PlumbingDone(cfg, w0, aws.world, v) && InTurn(cfg, w0, aws.world, v)) ==>
              VpcDone(cfg, w0, aws.world, v)
  {
    DeleteGroupsOf(aws, cfg, w0, v);
    DeleteVpc(aws, cfg, w0, v);
  }

  lemma StaysInTurn(cfg: SweepConfig, w0: World, w: World, w': World, v: VpcInfo)
    requires InTurn(cfg, w0, w, v) && w'.live <= w.live && w'.edges <= w.edges
    ensures InTurn(cfg, w0, w', v)
  {
  }

  /** Something that is not the NAT gateway of a listed VPC uses the address. */
  ghost predicate UsedBeyond(w0: World, w: World, r: Resource, vpcs: seq<Resource>) {
    exists e :: Blocks(w0, e, r) && e.blocker in w.live && !(e.blocker.Nat? && Vpc(e.blocker.vpc) in vpcs)
  }

  /** A NAT gateway that the sweep has not got to yet uses the address. */
  ghost predicate InUse(cfg: SweepConfig, w0: World, w: World, r: Resource) {
    exists e :: Blocks(w0, e, r) && e.blocker.Nat? && e.blocker in w.live && SweptVpc(cfg, e.blocker.vpc)
  }

  /** Only VPCs of `t`, and NAT gateways in them, are lost. */
  ghost predicate LosesOnlyOf(w: World, w': World, t: Target) {
    forall r :: r in w.live && r !in w'.live && (r.Vpc? || r.Nat?) ==> OwnsVpc(t, r.vpc)
  }

  /** An address in use by something other than its own cluster's NAT gateways is out of reach, or
      waits for another target's cleanup. */
  lemma UsedBeyondIsHeld(cfg: SweepConfig, w0: World, w: World, w': World, t: Target, r: Resource, vpcs: seq<Resource>)
    requires Ready(cfg, w0, w) && t in cfg.targets && OwnsEip(t, r) && LosesOnlyOf(w, w', t)
    requires forall v :: Vpc(v) in w.live && OwnsVpc(t, v) ==> Vpc(v) in vpcs
    requires UsedBeyond(w0, w, r, vpcs)
    ensures Stuck(cfg, w0, r) || InUse(cfg, w0, w', r)
  {
    var e :| Blocks(w0, e, r) && e.blocker in w.live && !(e.blocker.Nat? && Vpc(e.blocker.vpc) in vpcs);
    assert Typed(e);
    if e.blocker.Nat? && SweptVpc(cfg, e.blocker.vpc) {
      assert Parent(e.blocker) == Inside(Vpc(e.blocker.vpc));
      assert e.blocker in w'.live;
    } else {
      assert !Swept(cfg, w0, e.blocker) && Lasting(cfg, e);
    }
  }

  /** 4e for one target: clean up every VPC that carries its ownership tag. */
  method CleanupVpcResources(aws: Account, ghost cfg: SweepConfig, ghost w0: World, t: Target)
    requires Ready(cfg, w0, aws.world) && t in cfg.targets
    modifies aws
    ensures Ready(cfg, w0, aws.world) && Shrinks(old(aws.world), aws.world)
    ensures LosesOnlyOf(old(aws.world), aws.world, t)
    ensures old(Smooth(aws, cfg, w0)) ==> Smooth(aws, cfg, w0)
    ensures old(Smooth(aws, cfg, w0) && AllInTurn(cfg, w0, aws.world, t)) ==>
              forall v :: Vpc(v) in old(aws.world.live) && OwnsVpc(t, v) ==> VpcDone(cfg, w0, aws.world, v)
    ensures old(Smooth(aws, cfg, w0) && AllInTurn(cfg, w0, aws.world, t) && HasVpc(aws.world, t)) ==>
              AddressesSeen(cfg, w0, aws.world, t)
  {
    ghost var start := aws.world;
    ghost var turn := Smooth(aws, cfg, w0) && AllInTurn(cfg, w0, start, t);
    var vpcs := aws.List((r: Resource) => r.Vpc? && OwnsVpc(t, r.vpc));
    forall k | 0 <= k < |vpcs| ensures IsVpcOf(t, vpcs[k]) && vpcs[k] in aws.world.live { assert vpcs[k] in vpcs; }
    CleanupVpcs(aws, cfg, w0, t, vpcs);
    if turn {
      forall v | Vpc(v) in start.live && OwnsVpc(t, v) ensures VpcDone(cfg, w0, aws.world, v) { assert Vpc(v) in vpcs; }
      if HasVpc(start, t) {
        forall r | OwnsEip(t, r) && r in aws.world.live ensures Stuck(cfg, w0, r) || InUse(cfg, w0, aws.world, r) {
          UsedBeyondIsHeld(cfg, w0, start, aws.world, t, r, vpcs);
        }
      }
    }
  }

  ghost predicate AllInTurn(cfg: SweepConfig, w0: World, w: World, t: Target) {
    forall v :: Vpc(v) in w.live && OwnsVpc(t, v) ==> InTurn(cfg, w0, w, v)
  }

  predicate IsVpcOf(t: Target, r: Resource) { r.Vpc? && OwnsVpc(t, r.vpc) }

  /** Every address of the target that is left is in use by something that will stay. */
  ghost predicate AddressesUsed(w0: World, start: World, w: World, t: Target, vpcs: seq<Resource>) {
    forall r :: OwnsEip(t, r) && r in w.live ==> UsedBeyond(w0, start, r, vpcs)
  }

  ghost predicate VpcsDone(cfg: SweepConfig, w0: World, w: World, vpcs: seq<Resource>) {
    forall r :: r in vpcs && r.Vpc? ==> VpcDone(cfg, w0, w, r.vpc)
  }

  method CleanupVpcs(aws: Account, ghost cfg: SweepConfig, ghost w0: World, t: Target, vpcs: seq<Resource>)
    requires Ready(cfg, w0, aws.world) && t in cfg.targets
    requires forall k :: 0 <= k < |vpcs| ==> IsVpcOf(t, vpcs[k]) && vpcs[k] in aws.world.live
    requires forall j, k :: 0 <= j < k < |vpcs| ==> vpcs[j] != vpcs[k]
    modifies aws
    ensures Ready(cfg, w0, aws.world) && Shrinks(old(aws.world), aws.world)
    ensures LosesOnlyOf(old(aws.world), aws.world, t)
    ensures old(Smooth(aws, cfg, w0)) ==> Smooth(aws, cfg, w0)
    ensures old(Smooth(aws, cfg, w0) && AllInTurn(cfg, w0, aws.world, t)) ==> VpcsDone(cfg, w0, aws.world, vpcs)
    ensures old(Smooth(aws, cfg, w0) && AllInTurn(cfg, w0, aws.world, t)) && vpcs != [] ==>
              AddressesUsed(w0, old(aws.world), aws.world, t, vpcs)
  {
    ghost var start := aws.world;
    ghost var smooth := Smooth(aws, cfg, w0);
    ghost var turn := smooth && AllInTurn(cfg, w0, start, t);
    for i := 0 to |vpcs|
      invariant Ready(cfg, w0, aws.world) && (smooth ==> Smooth(aws, cfg, w0))
      invariant ComeTo(cfg, w0, start, aws.world, t, vpcs, i, turn)
    {
      ghost var before := aws.world;
      if turn { StaysInTurn(cfg, w0, start, before, vpcs[i].vpc); }
      CleanupVpc(aws, cfg, w0, t, vpcs[i].vpc);
      NextVpc(cfg, w0, start, before, aws.world, t, vpcs, i, turn);
    }
    assert vpcs[..|vpcs|] == vpcs;
  }

  /** How far the loop over a target's VPCs has come. */
  ghost predicate ComeTo(cfg: SweepConfig, w0: World, start: World, w: World, t: Target, vpcs: seq<Resource>, i: nat,
                         turn: bool)
  {
    && i <= |vpcs| && Shrinks(start, w) && LosesOnlyOf(start, w, t)
    && (forall j :: i <= j < |vpcs| ==> vpcs[j] in w.live)
    && (turn ==> VpcsDone(cfg, w0, w, vpcs[..i]) && (i > 0 ==> AddressesUsed(w0, start, w, t, vpcs[..i])))
  }

  lemma NextVpc(cfg: SweepConfig, w0: World, start: World, before: World, after: World, t: Target,
                vpcs: seq<Resource>, i: nat, turn: bool)
    requires ComeTo(cfg, w0, start, before, t, vpcs, i, turn) && i < |vpcs|
    requires forall k :: 0 <= k < |vpcs| ==> IsVpcOf(t, vpcs[k])
    requires forall j, k :: 0 <= j < k < |vpcs| ==> vpcs[j] != vpcs[k]
    requires IsVpcOf(t, vpcs[i]) && Shrinks(before, after) && LosesOnly(before, after, vpcs[i].vpc)
    requires turn ==> VpcDone(cfg, w0, after, vpcs[i].vpc)
    requires turn ==> forall r :: OwnsEip(t, r) && r in after.live ==> UsedElsewhere(w0, before, r, vpcs[i].vpc)
    ensures ComeTo(cfg, w0, start, after, t, vpcs, i + 1, turn)
  {
    forall j | i < j < |vpcs| ensures vpcs[j] in after.live {
      assert IsVpcOf(t, vpcs[j]) && IsVpcOf(t, vpcs[i]) && vpcs[j].vpc != vpcs[i].vpc;
    }
    if turn { OneMoreVpc(cfg, w0, start, before, after, t, vpcs, i); }
  }

  lemma OneMoreVpc(cfg: SweepConfig, w0: World, start: World, before: World, after: World, t: Target,
                   vpcs: seq<Resource>, i: nat)
    requires i < |vpcs| && (forall k :: 0 <= k < |vpcs| ==> vpcs[k].Vpc?)
    requires before.live <= start.live && after.live <= before.live && after.edges <= before.edges
    requires VpcsDone(cfg, w0, before, vpcs[..i]) && VpcDone(cfg, w0, after, vpcs[i].vpc)
    requires forall r :: OwnsEip(t, r) && r in after.live ==> UsedElsewhere(w0, before, r, vpcs[i].vpc)
    ensures VpcsDone(cfg, w0, after, vpcs[..i + 1]) && AddressesUsed(w0, start, after, t, vpcs[..i + 1])
  {
    assert vpcs[..i + 1] == vpcs[..i] + [vpcs[i]];
    forall r | r in vpcs[..i] ensures VpcDone(cfg, w0, after, r.vpc) { DoneStaysDone(cfg, w0, before, after, r.vpc); }
    forall r | OwnsEip(t, r) && r in after.live ensures UsedBeyond(w0, start, r, vpcs[..i + 1]) {
      UsedByNoneSoFar(cfg, w0, start, before, r, vpcs, i);
    }
  }

  /** Every address of the target that is left is out of reach or waits for another cleanup. */
  ghost predicate AddressesSeen(cfg: SweepConfig, w0: World, w: World, t: Target) {
    forall r :: OwnsEip(t, r) && r in w.live ==> Stuck(cfg, w0, r) || InUse(cfg, w0, w, r)
  }

  lemma DoneStaysDone(cfg: SweepConfig, w0: World, w: World, w': World, v: VpcInfo)
    requires VpcDone(cfg, w0, w, v) && w'.live <= w.live && w'.edges <= w.edges
    ensures VpcDone(cfg, w0, w', v)
  {
  }

  lemma UsedByNoneSoFar(cfg: SweepConfig, w0: World, start: World, before: World, r: Resource,
                        vpcs: seq<Resource>, i: nat)
    requires i < |vpcs| && vpcs[i].Vpc? && before.live <= start.live
    requires VpcsDone(cfg, w0, before, vpcs[..i])
    requires UsedElsewhere(w0, before, r, vpcs[i].vpc)
    ensures UsedBeyond(w0, start, r, vpcs[..i + 1])
  {
    var e :| Blocks(w0, e, r) && e.blocker in before.live && !(e.blocker.Nat? && e.blocker.vpc == vpcs[i].vpc);
    assert vpcs[..i + 1] == vpcs[..i] + [vpcs[i]];
    if e.blocker.Nat? && Vpc(e.blocker.vpc) in vpcs[..i] {
      assert NatsDone(before, e.blocker.vpc) && e.blocker == Nat(e.blocker.vpc, e.blocker.id);
    }
  }
}
