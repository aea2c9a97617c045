/** The orphan sweep as a whole: the phases of step 4 in the order of `run_teardown`
    (bootstrap-rs/src/teardown.rs), each a loop over the targets. */
module SweepRun {
  import opened AwsWorld
  import opened Basics
  import opened SweepScope
  import opened Aws
  import opened SecurityGroups
  import opened SweepVpc
  import opened Sweep
  import opened SweepIam
  import Naming

  lemma StaysSettled(cfg: SweepConfig, w0: World, w: World, w': World, k: nat)
    requires Settled(cfg, w0, w, k) && Shrinks(w, w')
    ensures Settled(cfg, w0, w', k)
  {
    forall r | r in w'.live && Phase(r) == k && Swept(cfg, w0, r) && Covered(cfg, w0, r)
      ensures Disposed(cfg, w0, w', r)
    {
      assert Disposed(cfg, w0, w, r);
    }
  }

  // ── 4a, 4b ─────────────────────────────────────────────────────────────────

  ghost predicate GroupsGoing(w: World, t: Target) {
    forall r :: IsNodegroup(t, r) && r in w.live ==> r in w.deleting
  }

  ghost predicate GroupsGone(w: World, t: Target) {
    forall r :: IsNodegroup(t, r) ==> r !in w.live
  }

  ghost predicate AssociationsGone(w: World, t: Target) {
    forall r :: IsPodAssociation(t, r) ==> r !in w.live
  }

  /** After the first loop: no associations left, every nodegroup being deleted. */
  ghost predicate Requested(w: World, targets: seq<Target>) {
    forall t :: t in targets ==> AssociationsGone(w, t) && GroupsGoing(w, t)
  }

  ghost predicate Departed(w: World, targets: seq<Target>) {
    forall t :: t in targets ==> GroupsGone(w, t)
  }

  lemma StillRequested(w: World, w': World, targets: seq<Target>)
    requires Requested(w, targets) && Shrinks(w, w')
    ensures Requested(w', targets)
  {
  }

  lemma OneMoreRequested(w: World, w': World, targets: seq<Target>, i: nat)
    requires i < |targets| && Requested(w, targets[..i]) && Shrinks(w, w')
    requires AssociationsGone(w', targets[i]) && GroupsGoing(w', targets[i])
    ensures Requested(w', targets[..i + 1])
  {
    StillRequested(w, w', targets[..i]);
    assert targets[..i + 1] == targets[..i] + [targets[i]];
  }

  lemma StillDeparted(w: World, w': World, targets: seq<Target>)
    requires Departed(w, targets) && Shrinks(w, w')
    ensures Departed(w', targets)
  {
  }

  lemma OneMoreDeparted(w: World, w': World, targets: seq<Target>, i: nat)
    requires i < |targets| && Departed(w, targets[..i]) && Shrinks(w, w') && GroupsGone(w', targets[i])
    ensures Departed(w', targets[..i + 1])
  {
    assert targets[..i + 1] == targets[..i] + [targets[i]];
  }

  method SweepNodegroups(aws: Account, cfg: SweepConfig, ghost w0: World)
    requires Ready(cfg, w0, aws.world)
    modifies aws
    ensures Ready(cfg, w0, aws.world) && LeavesNetwork(old(aws.world), aws.world)
    ensures aws.reliable ==> Departed(aws.world, cfg.targets) && Requested(aws.world, cfg.targets)
  {
    RequestNodegroups(aws, cfg, w0);
    AwaitNodegroups(aws, cfg, w0);
  }

  method RequestNodegroupsOf(aws: Account, cfg: SweepConfig, ghost w0: World, t: Target)
    requires Ready(cfg, w0, aws.world) && t in cfg.targets
    modifies aws
    ensures Ready(cfg, w0, aws.world) && LeavesNetwork(old(aws.world), aws.world)
    ensures aws.reliable ==> AssociationsGone(aws.world, t) && GroupsGoing(aws.world, t)
  {
    CleanupPodIdentityAssociations(aws, cfg, w0, t);
    CleanupNodegroups(aws, cfg, w0, t);
  }

  method RequestNodegroups(aws: Account, cfg: SweepConfig, ghost w0: World)
    requires Ready(cfg, w0, aws.world)
    modifies aws
    ensures Ready(cfg, w0, aws.world) && LeavesNetwork(old(aws.world), aws.world)
    ensures aws.reliable ==> Requested(aws.world, cfg.targets)
  {
    ghost var start := aws.world;
    for i := 0 to |cfg.targets|
      invariant Ready(cfg, w0, aws.world) && LeavesNetwork(start, aws.world)
      invariant aws.reliable ==> Requested(aws.world, cfg.targets[..i])
    {
      ghost var before := aws.world;
      RequestNodegroupsOf(aws, cfg, w0, cfg.targets[i]);
      if aws.reliable { OneMoreRequested(before, aws.world, cfg.targets, i); }
    }
    assert cfg.targets[..|cfg.targets|] == cfg.targets;
  }

  method AwaitNodegroupsOf(aws: Account, cfg: SweepConfig, ghost w0: World, t: Target)
    requires Ready(cfg, w0, aws.world) && t in cfg.targets
    modifies aws
    ensures Ready(cfg, w0, aws.world) && LeavesNetwork(old(aws.world), aws.world)
    ensures aws.reliable && GroupsGoing(old(aws.world), t) ==> GroupsGone(aws.world, t)
  {
    WaitNodegroupsDeleted(aws, cfg, w0, t);
  }

  method AwaitNodegroups(aws: Account, cfg: SweepConfig, ghost w0: World)
    requires Ready(cfg, w0, aws.world)
    requires aws.reliable ==> Requested(aws.world, cfg.targets)
    modifies aws
    ensures Ready(cfg, w0, aws.world) && LeavesNetwork(old(aws.world), aws.world)
    ensures aws.reliable ==> Departed(aws.world, cfg.targets) && Requested(aws.world, cfg.targets)
  {
    ghost var start := aws.world;
    for i := 0 to |cfg.targets|
      invariant Ready(cfg, w0, aws.world) && LeavesNetwork(start, aws.world)
      invariant aws.reliable ==> Requested(aws.world, cfg.targets) && Departed(aws.world, cfg.targets[..i])
    {
      ghost var before := aws.world;
      AwaitNodegroupsOf(aws, cfg, w0, cfg.targets[i]);
      if aws.reliable {
        StillRequested(before, aws.world, cfg.targets);
        OneMoreDeparted(before, aws.world, cfg.targets, i);
      }
    }
    assert cfg.targets[..|cfg.targets|] == cfg.targets;
  }

  // ── 4c ─────────────────────────────────────────────────────────────────────

  lemma OnlyForeignHoldsEks(cfg: SweepConfig, w0: World, w: World, t: Target)
    requires Ready(cfg, w0, w) && GroupsGone(w, t) && Blocked(w, Eks(t))
    ensures Stuck(cfg, w0, Eks(t))
  {
    forall e | Blocks(w, e, Eks(t))
      ensures Lasting(cfg, e) && (Swept(cfg, w0, e.blocker) ==> Stuck(cfg, w0, e.blocker))
    {
      assert Typed(e) && !IsNodegroup(t, e.blocker);
    }
    ObstaclesMakeStuck(cfg, w0, w, Eks(t));
  }

  ghost predicate EksGoing(cfg: SweepConfig, w0: World, w: World, targets: seq<Target>) {
    forall t :: t in targets && Eks(t) in w.live ==> Eks(t) in w.deleting || Stuck(cfg, w0, Eks(t))
  }

  ghost predicate EksGone(cfg: SweepConfig, w0: World, w: World, targets: seq<Target>) {
    forall t :: t in targets && Eks(t) in w.live ==> Stuck(cfg, w0, Eks(t))
  }

  lemma ClusterAnswered(cfg: SweepConfig, w0: World, before: World, after: World, t: Target)
    requires Ready(cfg, w0, before) && GroupsGone(before, t) && Answered(before, Eks(t), after)
    ensures EksGoing(cfg, w0, after, [t])
  {
    if Blocked(before, Eks(t)) { OnlyForeignHoldsEks(cfg, w0, before, t); }
  }

  lemma OneMoreGoing(cfg: SweepConfig, w0: World, before: World, after: World, targets: seq<Target>, i: nat)
    requires i < |targets| && Shrinks(before, after)
    requires EksGoing(cfg, w0, before, targets[..i]) && EksGoing(cfg, w0, after, [targets[i]])
    ensures EksGoing(cfg, w0, after, targets[..i + 1])
  {
    assert targets[i] in [targets[i]] && targets[..i + 1] == targets[..i] + [targets[i]];
  }

  method SweepEksClusters(aws: Account, cfg: SweepConfig, ghost w0: World)
    requires Ready(cfg, w0, aws.world)
    requires aws.reliable ==> Departed(aws.world, cfg.targets)
    modifies aws
    ensures Ready(cfg, w0, aws.world) && LeavesNetwork(old(aws.world), aws.world)
    ensures aws.reliable ==> EksGone(cfg, w0, aws.world, cfg.targets)
  {
    RequestEksClusters(aws, cfg, w0);
    AwaitEksClusters(aws, cfg, w0);
  }

  method RequestEksCluster(aws: Account, cfg: SweepConfig, ghost w0: World, t: Target)
    requires Ready(cfg, w0, aws.world) && t in cfg.targets
    modifies aws
    ensures Ready(cfg, w0, aws.world) && LeavesNetwork(old(aws.world), aws.world)
    ensures aws.reliable && GroupsGone(old(aws.world), t) ==> EksGoing(cfg, w0, aws.world, [t])
  {
    ghost var before := aws.world;
    CleanupEksCluster(aws, cfg, w0, t);
    if aws.reliable && GroupsGone(before, t) { ClusterAnswered(cfg, w0, before, aws.world, t); }
  }

  method RequestEksClusters(aws: Account, cfg: SweepConfig, ghost w0: World)
    requires Ready(cfg, w0, aws.world)
    requires aws.reliable ==> Departed(aws.world, cfg.targets)
    modifies aws
    ensures Ready(cfg, w0, aws.world) && LeavesNetwork(old(aws.world), aws.world)
    ensures aws.reliable ==> EksGoing(cfg, w0, aws.world, cfg.targets)
  {
    ghost var start := aws.world;
    for i := 0 to |cfg.targets|
      invariant Ready(cfg, w0, aws.world) && LeavesNetwork(start, aws.world)
      invariant aws.reliable ==> EksGoing(cfg, w0, aws.world, cfg.targets[..i])
    {
      ghost var before := aws.world;
      RequestEksCluster(aws, cfg, w0, cfg.targets[i]);
      if aws.reliable {
        StillDeparted(start, before, cfg.targets);
        OneMoreGoing(cfg, w0, before, aws.world, cfg.targets, i);
      }
    }
    assert cfg.targets[..|cfg.targets|] == cfg.targets;
  }

  method AwaitEksClusters(aws: Account, cfg: SweepConfig, ghost w0: World)
    requires Ready(cfg, w0, aws.world)
    requires aws.reliable ==> EksGoing(cfg, w0, aws.world, cfg.targets)
    modifies aws
    ensures Ready(cfg, w0, aws.world) && LeavesNetwork(old(aws.world), aws.world)
    ensures aws.reliable ==> EksGone(cfg, w0, aws.world, cfg.targets)
  {
    ghost var start := aws.world;
    for i := 0 to |cfg.targets|
      invariant Ready(cfg, w0, aws.world) && LeavesNetwork(start, aws.world)
      invariant aws.reliable ==>
                  EksGoing(cfg, w0, aws.world, cfg.targets) && EksGone(cfg, w0, aws.world, cfg.targets[..i])
    {
      ghost var before := aws.world;
      WaitEksClusterDeleted(aws, cfg, w0, cfg.targets[i]);
      if aws.reliable { OneMoreGone(cfg, w0, before, aws.world, cfg.targets, i); }
    }
    assert cfg.targets[..|cfg.targets|] == cfg.targets;
  }

  lemma OneMoreGone(cfg: SweepConfig, w0: World, before: World, after: World, targets: seq<Target>, i: nat)
    requires i < |targets| && Shrinks(before, after)
    requires EksGoing(cfg, w0, before, targets) && EksGone(cfg, w0, before, targets[..i])
    requires Eks(targets[i]) in before.deleting ==> Eks(targets[i]) !in after.live
    ensures EksGoing(cfg, w0, after, targets) && EksGone(cfg, w0, after, targets[..i + 1])
  {
    assert targets[..i + 1] == targets[..i] + [targets[i]];
  }

  // ── 4d ─────────────────────────────────────────────────────────────────────

  ghost predicate DatabasesDone(w: World, targets: seq<Target>) {
    forall t :: t in targets ==> RdsDone(w, t)
  }

  lemma OneMoreDatabase(w: World, w': World, targets: seq<Target>, i: nat)
    requires i < |targets| && DatabasesDone(w, targets[..i]) && Shrinks(w, w') && RdsDone(w', targets[i])
    ensures DatabasesDone(w', targets[..i + 1])
  {
    forall t | t in targets[..i] ensures RdsDone(w', t) { assert RdsDone(w, t); }
    assert targets[..i + 1] == targets[..i] + [targets[i]];
  }

  method SweepDatabases(aws: Account, cfg: SweepConfig, ghost w0: World)
    requires Ready(cfg, w0, aws.world)
    modifies aws
    ensures Ready(cfg, w0, aws.world) && LeavesNetwork(old(aws.world), aws.world)
    ensures aws.reliable ==> DatabasesDone(aws.world, cfg.targets)
  {
    ghost var start := aws.world;
    for i := 0 to |cfg.targets|
      invariant Ready(cfg, w0, aws.world) && LeavesNetwork(start, aws.world)
      invariant aws.reliable ==> DatabasesDone(aws.world, cfg.targets[..i])
    {
      ghost var before := aws.world;
      CleanupRdsInstance(aws, cfg, w0, cfg.targets[i]);
      if aws.reliable { OneMoreDatabase(before, aws.world, cfg.targets, i); }
    }
    assert cfg.targets[..|cfg.targets|] == cfg.targets;
  }

  // ── 4e ─────────────────────────────────────────────────────────────────────

  lemma AbsentVpcIsDone(cfg: SweepConfig, w0: World, w: World, v: VpcInfo)
    requires Valid(w) && Vpc(v) !in w.live
    ensures VpcDone(cfg, w0, w, v)
  {
    forall id ensures Nat(v, id) !in w.live { assert Parent(Nat(v, id)) == Inside(Vpc(v)); }
    forall id ensures Subnet(v, id) !in w.live { assert Parent(Subnet(v, id)) == Inside(Vpc(v)); }
    forall id ensures RouteTable(v, id, false) !in w.live { assert Parent(RouteTable(v, id, false)) == Inside(Vpc(v)); }
    forall g | OwnGroup(v, g) ensures g !in w.live { assert Parent(g) == Inside(Vpc(v)); }
  }

  /** What an address needs in order to be released. */
  ghost predicate AddressesInReach(cfg: SweepConfig, w0: World) {
    SharersShareAddresses(cfg, w0) && NatsGoInTime(cfg, w0)
  }

  /** The VPCs and addresses of one target are dealt with. */
  ghost predicate NetworkDone(cfg: SweepConfig, w0: World, w: World, t: Target) {
    && (forall v :: OwnsVpc(t, v) ==> VpcDone(cfg, w0, w, v))
    && (AddressesInReach(cfg, w0) && HasVpc(w0, t) ==> AddressesSeen(cfg, w0, w, t))
  }

  /** The first `n` targets are. */
  ghost predicate NetworksDone(cfg: SweepConfig, w0: World, w: World, n: nat) {
    n <= |cfg.targets| && forall i :: 0 <= i < n ==> NetworkDone(cfg, w0, w, cfg.targets[i])
  }

  /** Each VPC that is gone was a VPC of one of the first `n` targets. */
  ghost predicate LostTo(cfg: SweepConfig, w0: World, w: World, n: nat) {
    n <= |cfg.targets| && forall v :: Vpc(v) in w0.live && Vpc(v) !in w.live ==>
      exists i :: 0 <= i < n && OwnsVpc(cfg.targets[i], v)
  }

  lemma LostToOneMore(cfg: SweepConfig, w0: World, w: World, w': World, n: nat)
    requires n < |cfg.targets| && LostTo(cfg, w0, w, n) && LosesOnlyOf(w, w', cfg.targets[n])
    ensures LostTo(cfg, w0, w', n + 1)
  {
    forall v | Vpc(v) in w0.live && Vpc(v) !in w'.live
      ensures exists i :: 0 <= i < n + 1 && OwnsVpc(cfg.targets[i], v)
    {
      if Vpc(v) in w.live {
        assert OwnsVpc(cfg.targets[n], v);
      } else {
        var i :| 0 <= i < n && OwnsVpc(cfg.targets[i], v);
        assert 0 <= i < n + 1;
      }
    }
  }

  /** When a target's turn comes, every rule that crosses into its VPCs in time has been stripped. */
  lemma TurnComes(cfg: SweepConfig, w0: World, w: World, n: nat)
    requires n < |cfg.targets| && w.live <= w0.live && w.edges <= w0.edges && NetworksDone(cfg, w0, w, n)
    ensures AllInTurn(cfg, w0, w, cfg.targets[n])
  {
    forall e | CrossesInto(cfg, w0, w, n, e) && RulesGoInTime(cfg, w0) ensures e.blocker !in w.live {
      CrossedIsStripped(cfg, w0, w, n, e);
      assert OwnGroup(e.blocker.vpc, e.blocker);
    }
    forall v | Vpc(v) in w.live && OwnsVpc(cfg.targets[n], v) && RulesGoInTime(cfg, w0) ensures Uncrossed(cfg, w, v) {
      assert forall e :: (e in w.edges && IsRule(e) && e.blocker in w.live && e.blocked in w.live &&
                          Stripped(cfg, e.blocker) && e.blocked.SecurityGroup? && e.blocked.vpc == v &&
                          e.blocker.vpc != v) ==> CrossesInto(cfg, w0, w, n, e);
    }
  }

  /** A rule from a group that the sweep strips into another VPC, one of target `n`. */
  ghost predicate CrossesInto(cfg: SweepConfig, w0: World, w: World, n: nat, e: Edge)
    requires n < |cfg.targets|
  {
    && e in w.edges && IsRule(e) && e.blocker in w0.live && e.blocked in w.live && Stripped(cfg, e.blocker)
    && e.blocked.SecurityGroup? && e.blocker.vpc != e.blocked.vpc && OwnsVpc(cfg.targets[n], e.blocked.vpc)
  }

  lemma CrossedIsStripped(cfg: SweepConfig, w0: World, w: World, n: nat, e: Edge)
    requires n < |cfg.targets| && w.live <= w0.live && w.edges <= w0.edges && NetworksDone(cfg, w0, w, n)
    requires RulesGoInTime(cfg, w0) && CrossesInto(cfg, w0, w, n, e)
    ensures RulesGone(w, e.blocker.vpc)
  {
    var a, b := e.blocker.vpc, e.blocked.vpc;
    assert cfg.targets[n] in cfg.targets && SweptVpc(cfg, b) && Crosses(cfg, w0, e);
    var i: nat :| FirstOwner(cfg, a, i) && forall k :: 0 <= k <= i ==> !OwnsVpc(cfg.targets[k], b);
    assert i < n && NetworkDone(cfg, w0, w, cfg.targets[i]);
    assert VpcDone(cfg, w0, w, a);
  }

  method SweepNetworks(aws: Account, cfg: SweepConfig, ghost w0: World)
    requires Ready(cfg, w0, aws.world) && LeavesNetwork(w0, aws.world)
    modifies aws
    ensures Ready(cfg, w0, aws.world) && Shrinks(old(aws.world), aws.world)
    ensures old(Smooth(aws, cfg, w0)) ==> Smooth(aws, cfg, w0)
    ensures old(Smooth(aws, cfg, w0)) ==> NetworksDone(cfg, w0, aws.world, |cfg.targets|)
  {
    ghost var start := aws.world;
    ghost var smooth := Smooth(aws, cfg, w0);
    for i := 0 to |cfg.targets|
      invariant Ready(cfg, w0, aws.world) && Shrinks(start, aws.world)
      invariant smooth ==> Smooth(aws, cfg, w0) && NetworksDone(cfg, w0, aws.world, i)
      invariant LostTo(cfg, w0, aws.world, i)
    {
      SweepNetwork(aws, cfg, w0, i);
    }
  }

  method SweepNetwork(aws: Account, cfg: SweepConfig, ghost w0: World, i: nat)
    requires Ready(cfg, w0, aws.world) && i < |cfg.targets| && LostTo(cfg, w0, aws.world, i)
    modifies aws
    ensures Ready(cfg, w0, aws.world) && Shrinks(old(aws.world), aws.world) && LostTo(cfg, w0, aws.world, i + 1)
    ensures old(Smooth(aws, cfg, w0)) ==> Smooth(aws, cfg, w0)
    ensures old(Smooth(aws, cfg, w0) && NetworksDone(cfg, w0, aws.world, i)) ==> NetworksDone(cfg, w0, aws.world, i + 1)
  {
    ghost var before := aws.world;
    ghost var done := Smooth(aws, cfg, w0) && NetworksDone(cfg, w0, before, i);
    if done { TurnComes(cfg, w0, before, i); }
    CleanupVpcResources(aws, cfg, w0, cfg.targets[i]);
    LostToOneMore(cfg, w0, before, aws.world, i);
    if done { NextTarget(cfg, w0, before, aws.world, i); }
  }

  /** What the cleanup of target `n` has settled, from `before` to `after`. */
  ghost predicate Cleaned(cfg: SweepConfig, w0: World, before: World, after: World, n: nat)
    requires n < |cfg.targets|
  {
    && Valid(before) && Valid(after) && Shrinks(before, after) && LosesOnlyOf(before, after, cfg.targets[n])
    && (forall v :: Vpc(v) in before.live && OwnsVpc(cfg.targets[n], v) ==> VpcDone(cfg, w0, after, v))
    && (HasVpc(before, cfg.targets[n]) ==> AddressesSeen(cfg, w0, after, cfg.targets[n]))
  }

  lemma NextTarget(cfg: SweepConfig, w0: World, before: World, after: World, n: nat)
    requires n < |cfg.targets| && Cleaned(cfg, w0, before, after, n) && before.live <= w0.live
    requires LostTo(cfg, w0, before, n) && NetworksDone(cfg, w0, before, n)
    ensures NetworksDone(cfg, w0, after, n + 1)
  {
    forall i | 0 <= i < n + 1 ensures NetworkDone(cfg, w0, after, cfg.targets[i]) {
      forall v | OwnsVpc(cfg.targets[i], v) ensures VpcDone(cfg, w0, after, v) {
        if i < n {
          assert NetworkDone(cfg, w0, before, cfg.targets[i]);
          DoneStaysDone(cfg, w0, before, after, v);
        } else if Vpc(v) !in before.live {
          AbsentVpcIsDone(cfg, w0, after, v);
        }
      }
      if AddressesInReach(cfg, w0) && HasVpc(w0, cfg.targets[i]) {
        forall r | OwnsEip(cfg.targets[i], r) && r in after.live ensures Stuck(cfg, w0, r) || InUse(cfg, w0, after, r) {
          AddressStaysSeen(cfg, w0, before, after, n, i, r);
        }
      }
    }
  }

  /** An address that was seen to stays so: the gateway that used it goes only in the cleanup of a
      target that owns the address too. */
  lemma AddressStaysSeen(cfg: SweepConfig, w0: World, before: World, after: World, n: nat, i: nat, r: Resource)
    requires i <= n < |cfg.targets| && Cleaned(cfg, w0, before, after, n) && before.live <= w0.live
    requires LostTo(cfg, w0, before, n) && NetworksDone(cfg, w0, before, n) && AddressesInReach(cfg, w0)
    requires OwnsEip(cfg.targets[i], r) && HasVpc(w0, cfg.targets[i]) && r in after.live
    ensures Stuck(cfg, w0, r) || InUse(cfg, w0, after, r)
  {
    if i == n && HasVpc(before, cfg.targets[n]) {
      assert AddressesSeen(cfg, w0, after, cfg.targets[n]);
    } else {
      var k := EarlierOwner(cfg, w0, before, n, i, r);
      assert NetworkDone(cfg, w0, before, cfg.targets[k]);
      if !Stuck(cfg, w0, r) { GatewayGoesWithOwner(cfg, w0, before, after, n, k, r); }
    }
  }

  /** A target whose VPCs have all gone lost one to an earlier target, which has its addresses. */
  lemma EarlierOwner(cfg: SweepConfig, w0: World, before: World, n: nat, i: nat, r: Resource) returns (k: nat)
    requires i <= n < |cfg.targets| && before.live <= w0.live && r in before.live
    requires LostTo(cfg, w0, before, n) && SharersShareAddresses(cfg, w0)
    requires OwnsEip(cfg.targets[i], r) && HasVpc(w0, cfg.targets[i]) && (i == n ==> !HasVpc(before, cfg.targets[n]))
    ensures k < n && OwnsEip(cfg.targets[k], r) && HasVpc(w0, cfg.targets[k])
  {
    k := i;
    if i == n {
      var v :| Vpc(v) in w0.live && OwnsVpc(cfg.targets[n], v);
      assert Vpc(v) !in before.live;
      k :| 0 <= k < n && OwnsVpc(cfg.targets[k], v);
      assert HasVpc(w0, cfg.targets[k]);
    }
  }

  /** A NAT gateway that is left is in a VPC that nobody has cleaned up yet. */
  lemma FirstToClean(cfg: SweepConfig, w0: World, w: World, n: nat, g: Resource)
    requires n < |cfg.targets| && NetworksDone(cfg, w0, w, n) && g.Nat? && g in w.live && OwnsVpc(cfg.targets[n], g.vpc)
    ensures FirstOwner(cfg, g.vpc, n)
  {
    assert g == Nat(g.vpc, g.id) && !NatsDone(w, g.vpc);
    forall j | 0 <= j < n ensures !OwnsVpc(cfg.targets[j], g.vpc) { assert NetworkDone(cfg, w0, w, cfg.targets[j]); }
  }

  lemma GatewayGoesWithOwner(cfg: SweepConfig, w0: World, before: World, after: World, n: nat, k: nat, r: Resource)
    requires k < n < |cfg.targets| && NetworksDone(cfg, w0, before, n) && NatsGoInTime(cfg, w0)
    requires Tied(before) && after.live <= before.live <= w0.live && LosesOnlyOf(before, after, cfg.targets[n])
    requires HasVpc(before, cfg.targets[n]) ==> AddressesSeen(cfg, w0, after, cfg.targets[n])
    requires OwnsEip(cfg.targets[k], r) && r in after.live && InUse(cfg, w0, before, r)
    ensures Stuck(cfg, w0, r) || InUse(cfg, w0, after, r)
  {
    var e :| Blocks(w0, e, r) && e.blocker.Nat? && e.blocker in before.live && SweptVpc(cfg, e.blocker.vpc);
    if e.blocker !in after.live {
      FirstToClean(cfg, w0, before, n, e.blocker);
      CleanerOwns(cfg, w0, before, n, k, r, e);
      assert AddressesSeen(cfg, w0, after, cfg.targets[n]);
    }
  }

  /** The target that cleans up a NAT gateway owns an address in its use, if an earlier one does. */
  lemma CleanerOwns(cfg: SweepConfig, w0: World, w: World, n: nat, k: nat, r: Resource, e: Edge)
    requires e.blocker.Nat? && e.blocker in w.live && Tied(w) && Blocks(w0, e, r) && r in w0.live
    requires k < n && FirstOwner(cfg, e.blocker.vpc, n) && NatsGoInTime(cfg, w0) && OwnsEip(cfg.targets[k], r)
    ensures OwnsEip(cfg.targets[n], r) && HasVpc(w, cfg.targets[n])
  {
    assert Parent(e.blocker) == Inside(Vpc(e.blocker.vpc));
  }

  lemma NetworksSettled(cfg: SweepConfig, w0: World, w: World)
    requires w.live <= w0.live && Anchored(w0, w) && NetworksDone(cfg, w0, w, |cfg.targets|)
    ensures Settled(cfg, w0, w, 3)
  {
    forall v | SweptVpc(cfg, v) ensures VpcDone(cfg, w0, w, v) {
      var t :| t in cfg.targets && OwnsVpc(t, v);
      var i :| 0 <= i < |cfg.targets| && cfg.targets[i] == t;
      assert NetworkDone(cfg, w0, w, cfg.targets[i]);
    }
    forall r | r in w.live && Phase(r) == 3 && Swept(cfg, w0, r) && Covered(cfg, w0, r) ensures Stuck(cfg, w0, r) {
      match r {
        case Vpc(v) => assert VpcDone(cfg, w0, w, v);
        case Nat(v, id) =>
        case Subnet(v, id) => assert SubnetsDone(cfg, w0, w, v);
        case RouteTable(v, id, _) => assert TablesDone(cfg, w0, w, v) && r == RouteTable(v, id, false);
        case SecurityGroup(v, id, _) => assert GroupsDone(cfg, w0, w, v) && r == SecurityGroup(v, id, false);
        case Igw(_, _) =>
          var v :| SweptVpc(cfg, v) && AttachedTo(w0, r, Vpc(v));
          assert Edge(r, Vpc(v), Attachment) in w.edges && GatewaysDone(cfg, w0, w, v);
        case Eip(_, _, _) => SeenAddressIsStuck(cfg, w0, w, r);
      }
    }
  }

  /** Once every swept VPC is dealt with, no NAT gateway is left to wait for. */
  lemma SeenAddressIsStuck(cfg: SweepConfig, w0: World, w: World, r: Resource)
    requires NetworksDone(cfg, w0, w, |cfg.targets|) && AddressesInReach(cfg, w0)
    requires r in w.live && SweptEip(cfg, w0, r)
    requires forall v :: SweptVpc(cfg, v) ==> VpcDone(cfg, w0, w, v)
    ensures Stuck(cfg, w0, r)
  {
    var t :| t in cfg.targets && OwnsEip(t, r) && HasVpc(w0, t);
    var i :| 0 <= i < |cfg.targets| && cfg.targets[i] == t;
    assert NetworkDone(cfg, w0, w, cfg.targets[i]);
    forall g: Resource | g.Nat? && SweptVpc(cfg, g.vpc) ensures g !in w.live {
      assert NatsDone(w, g.vpc) && g == Nat(g.vpc, g.id);
    }
  }

  // ── 4f ─────────────────────────────────────────────────────────────────────

  ghost predicate BucketDone(cfg: SweepConfig, w0: World, w: World, bucket: string) {
    Versions(w, bucket) == {} && (Bucket(bucket) in w.live ==> Stuck(cfg, w0, Bucket(bucket)))
  }

  ghost predicate BucketsDone(cfg: SweepConfig, w0: World, w: World, targets: seq<Target>)
    requires cfg.bucketPattern.Some?
  {
    forall t :: t in targets ==> BucketDone(cfg, w0, w, BucketOf(cfg, t))
  }

  lemma OneMoreBucket(cfg: SweepConfig, w0: World, w: World, w': World, targets: seq<Target>, i: nat)
    requires i < |targets| && cfg.bucketPattern.Some? && w'.live <= w.live
    requires BucketsDone(cfg, w0, w, targets[..i]) && BucketDone(cfg, w0, w', BucketOf(cfg, targets[i]))
    requires BucketsUnlocked(cfg, w0, targets[..i]) && Unlocked(w0, BucketOf(cfg, targets[i]))
    ensures BucketsDone(cfg, w0, w', targets[..i + 1]) && BucketsUnlocked(cfg, w0, targets[..i + 1])
  {
    forall s | s in targets[..i] ensures BucketDone(cfg, w0, w', BucketOf(cfg, s)) {
      assert Versions(w', BucketOf(cfg, s)) <= Versions(w, BucketOf(cfg, s));
    }
    assert targets[..i + 1] == targets[..i] + [targets[i]];
  }

  lemma BucketsSettled(cfg: SweepConfig, w0: World, w: World)
    requires cfg.bucketPattern.Some? && cfg.account != "" ==> BucketsDone(cfg, w0, w, cfg.targets)
    ensures Settled(cfg, w0, w, 4)
  {
    forall r | r in w.live && Phase(r) == 4 && Swept(cfg, w0, r) ensures Stuck(cfg, w0, r) {
      var bucket := r.bucket;
      assert r.ObjectVersion? ==> r in Versions(w, bucket);
      assert SweptBucket(cfg, bucket) && BucketDone(cfg, w0, w, bucket);
    }
  }

  /** Every bucket of these targets lets its versions go. */
  ghost predicate BucketsUnlocked(cfg: SweepConfig, w: World, targets: seq<Target>)
    requires cfg.bucketPattern.Some?
  {
    forall t :: t in targets ==> Unlocked(w, BucketOf(cfg, t))
  }

  lemma LocksStay(cfg: SweepConfig, w0: World, w: World, bucket: string)
    requires Framed(cfg, w0, w)
    ensures Unlocked(w, bucket) <==> Unlocked(w0, bucket)
    ensures |Versions(w, bucket)| <= |w0.live|
  {
    SubsetIsSmaller(Versions(w, bucket), w0.live);
    assert forall r :: r in w.locked ==> (r in Versions(w, bucket) <==> r in Versions(w0, bucket));
    if Unlocked(w, bucket) {
      forall r | r in Versions(w0, bucket) ensures r !in w0.locked {
        assert r in w.locked ==> r in Versions(w, bucket);
      }
    }
  }

  lemma NothingLockedIff(cfg: SweepConfig, w: World)
    requires LocksVersions(w)
    ensures NothingLocked(cfg, w) <==>
              (cfg.bucketPattern.Some? && cfg.account != "" ==> BucketsUnlocked(cfg, w, cfg.targets))
  {
    if cfg.bucketPattern.Some? && cfg.account != "" {
      if NothingLocked(cfg, w) {
        forall t, r | t in cfg.targets && r in Versions(w, BucketOf(cfg, t)) ensures r !in w.locked {
          assert SweptBucket(cfg, r.bucket);
        }
      }
      if BucketsUnlocked(cfg, w, cfg.targets) {
        forall r | r in w.locked && r in w.live ensures !Scoped(cfg, w, r) {
          if SweptBucket(cfg, r.bucket) { LockedInTarget(cfg, w, r); }
        }
      }
    }
  }

  lemma LockedInTarget(cfg: SweepConfig, w: World, r: Resource)
    requires r.ObjectVersion? && r in w.locked && r in w.live && SweptBucket(cfg, r.bucket)
    ensures !BucketsUnlocked(cfg, w, cfg.targets)
  {
    var t :| t in cfg.targets && r.bucket == BucketOf(cfg, t);
    assert r in Versions(w, BucketOf(cfg, t));
  }

  /** Without an account id the phase is skipped; a purge that does not end keeps the run. */
  method SweepBuckets(aws: Account, cfg: SweepConfig, ghost w0: World, patience: nat) returns (ended: bool)
    requires Ready(cfg, w0, aws.world)
    modifies aws
    ensures Ready(cfg, w0, aws.world) && LeavesNetwork(old(aws.world), aws.world)
    ensures NothingLocked(cfg, w0) && patience > |w0.live| ==> ended
    ensures aws.reliable && !NothingLocked(cfg, w0) ==> !ended
    ensures aws.reliable && ended ==> Settled(cfg, w0, aws.world, 4)
  {
    NothingLockedIff(cfg, w0);
    var identified := aws.Reach();
    var account := if identified then cfg.account else "";
    ended := true;
    if account != "" && cfg.bucketPattern.Some? { ended := SweepEachBucket(aws, cfg, w0, patience); }
    if aws.reliable && ended { BucketsSettled(cfg, w0, aws.world); }
  }

  method SweepBucket(aws: Account, cfg: SweepConfig, ghost w0: World, t: Target, patience: nat)
    returns (ended: bool)
    requires Ready(cfg, w0, aws.world) && t in cfg.targets && cfg.bucketPattern.Some? && cfg.account != ""
    modifies aws
    ensures Ready(cfg, w0, aws.world) && LeavesNetwork(old(aws.world), aws.world)
    ensures Unlocked(w0, BucketOf(cfg, t)) && patience > |w0.live| ==> ended
    ensures aws.reliable && !Unlocked(w0, BucketOf(cfg, t)) ==> !ended
    ensures aws.reliable && ended ==> BucketDone(cfg, w0, aws.world, BucketOf(cfg, t))
  {
    assert SweptBucket(cfg, BucketOf(cfg, t));
    LocksStay(cfg, w0, aws.world, BucketOf(cfg, t));
    ended := CleanupS3Bucket(aws, cfg, w0, BucketOf(cfg, t), patience);
  }

  method SweepEachBucket(aws: Account, cfg: SweepConfig, ghost w0: World, patience: nat) returns (ended: bool)
    requires Ready(cfg, w0, aws.world) && cfg.bucketPattern.Some? && cfg.account != ""
    modifies aws
    ensures Ready(cfg, w0, aws.world) && LeavesNetwork(old(aws.world), aws.world)
    ensures BucketsUnlocked(cfg, w0, cfg.targets) && patience > |w0.live| ==> ended
    ensures aws.reliable && !BucketsUnlocked(cfg, w0, cfg.targets) ==> !ended
    ensures aws.reliable && ended ==> BucketsDone(cfg, w0, aws.world, cfg.targets)
  {
    ghost var start := aws.world;
    for i := 0 to |cfg.targets|
      invariant Ready(cfg, w0, aws.world) && LeavesNetwork(start, aws.world)
      invariant aws.reliable ==> BucketsDone(cfg, w0, aws.world, cfg.targets[..i])
      invariant aws.reliable ==> BucketsUnlocked(cfg, w0, cfg.targets[..i])
    {
      ghost var before := aws.world;
      ended := SweepBucket(aws, cfg, w0, cfg.targets[i], patience);
      if !ended { return; }
      if aws.reliable { OneMoreBucket(cfg, w0, before, aws.world, cfg.targets, i); }
    }
    assert cfg.targets[..|cfg.targets|] == cfg.targets;
    ended := true;
  }

  function BucketOf(cfg: SweepConfig, t: Target): string
    requires cfg.bucketPattern.Some?
  {
    Naming.BucketName(cfg.bucketPattern.value, cfg.account, t.clusterName)
  }

  // ── 4g ─────────────────────────────────────────────────────────────────────

  /** With more than a thousand roles, only those listed by name are sure to be dealt with. */
  ghost predicate RolesDone(cfg: SweepConfig, w0: World, w: World) {
    forall role :: SweptRole(cfg, role) && (FewRoles(w0) || role in cfg.globalRoles) ==> RoleDone(cfg, w0, w, role)
  }

  /** Every role whose name starts with a cluster name of `targets` is dealt with. */
  ghost predicate PrefixesDone(cfg: SweepConfig, w0: World, w: World, targets: seq<Target>) {
    forall t, name :: t in targets && name != "None" && t.clusterName <= name ==> RoleDone(cfg, w0, w, name)
  }

  ghost predicate NamesDone(cfg: SweepConfig, w0: World, w: World, roles: seq<string>) {
    forall role :: role in roles ==> RoleDone(cfg, w0, w, role)
  }

  lemma RolesStayDone(cfg: SweepConfig, w0: World, w: World, w': World, targets: seq<Target>, roles: seq<string>)
    requires w'.live <= w.live && PrefixesDone(cfg, w0, w, targets) && NamesDone(cfg, w0, w, roles)
    ensures PrefixesDone(cfg, w0, w', targets) && NamesDone(cfg, w0, w', roles)
  {
    AllStayDone(cfg, w0, w, w');
  }

  method SweepRoles(aws: Account, cfg: SweepConfig, ghost w0: World)
    requires Ready(cfg, w0, aws.world)
    modifies aws
    ensures Ready(cfg, w0, aws.world) && Shrinks(old(aws.world), aws.world)
    ensures old(Tidy(aws, w0)) ==> Tidy(aws, w0) && RolesDone(cfg, w0, aws.world)
  {
    ghost var tidy := Tidy(aws, w0);
    SweepClusterRoles(aws, cfg, w0);
    ghost var mid := aws.world;
    SweepGlobalRoles(aws, cfg, w0);
    if tidy {
      if FewRoles(w0) { RolesStayDone(cfg, w0, mid, aws.world, cfg.targets, []); }
      AllRolesCovered(cfg, w0, aws.world);
    }
  }

  lemma AllRolesCovered(cfg: SweepConfig, w0: World, w: World)
    requires FewRoles(w0) ==> PrefixesDone(cfg, w0, w, cfg.targets)
    requires NamesDone(cfg, w0, w, cfg.globalRoles)
    ensures RolesDone(cfg, w0, w)
  {
  }

  lemma OneMorePrefix(cfg: SweepConfig, w0: World, w: World, w': World, targets: seq<Target>, i: nat)
    requires i < |targets| && w'.live <= w.live && PrefixesDone(cfg, w0, w, targets[..i])
    requires forall name :: name != "None" && targets[i].clusterName <= name ==> RoleDone(cfg, w0, w', name)
    ensures PrefixesDone(cfg, w0, w', targets[..i + 1])
  {
    RolesStayDone(cfg, w0, w, w', targets[..i], []);
    assert targets[..i + 1] == targets[..i] + [targets[i]];
  }

  method SweepClusterRoles(aws: Account, cfg: SweepConfig, ghost w0: World)
    requires Ready(cfg, w0, aws.world)
    modifies aws
    ensures Ready(cfg, w0, aws.world) && Shrinks(old(aws.world), aws.world)
    ensures old(Tidy(aws, w0)) ==> Tidy(aws, w0)
    ensures old(Tidy(aws, w0)) && FewRoles(w0) ==> PrefixesDone(cfg, w0, aws.world, cfg.targets)
  {
    ghost var start := aws.world;
    ghost var tidy := Tidy(aws, w0);
    for i := 0 to |cfg.targets|
      invariant Ready(cfg, w0, aws.world) && Shrinks(start, aws.world)
      invariant tidy ==> Tidy(aws, w0)
      invariant tidy && FewRoles(w0) ==> PrefixesDone(cfg, w0, aws.world, cfg.targets[..i])
    {
      ghost var before := aws.world;
      CleanupCapaIamRoles(aws, cfg, w0, cfg.targets[i]);
      if tidy && FewRoles(w0) { OneMorePrefix(cfg, w0, before, aws.world, cfg.targets, i); }
    }
    assert cfg.targets[..|cfg.targets|] == cfg.targets;
  }

  lemma OneMoreName(cfg: SweepConfig, w0: World, w: World, w': World, roles: seq<string>, i: nat)
    requires i < |roles| && w'.live <= w.live
    requires NamesDone(cfg, w0, w, roles[..i]) && RoleDone(cfg, w0, w', roles[i])
    ensures NamesDone(cfg, w0, w', roles[..i + 1])
  {
    RolesStayDone(cfg, w0, w, w', [], roles[..i]);
    assert roles[..i + 1] == roles[..i] + [roles[i]];
  }

  method SweepGlobalRoles(aws: Account, cfg: SweepConfig, ghost w0: World)
    requires Ready(cfg, w0, aws.world)
    modifies aws
    ensures Ready(cfg, w0, aws.world) && Shrinks(old(aws.world), aws.world)
    ensures old(Tidy(aws, w0)) ==> Tidy(aws, w0) && NamesDone(cfg, w0, aws.world, cfg.globalRoles)
  {
    ghost var start := aws.world;
    ghost var tidy := Tidy(aws, w0);
    for i := 0 to |cfg.globalRoles|
      invariant Ready(cfg, w0, aws.world) && Shrinks(start, aws.world)
      invariant tidy ==> Tidy(aws, w0) && NamesDone(cfg, w0, aws.world, cfg.globalRoles[..i])
    {
      ghost var before := aws.world;
      CleanupIamRole(aws, cfg, w0, cfg.globalRoles[i]);
      if tidy { OneMoreName(cfg, w0, before, aws.world, cfg.globalRoles, i); }
    }
    assert cfg.globalRoles[..|cfg.globalRoles|] == cfg.globalRoles;
  }

  lemma RolesSettled(cfg: SweepConfig, w0: World, w: World)
    requires RolesDone(cfg, w0, w)
    ensures Settled(cfg, w0, w, 5)
  {
    forall r | r in w.live && Phase(r) == 5 && Swept(cfg, w0, r) && Covered(cfg, w0, r) ensures Stuck(cfg, w0, r) {
      if r.InstanceProfile? {
        var role :| SweptRole(cfg, role) && AttachedTo(w0, r, IamRole(role));
        assert RoleDone(cfg, w0, w, role);
      } else {
        assert RoleDone(cfg, w0, w, r.role);
      }
    }
  }

  lemma AllStayDone(cfg: SweepConfig, w0: World, w: World, w': World)
    requires w'.live <= w.live
    ensures forall role :: RoleDone(cfg, w0, w, role) ==> RoleDone(cfg, w0, w', role)
  {
    forall role | RoleDone(cfg, w0, w, role) ensures RoleDone(cfg, w0, w', role) {
      RoleStaysDone(cfg, w0, w, w', role);
    }
  }

  ghost predicate UsersDone(cfg: SweepConfig, w0: World, w: World, users: seq<string>) {
    forall user :: user in users ==> UserDone(cfg, w0, w, user)
  }

  lemma OneMoreUser(cfg: SweepConfig, w0: World, w: World, w': World, users: seq<string>, i: nat)
    requires i < |users| && w'.live <= w.live
    requires UsersDone(cfg, w0, w, users[..i]) && UserDone(cfg, w0, w', users[i])
    ensures UsersDone(cfg, w0, w', users[..i + 1])
  {
    assert users[..i + 1] == users[..i] + [users[i]];
  }

  lemma UsersSettled(cfg: SweepConfig, w0: World, w: World)
    requires UsersDone(cfg, w0, w, cfg.globalUsers)
    ensures Settled(cfg, w0, w, 6)
  {
    forall r | r in w.live && Phase(r) == 6 && Swept(cfg, w0, r) ensures Stuck(cfg, w0, r) {
      assert UserDone(cfg, w0, w, r.user) && !IsUserItem(r.user, r);
    }
  }

  method SweepUsers(aws: Account, cfg: SweepConfig, ghost w0: World)
    requires Ready(cfg, w0, aws.world)
    modifies aws
    ensures Ready(cfg, w0, aws.world) && Shrinks(old(aws.world), aws.world)
    ensures aws.reliable ==> UsersDone(cfg, w0, aws.world, cfg.globalUsers)
  {
    ghost var start := aws.world;
    for i := 0 to |cfg.globalUsers|
      invariant Ready(cfg, w0, aws.world) && Shrinks(start, aws.world)
      invariant aws.reliable ==> UsersDone(cfg, w0, aws.world, cfg.globalUsers[..i])
    {
      ghost var before := aws.world;
      CleanupIamUser(aws, cfg, w0, cfg.globalUsers[i]);
      if aws.reliable { OneMoreUser(cfg, w0, before, aws.world, cfg.globalUsers, i); }
    }
    assert cfg.globalUsers[..|cfg.globalUsers|] == cfg.globalUsers;
  }

  // ── 4h ─────────────────────────────────────────────────────────────────────

  ghost predicate StackGoing(w: World, r: Resource) { r in w.live ==> r in w.deleting }

  ghost predicate StacksGoing(w: World, targets: seq<Target>, stack: string) {
    forall t :: t in targets ==> StackGoing(w, CfnStack(t.region, stack))
  }

  /** The deletion is requested and not waited for. */
  method CleanupCfnStack(aws: Account, ghost cfg: SweepConfig, ghost w0: World, stack: string, t: Target)
    requires Ready(cfg, w0, aws.world) && t in cfg.targets && cfg.cfnStack == Some(stack)
    modifies aws
    ensures Ready(cfg, w0, aws.world) && Shrinks(old(aws.world), aws.world)
    ensures aws.reliable ==> StackGoing(aws.world, CfnStack(t.region, stack))
  {
    var r := CfnStack(t.region, stack);
    ghost var start := aws.world;
    var found := aws.Probe(r in aws.world.live);
    if !found { return; }
    DeleteOne(aws, cfg, w0, r);
    if aws.reliable { LeafAnswered(start, r, aws.world); }
  }

  lemma OneMoreStack(w: World, w': World, targets: seq<Target>, i: nat, stack: string)
    requires i < |targets| && StacksGoing(w, targets[..i], stack) && Shrinks(w, w')
    requires StackGoing(w', CfnStack(targets[i].region, stack))
    ensures StacksGoing(w', targets[..i + 1], stack)
  {
    forall s | s in targets[..i] ensures StackGoing(w', CfnStack(s.region, stack)) {
      assert StackGoing(w, CfnStack(s.region, stack));
    }
    assert targets[..i + 1] == targets[..i] + [targets[i]];
  }

  lemma StacksSettled(cfg: SweepConfig, w0: World, w: World)
    requires cfg.cfnStack.Some? ==> StacksGoing(w, cfg.targets, cfg.cfnStack.value)
    ensures Settled(cfg, w0, w, 7)
  {
    forall r | r in w.live && Phase(r) == 7 && Swept(cfg, w0, r) ensures Disposed(cfg, w0, w, r) {
      var t :| t in cfg.targets && t.region == r.region;
      assert StackGoing(w, CfnStack(t.region, cfg.cfnStack.value));
    }
  }

  method SweepStacks(aws: Account, cfg: SweepConfig, ghost w0: World)
    requires Ready(cfg, w0, aws.world)
    modifies aws
    ensures Ready(cfg, w0, aws.world) && Shrinks(old(aws.world), aws.world)
    ensures aws.reliable ==> Settled(cfg, w0, aws.world, 7)
  {
    if cfg.cfnStack.Some? {
      ghost var start := aws.world;
      var stack := cfg.cfnStack.value;
      for i := 0 to |cfg.targets|
        invariant Ready(cfg, w0, aws.world) && Shrinks(start, aws.world)
        invariant aws.reliable ==> StacksGoing(aws.world, cfg.targets[..i], stack)
      {
        ghost var before := aws.world;
        CleanupCfnStack(aws, cfg, w0, stack, cfg.targets[i]);
        if aws.reliable { OneMoreStack(before, aws.world, cfg.targets, i, stack); }
      }
      assert cfg.targets[..|cfg.targets|] == cfg.targets;
    }
    if aws.reliable { StacksSettled(cfg, w0, aws.world); }
  }

  // ── The whole sweep ────────────────────────────────────────────────────────

  ghost predicate ClustersSettled(cfg: SweepConfig, w0: World, w: World) {
    && Departed(w, cfg.targets) && Requested(w, cfg.targets) && EksGone(cfg, w0, w, cfg.targets)
    && DatabasesDone(w, cfg.targets)
  }

  lemma ClusterPhasesSettled(cfg: SweepConfig, w0: World, w: World)
    requires ClustersSettled(cfg, w0, w)
    ensures AllSettled(cfg, w0, w, 3)
    ensures EksCleared(cfg, w0, w)
  {
    forall r | r in w.live && Phase(r) <= 2 && Swept(cfg, w0, r)
      ensures Disposed(cfg, w0, w, r) && (r.EksCluster? ==> Stuck(cfg, w0, r))
    {
      match r {
        case PodAssociation(region, cluster, _) =>
        case Nodegroup(region, cluster, _) =>
        case EksCluster(region, cluster) =>
          var t :| t in cfg.targets && t.region == region && t.eksCluster == cluster;
          assert r == Eks(t);
        case RdsInstance(region, id) =>
          var t :| t in cfg.targets && t.region == region && t.rdsInstance == id;
          assert RdsDone(w, t);
      }
    }
  }

  /** 4a to 4d. */
  method SweepClusters(aws: Account, cfg: SweepConfig)
    requires Valid(aws.world)
    modifies aws
    ensures Ready(cfg, old(aws.world), aws.world) && LeavesNetwork(old(aws.world), aws.world)
    ensures aws.reliable ==> ClustersSettled(cfg, old(aws.world), aws.world)
  {
    ghost var w0 := aws.world;
    BoundReflexive(cfg, w0);
    SweepNodegroups(aws, cfg, w0);
    ghost var a := aws.world;
    SweepEksClusters(aws, cfg, w0);
    ghost var b := aws.world;
    SweepDatabases(aws, cfg, w0);
    if aws.reliable {
      StillDeparted(a, aws.world, cfg.targets);
      StillRequested(a, aws.world, cfg.targets);
    }
  }

  method SweepRegions(aws: Account, cfg: SweepConfig)
    requires Valid(aws.world)
    modifies aws
    ensures Ready(cfg, old(aws.world), aws.world)
    ensures aws.reliable ==> Tidy(aws, old(aws.world)) && AllSettled(cfg, old(aws.world), aws.world, 4)
  {
    ghost var w0 := aws.world;
    SweepClusters(aws, cfg);
    ghost var mid := aws.world;
    if aws.reliable { ClusterPhasesSettled(cfg, w0, mid); }
    SweepNetworks(aws, cfg, w0);
    if aws.reliable {
      AllStaySettled(cfg, w0, mid, aws.world, 3);
      NetworksSettled(cfg, w0, aws.world);
    }
  }

  lemma AllStaySettled(cfg: SweepConfig, w0: World, w: World, w': World, phases: nat)
    requires AllSettled(cfg, w0, w, phases) && Shrinks(w, w')
    ensures AllSettled(cfg, w0, w', phases)
  {
    forall k | 0 <= k < phases ensures Settled(cfg, w0, w', k) { StaysSettled(cfg, w0, w, w', k); }
  }

  /** 4f to 4h. */
  method SweepGlobals(aws: Account, cfg: SweepConfig, ghost w0: World, patience: nat) returns (ended: bool)
    requires Ready(cfg, w0, aws.world)
    modifies aws
    ensures Ready(cfg, w0, aws.world) && Shrinks(old(aws.world), aws.world)
    ensures NothingLocked(cfg, w0) && patience > |w0.live| ==> ended
    ensures aws.reliable && !NothingLocked(cfg, w0) ==> !ended
    ensures old(Tidy(aws, w0) && AllSettled(cfg, w0, aws.world, 4)) && ended ==> AllSettled(cfg, w0, aws.world, 8)
  {
    ghost var w3 := aws.world;
    ghost var half := Tidy(aws, w0) && AllSettled(cfg, w0, w3, 4);
    ended := SweepBuckets(aws, cfg, w0, patience);
    if !ended { return; }
    if half { AllStaySettled(cfg, w0, w3, aws.world, 4); }
    SweepIdentities(aws, cfg, w0);
    ghost var w6 := aws.world;
    SweepStacks(aws, cfg, w0);
    if half { AllStaySettled(cfg, w0, w6, aws.world, 7); }
  }

  /** 4g. */
  method SweepIdentities(aws: Account, cfg: SweepConfig, ghost w0: World)
    requires Ready(cfg, w0, aws.world)
    modifies aws
    ensures Ready(cfg, w0, aws.world) && Shrinks(old(aws.world), aws.world)
    ensures old(Tidy(aws, w0) && AllSettled(cfg, w0, aws.world, 5)) ==> AllSettled(cfg, w0, aws.world, 7)
  {
    ghost var w4 := aws.world;
    ghost var done := Tidy(aws, w0) && AllSettled(cfg, w0, w4, 5);
    SweepRoles(aws, cfg, w0);
    ghost var w5 := aws.world;
    if done {
      RolesSettled(cfg, w0, w5);
      AllStaySettled(cfg, w0, w4, w5, 5);
    }
    SweepUsers(aws, cfg, w0);
    if done {
      UsersSettled(cfg, w0, aws.world);
      AllStaySettled(cfg, w0, w5, aws.world, 6);
    }
  }

  /** Step 4, each of its purge loops watched for `patience` listings. Whatever fails, the run
      stays within the bound. It is sure to end if and only if no version in a swept bucket is
      locked: then it ends under any faults, and otherwise it does not when nothing fails. A
      fault-free run has disposed of everything that the phases up to 4e are responsible for and
      can reach, and when it ends, of everything. */
  method RunSweep(aws: Account, cfg: SweepConfig, patience: nat) returns (ended: bool)
    requires Valid(aws.world)
    modifies aws
    ensures Bound(cfg, old(aws.world), aws.world)
    ensures NothingLocked(cfg, old(aws.world)) && patience > |old(aws.world).live| ==> ended
    ensures aws.reliable && !NothingLocked(cfg, old(aws.world)) ==> !ended
    ensures aws.reliable ==> AllSettled(cfg, old(aws.world), aws.world, 4)
    ensures aws.reliable && ended ==> CleanRun(cfg, old(aws.world), aws.world)
  {
    ghost var w0 := aws.world;
    SweepRegions(aws, cfg);
    ghost var mid := aws.world;
    ended := SweepGlobals(aws, cfg, w0, patience);
    if aws.reliable { AllStaySettled(cfg, w0, mid, aws.world, 4); }
  }

  // ── Completeness and convergence ───────────────────────────────────────────

  /** Whatever lastingly stands in the way of a swept resource is itself swept. */
  ghost predicate Unobstructed(cfg: SweepConfig, w: World) {
    forall e :: e in w.edges && Blocks(w, e, e.blocked) && Lasting(cfg, e) && Swept(cfg, w, e.blocked)
      ==> Swept(cfg, w, e.blocker)
  }

  lemma {:induction false} NothingIsStuck(cfg: SweepConfig, w: World, r: Resource)
    requires Unobstructed(cfg, w) && Swept(cfg, w, r)
    ensures !Stuck(cfg, w, r)
    decreases Rank(r)
  {
    if Stuck(cfg, w, r) {
      var e :| Blocks(w, e, r) && Lasting(cfg, e) &&
               (Swept(cfg, w, e.blocker) ==> Rank(e.blocker) < Rank(r) && Stuck(cfg, w, e.blocker));
      NothingIsStuck(cfg, w, e.blocker);
      assert false;
    }
  }

  /** With nothing foreign in the way, a fault-free run leaves no resource of any target, only
      database and stack deletions that are under way. */
  lemma CleanRunLeavesNothing(cfg: SweepConfig, w: World, u: World, r: Resource)
    requires Unobstructed(cfg, w) && CleanRun(cfg, w, u)
    requires Swept(cfg, w, r) && Covered(cfg, w, r) && r in u.live
    ensures r in u.deleting && (r.RdsInstance? || r.CfnStack?)
  {
    NothingIsStuck(cfg, w, r);
    CleanMeansDisposed(cfg, w, u, r);
  }

  /** `worlds` are the states after consecutive runs, faulty or not, the first of which starts
      in `w`. */
  ghost predicate Runs(cfg: SweepConfig, w: World, worlds: seq<World>)
    decreases |worlds|
  {
    worlds == [] || (Bound(cfg, w, worlds[0]) && Runs(cfg, worlds[0], worlds[1..]))
  }

  function Last(w: World, worlds: seq<World>): World { if worlds == [] then w else worlds[|worlds| - 1] }

  lemma {:induction false} RunsAreBound(cfg: SweepConfig, w: World, worlds: seq<World>)
    requires Valid(w) && Runs(cfg, w, worlds)
    ensures Bound(cfg, w, Last(w, worlds))
    decreases |worlds|
  {
    if worlds == [] {
      BoundReflexive(cfg, w);
    } else {
      RunsAreBound(cfg, worlds[0], worlds[1..]);
      BoundTransitive(cfg, w, worlds[0], Last(w, worlds));
    }
  }

  /** The resources among `s` for which the premises hold; all of them when all premises do. */
  ghost function Concerned(cfg: SweepConfig, w: World, s: set<Resource>): (c: set<Resource>)
    ensures InOrder(cfg, w) ==> c == s
  {
    set r | r in s && OfConcern(cfg, w, r)
  }

  /** Any number of runs with any faults, then one fault-free run: the outcome is that of a
      single fault-free run plus what was stranded, so it is the same exactly when no address,
      gateway or profile was stranded. */
  lemma SweepConverges(cfg: SweepConfig, w: World, worlds: seq<World>, u: World, u': World)
    requires Valid(w) && Runs(cfg, w, worlds) && DefaultsStayHome(cfg, w)
    requires CleanRun(cfg, w, u) && CleanRun(cfg, Last(w, worlds), u')
    ensures var stranded := Concerned(cfg, w, Stranded(cfg, w, Last(w, worlds)));
            var once, again := Concerned(cfg, w, Standing(u)), Concerned(cfg, w, Standing(u'));
            again == once + stranded && (again == once <==> stranded == {})
  {
    var end := Last(w, worlds);
    var stranded := Concerned(cfg, w, Stranded(cfg, w, end));
    var once, again := Concerned(cfg, w, Standing(u)), Concerned(cfg, w, Standing(u'));
    RunsAreBound(cfg, w, worlds);
    forall r | OfConcern(cfg, w, r)
      ensures r in again <==> r in once || r in stranded
      ensures !(r in once && r in stranded)
    {
      FaultsOnlyStrand(cfg, w, end, u, u', r);
    }
    assert again == once + stranded;
    DisjointUnion(once, stranded);
  }

  lemma DisjointUnion(a: set<Resource>, b: set<Resource>)
    requires a !! b
    ensures a + b == a <==> b == {}
  {
    if b != {} {
      var x :| x in b;
      assert x in a + b && x !in a;
    }
  }
}
