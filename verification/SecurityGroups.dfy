/** Security groups may name each other in their rules, in cycles too. The sweep strips the
    rules of all of a VPC's groups in one loop and deletes the groups in a second one
    (bootstrap-rs/src/teardown.rs, end of `cleanup_vpc`). */
module SecurityGroups {
  import opened AwsWorld
  import opened SweepScope
  import opened Aws

  predicate IsRule(e: Edge) { e.link.Ingress? || e.link.Egress? }

  /** The account after the rules of all `groups` have been revoked. */
  function Strip(w: World, groups: seq<Resource>): World {
    w.(edges := set e | e in w.edges && !(IsRule(e) && e.blocker in groups))
  }

  /** The account after one delete call per group, in this order. */
  function DeleteAll(w: World, groups: seq<Resource>): World {
    if groups == [] then w
    else AfterDelete(DeleteAll(w, groups[..|groups| - 1]), groups[|groups| - 1])
  }

  /** A listing of groups as the sweep gets it: the default group is filtered out. */
  ghost predicate Listing(w: World, groups: seq<Resource>) {
    && (forall g :: g in groups ==> g.SecurityGroup? && !g.isDefault && g in w.live && g !in w.deleting)
    && (forall i, j :: 0 <= i < j < |groups| ==> groups[i] != groups[j])
  }

  /** Something besides the listed groups' own rules stands in the way of `g`: a network
      interface, or a rule of a group that is not listed. */
  ghost predicate ObstructedFromOutside(w: World, groups: seq<Resource>, g: Resource) {
    exists e :: Blocks(w, e, g) && !(IsRule(e) && e.blocker in groups)
  }

  lemma StrippedObstacles(w: World, groups: seq<Resource>, g: Resource)
    ensures Blocked(Strip(w, groups), g) <==> ObstructedFromOutside(w, groups, g)
  {
    var s := Strip(w, groups);
    if Blocked(s, g) {
      var e :| e in s.edges && Blocks(s, e, g);
      assert Blocks(w, e, g);
    }
    if ObstructedFromOutside(w, groups, g) {
      var e :| Blocks(w, e, g) && !(IsRule(e) && e.blocker in groups);
      assert Blocks(s, e, g);
    }
  }

  /** Among stripped groups none stands in another's way, whichever of them are gone already. */
  lemma OnlyOthersBlock(s: World, before: World, groups: seq<Resource>, g: Resource)
    requires WellTyped(s) && g in groups && (forall x :: x in groups ==> x.SecurityGroup?)
    requires forall e :: e in s.edges && IsRule(e) ==> e.blocker !in groups
    requires before.edges == s.edges && before.live <= s.live
    requires forall r :: r in s.live && r !in before.live ==> r in groups
    ensures Blocked(before, g) <==> Blocked(s, g)
  {
    if Blocked(before, g) {
      var e :| e in before.edges && Blocks(before, e, g);
      assert Blocks(s, e, g);
    }
    if Blocked(s, g) {
      var e :| e in s.edges && Blocks(s, e, g);
      assert Typed(e) && g.SecurityGroup?;
      assert e.blocker.SecurityGroup? ==> IsRule(e);
      assert e.blocker !in groups;
      assert Blocks(before, e, g);
    }
  }

  /** Once the rules are stripped, whether a delete is accepted does not depend on the deletes
      before it. */
  lemma {:induction false} DeletesAreIndependent(w: World, groups: seq<Resource>, done: nat)
    requires WellTyped(w) && LocksVersions(w) && Listing(w, groups) && done <= |groups|
    ensures var s := Strip(w, groups); var d := DeleteAll(s, groups[..done]);
            && d.edges == s.edges && d.deleting == s.deleting && d.locked == s.locked
            && d.live == set r | r in s.live && (r in groups[..done] ==> Blocked(s, r))
  {
    var s := Strip(w, groups);
    if done > 0 {
      DeletesAreIndependent(w, groups, done - 1);
      var before := DeleteAll(s, groups[..done - 1]);
      var g := groups[done - 1];
      assert groups[..done][..done - 1] == groups[..done - 1];
      OnlyOthersBlock(s, before, groups, g);
      assert forall c :: GoesWith(c, g) <==> c == g;
      assert forall r :: r in groups[..done] <==> r in groups[..done - 1] || r == g;
    }
  }

  /** The two loops delete a listed group exactly when nothing outside the list obstructs it:
      the references among the listed groups, cycles included, and their order do not matter. */
  lemma TwoPassesAreExact(w: World, groups: seq<Resource>, g: Resource)
    requires WellTyped(w) && LocksVersions(w) && Listing(w, groups) && g in groups
    ensures g in DeleteAll(Strip(w, groups), groups).live <==>
            exists e :: e in w.edges && e.blocked == g && e.blocker != g && e.blocker in w.live &&
                        !((e.link.Ingress? || e.link.Egress?) && e.blocker in groups)
  {
    DeletesAreIndependent(w, groups, |groups|);
    assert groups[..|groups|] == groups;
    StrippedObstacles(w, groups, g);
    if e :| e in w.edges && e.blocked == g && e.blocker != g && e.blocker in w.live &&
            !(IsRule(e) && e.blocker in groups) {
      assert Blocks(w, e, g);
    }
  }

  /** With nothing in the way from outside, every delete of the second loop is accepted. */
  lemma TwoPassesClear(w: World, groups: seq<Resource>, i: nat)
    requires WellTyped(w) && LocksVersions(w) && Listing(w, groups) && i < |groups|
    requires forall g :: g in groups ==> !ObstructedFromOutside(w, groups, g)
    ensures Accepts(DeleteAll(Strip(w, groups), groups[..i]), groups[i])
  {
    DeletesAreIndependent(w, groups, i);
    var s, g := Strip(w, groups), groups[i];
    StrippedObstacles(w, groups, g);
    var d := DeleteAll(s, groups[..i]);
    forall e | e in d.edges ensures !Blocks(d, e, g) { assert Blocks(d, e, g) ==> Blocks(s, e, g); }
  }

  /** A knot: every member is named by a rule of another member. */
  ghost predicate Knot(w: World, knot: set<Resource>) {
    knot <= w.live && forall g {:trigger NamedFrom(w, knot, g)} :: g in knot ==> NamedFrom(w, knot, g)
  }

  ghost predicate NamedFrom(w: World, knot: set<Resource>, g: Resource) {
    g.SecurityGroup? && exists e :: Blocks(w, e, g) && IsRule(e) && e.blocker in knot
  }

  /** Deleting without stripping first never unties a knot, in whatever order and however often
      the groups are tried. */
  lemma {:induction false} OnePassKeepsKnots(w: World, groups: seq<Resource>, knot: set<Resource>)
    requires Knot(w, knot) && forall g :: g in groups ==> g.SecurityGroup?
    ensures Knot(DeleteAll(w, groups), knot)
  {
    if groups != [] {
      var rest, g := groups[..|groups| - 1], groups[|groups| - 1];
      OnePassKeepsKnots(w, rest, knot);
      var before := DeleteAll(w, rest);
      StaysBlocked(before, g, knot);
      KnotSurvives(before, AfterDelete(before, g), knot);
    }
  }

  lemma StaysBlocked(w: World, g: Resource, knot: set<Resource>)
    requires Knot(w, knot) && g.SecurityGroup?
    ensures knot <= AfterDelete(w, g).live && AfterDelete(w, g).edges == w.edges
  {
    if g in knot {
      assert NamedFrom(w, knot, g);
      assert Blocked(w, g);
    } else {
      assert forall c :: GoesWith(c, g) ==> c == g;
    }
  }

  lemma KnotSurvives(w: World, w': World, knot: set<Resource>)
    requires Knot(w, knot) && knot <= w'.live && w'.edges == w.edges
    ensures Knot(w', knot)
  {
    forall k | k in knot ensures NamedFrom(w', knot, k) {
      assert NamedFrom(w, knot, k);
      var e :| Blocks(w, e, k) && IsRule(e) && e.blocker in knot;
      assert Blocks(w', e, k);
    }
  }

  /** The second half of `cleanup_vpc`: strip the rules of every listed group, then delete them. */
  method DeleteSecurityGroups(aws: Account, ghost cfg: SweepConfig, ghost w0: World, v: VpcInfo)
    returns (groups: seq<Resource>)
    requires Ready(cfg, w0, aws.world) && SweptVpc(cfg, v)
    modifies aws
    ensures Ready(cfg, w0, aws.world)
    ensures Listing(old(aws.world), groups) && forall g :: g in groups ==> g.vpc == v
    ensures OnlyGroupsChange(old(aws.world), groups, aws.world)
    ensures aws.reliable ==> forall id :: SecurityGroup(v, id, false) in old(aws.world.live) ==>
              SecurityGroup(v, id, false) in groups
    ensures aws.reliable ==> aws.world == DeleteAll(Strip(old(aws.world), groups), groups)
  {
    groups := aws.List((r: Resource) => r.SecurityGroup? && r.vpc == v && !r.isDefault);
    assert forall r :: r in aws.world.deleting ==> Async(r);
    StripGroups(aws, cfg, w0, groups);
    DeleteGroups(aws, cfg, w0, groups);
  }

  ghost predicate OnlyGroupsChange(w: World, groups: seq<Resource>, w': World) {
    && Shrinks(w, w')
    && (forall r :: r in w.live && r !in w'.live ==> r in groups)
    && (forall e :: e in w.edges && e !in w'.edges ==> IsRule(e))
  }

  method StripGroup(aws: Account, ghost cfg: SweepConfig, ghost w0: World, group: Resource)
    requires Ready(cfg, w0, aws.world) && Stripped(cfg, group)
    modifies aws
    ensures Ready(cfg, w0, aws.world)
    ensures aws.world.live == old(aws.world.live) && OnlyGroupsChange(old(aws.world), [], aws.world)
    ensures aws.reliable ==> aws.world == AfterRevoke(AfterRevoke(old(aws.world), group, Ingress), group, Egress)
  {
    StripRules(aws, cfg, w0, group, Ingress);
    StripRules(aws, cfg, w0, group, Egress);
  }

  method StripGroups(aws: Account, ghost cfg: SweepConfig, ghost w0: World, groups: seq<Resource>)
    requires Ready(cfg, w0, aws.world)
    requires forall g :: g in groups ==> Stripped(cfg, g)
    modifies aws
    ensures Ready(cfg, w0, aws.world)
    ensures aws.world.live == old(aws.world.live) && OnlyGroupsChange(old(aws.world), groups, aws.world)
    ensures aws.reliable ==> aws.world == Strip(old(aws.world), groups)
  {
    ghost var start := aws.world;
    for i := 0 to |groups|
      invariant Ready(cfg, w0, aws.world) && aws.world.live == start.live
      invariant OnlyGroupsChange(start, groups, aws.world)
      invariant aws.reliable ==> aws.world == Strip(start, groups[..i])
    {
      StripGroup(aws, cfg, w0, groups[i]);
      StripOneMore(start, groups, i);
    }
    assert groups[..|groups|] == groups;
  }

  lemma StripOneMore(w: World, groups: seq<Resource>, i: nat)
    requires i < |groups|
    ensures Strip(w, groups[..i + 1])
         == AfterRevoke(AfterRevoke(Strip(w, groups[..i]), groups[i], Ingress), groups[i], Egress)
  {
    assert groups[..i + 1] == groups[..i] + [groups[i]];
  }

  method DeleteGroup(aws: Account, ghost cfg: SweepConfig, ghost w0: World, group: Resource)
    requires Ready(cfg, w0, aws.world) && Stripped(cfg, group)
    modifies aws
    ensures Ready(cfg, w0, aws.world)
    ensures aws.world.edges == old(aws.world.edges) && OnlyGroupsChange(old(aws.world), [group], aws.world)
    ensures aws.reliable ==> aws.world == AfterDelete(old(aws.world), group)
  {
    DeleteExtends(cfg, w0, aws.world, group);
    aws.Delete(group);
    assert forall c :: GoesWith(c, group) ==> c == group;
  }

  method DeleteGroups(aws: Account, ghost cfg: SweepConfig, ghost w0: World, groups: seq<Resource>)
    requires Ready(cfg, w0, aws.world)
    requires forall g :: g in groups ==> Stripped(cfg, g)
    modifies aws
    ensures Ready(cfg, w0, aws.world)
    ensures aws.world.edges == old(aws.world.edges) && OnlyGroupsChange(old(aws.world), groups, aws.world)
    ensures aws.reliable ==> aws.world == DeleteAll(old(aws.world), groups)
  {
    ghost var start := aws.world;
    for i := 0 to |groups|
      invariant Ready(cfg, w0, aws.world)
      invariant aws.world.edges == start.edges && OnlyGroupsChange(start, groups, aws.world)
      invariant aws.reliable ==> aws.world == DeleteAll(start, groups[..i])
    {
      assert Stripped(cfg, groups[i]);
      DeleteGroup(aws, cfg, w0, groups[i]);
      assert groups[..i + 1][..i] == groups[..i];
    }
    assert groups[..|groups|] == groups;
  }

  /** Describe one side of a group's rules and revoke what is there. */
  method StripRules(aws: Account, ghost cfg: SweepConfig, ghost w0: World, group: Resource, side: Link)
    requires Ready(cfg, w0, aws.world) && Stripped(cfg, group) && (side.Ingress? || side.Egress?)
    modifies aws
    ensures Ready(cfg, w0, aws.world)
    ensures aws.world == AfterRevoke(old(aws.world), group, side) || (!aws.reliable && aws.world == old(aws.world))
  {
    var w := aws.world;
    var rules := aws.Probe(exists e :: e in w.edges && e.blocker == group && e.link == side);
    RevokeExtends(cfg, w0, w, group, side);
    if rules {
      aws.Revoke(group, side);
    } else if aws.reliable {
      assert AfterRevoke(w, group, side).edges == w.edges;
    }
  }
}
