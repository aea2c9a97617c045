/** The AWS account behind the `aws` CLI, as the orphan sweep meets it. Every call may fail
    unless the account is `reliable`: a probe may answer anything, a listing may miss
    anything, a delete may never arrive or may finish at once, a wait may time out. */
module Aws {
  import opened AwsWorld
  import opened SweepScope

  class Account {
    var world: World
    const reliable: bool

    constructor (world: World, reliable: bool)
      ensures this.world == world && this.reliable == reliable
    {
      this.world := world;
      this.reliable := reliable;
    }

    /** Whether a call gets through. */
    method Reach() returns (reached: bool)
      ensures reliable ==> reached
    {
      reached := *;
      if reliable { reached := true; }
    }

    /** A command whose exit status tells whether something is the case. */
    method Probe(truth: bool) returns (answer: bool)
      ensures reliable ==> answer == truth
    {
      answer := *;
      if reliable { answer := truth; }
    }

    /** A listing, in whatever order AWS likes. */
    method List(kind: Resource -> bool) returns (items: seq<Resource>)
      ensures forall r :: r in items ==> r in world.live && kind(r)
      ensures forall i, j :: 0 <= i < j < |items| ==> items[i] != items[j]
      ensures reliable ==> forall r :: r in world.live && kind(r) ==> r in items
    {
      items := [];
      var rest := set r | r in world.live && kind(r);
      while rest != {}
        invariant forall r :: r in rest ==> r in world.live && kind(r)
        invariant forall r :: r in items ==> r in world.live && kind(r) && r !in rest
        invariant forall i, j :: 0 <= i < j < |items| ==> items[i] != items[j]
        invariant reliable ==> forall r :: r in world.live && kind(r) ==> r in items || r in rest
        decreases rest
      {
        var r :| r in rest;
        rest := rest - {r};
        var listed := Reach();
        if listed { items := items + [r]; }
      }
    }

    method Delete(r: Resource)
      modifies this
      ensures Deleted(reliable, old(world), r, world)
    {
      var reached := Reach();
      if reached {
        world := AfterDelete(world, r);
      } else if * {
        if Accepts(world, r) { world := Gone(world, r); }
      }
    }

    /** One entry of a batch that reached S3, which may refuse it inside a successful reply. */
    method DeleteEntry(r: Resource)
      modifies this
      ensures world == AfterDelete(old(world), r)
    {
      world := AfterDelete(world, r);
    }

    method Wait(r: Resource)
      modifies this
      ensures world == AfterWait(old(world), r) || (!reliable && world == old(world))
    {
      var finished := Reach();
      if finished { world := AfterWait(world, r); }
    }

    method Revoke(group: Resource, link: Link)
      modifies this
      ensures world == AfterRevoke(old(world), group, link) || (!reliable && world == old(world))
    {
      var reached := Reach();
      if reached { world := AfterRevoke(world, group, link); }
    }

    method Detach(a: Resource, b: Resource)
      modifies this
      ensures world == AfterDetach(old(world), a, b) || (!reliable && world == old(world))
    {
      var reached := Reach();
      if reached { world := AfterDetach(world, a, b); }
    }
  }

  /** What a delete call may come to: AWS applies its rules, or the call never arrives, or the
      deletion is over at once. */
  predicate Deleted(reliable: bool, w: World, r: Resource, w': World) {
    || w' == AfterDelete(w, r)
    || (!reliable && w' == w)
    || (!reliable && Accepts(w, r) && w' == Gone(w, r))
  }

  /** `w` is a state some run that started in `w0` may have reached. */
  ghost predicate Ready(cfg: SweepConfig, w0: World, w: World) {
    Valid(w0) && Bound(cfg, w0, w)
  }

  /** Things, obstacles and finished deletions only ever disappear. */
  predicate Shrinks(w: World, w': World) {
    && w'.live <= w.live && w'.edges <= w.edges && w'.locked == w.locked
    && forall r :: r in w.deleting && r in w'.live ==> r in w'.deleting
  }

  /** From `w` to `w'` only the listed resources, and what goes with them, disappeared. */
  ghost predicate Within(items: seq<Resource>, w: World, w': World) {
    && Shrinks(w, w') && w'.edges == w.edges
    && (forall c :: c in w.live && c !in w'.live ==> exists r :: r in items && GoesWith(c, r))
  }

  lemma BlockedEarlier(w: World, w': World, r: Resource)
    requires w'.live <= w.live && w'.edges <= w.edges && Blocked(w', r)
    ensures Blocked(w, r)
  {
    var e :| e in w'.edges && Blocks(w', e, r);
    assert Blocks(w, e, r);
  }

  /** `r`, had it been asked for in `w`, is in `w'` only for a reason. */
  ghost predicate Answered(w: World, r: Resource, w': World) {
    r in w'.live ==> r in w'.deleting || !Deletable(r) || Blocked(w, r) || r in w.locked
  }

  ghost predicate AllAnswered(w: World, items: seq<Resource>, w': World) {
    forall r :: r in items ==> Answered(w, r, w')
  }

  lemma DeletedWithin(reliable: bool, items: seq<Resource>, i: nat, start: World, before: World, after: World)
    requires i < |items| && Within(items, start, before) && Deleted(reliable, before, items[i], after)
    requires reliable ==> AllAnswered(start, items[..i], before)
    ensures Within(items, start, after)
    ensures reliable ==> AllAnswered(start, items[..i + 1], after)
  {
    var r := items[i];
    assert forall c :: c in before.live && c !in after.live ==> GoesWith(c, r);
    if Blocked(before, r) { BlockedEarlier(start, before, r); }
    assert items[..i + 1] == items[..i] + [r];
  }

  /** `for x in listing { aws ... delete x }`, best effort. */
  method DeleteEach(aws: Account, ghost cfg: SweepConfig, ghost w0: World, items: seq<Resource>)
    requires Ready(cfg, w0, aws.world)
    requires forall r :: r in items ==> Scoped(cfg, w0, r)
    modifies aws
    ensures Ready(cfg, w0, aws.world)
    ensures Within(items, old(aws.world), aws.world)
    ensures aws.reliable ==> forall r :: r in items ==> Answered(old(aws.world), r, aws.world)
  {
    ghost var start := aws.world;
    for i := 0 to |items|
      invariant Ready(cfg, w0, aws.world) && Within(items, start, aws.world)
      invariant aws.reliable ==> AllAnswered(start, items[..i], aws.world)
    {
      ghost var before := aws.world;
      DeleteExtends(cfg, w0, before, items[i]);
      aws.Delete(items[i]);
      DeletedWithin(aws.reliable, items, i, start, before, aws.world);
    }
    assert items[..|items|] == items;
  }

  /** List the resources of one kind and delete them one by one. */
  method DeleteListed(aws: Account, ghost cfg: SweepConfig, ghost w0: World, kind: Resource -> bool)
    requires Ready(cfg, w0, aws.world)
    requires forall r :: kind(r) ==> Scoped(cfg, w0, r)
    modifies aws
    ensures Ready(cfg, w0, aws.world) && Shrinks(old(aws.world), aws.world)
    ensures aws.world.edges == old(aws.world.edges)
    ensures forall c :: c in old(aws.world.live) && c !in aws.world.live ==> exists r :: kind(r) && GoesWith(c, r)
    ensures aws.reliable ==> forall r :: kind(r) && r in old(aws.world.live) ==> Answered(old(aws.world), r, aws.world)
  {
    var items := aws.List(kind);
    DeleteEach(aws, cfg, w0, items);
  }

  /** A single `aws ... delete`, best effort. */
  method DeleteOne(aws: Account, ghost cfg: SweepConfig, ghost w0: World, r: Resource)
    requires Ready(cfg, w0, aws.world) && Scoped(cfg, w0, r)
    modifies aws
    ensures Ready(cfg, w0, aws.world)
    ensures Shrinks(old(aws.world), aws.world) && aws.world.edges == old(aws.world.edges)
    ensures forall c :: c in old(aws.world.live) && c !in aws.world.live ==> GoesWith(c, r)
    ensures aws.reliable ==> Answered(old(aws.world), r, aws.world)
  {
    DeleteExtends(cfg, w0, aws.world, r);
    aws.Delete(r);
  }

  /** The deletions of `items` that were under way are over. */
  ghost predicate Finished(w: World, items: seq<Resource>, w': World) {
    forall r :: r in items && r in w.deleting ==> r !in w'.live
  }

  lemma WaitedWithin(reliable: bool, items: seq<Resource>, i: nat, start: World, before: World, after: World)
    requires i < |items| && Within(items, start, before)
    requires after == AfterWait(before, items[i]) || (!reliable && after == before)
    requires reliable ==> Finished(start, items[..i], before)
    ensures Within(items, start, after)
    ensures reliable ==> Finished(start, items[..i + 1], after)
  {
    var r := items[i];
    assert forall c :: c in before.live && c !in after.live ==> GoesWith(c, r);
    assert items[..i + 1] == items[..i] + [r];
  }

  /** `for x in listing { aws ... wait x }`, best effort. */
  method WaitEach(aws: Account, ghost cfg: SweepConfig, ghost w0: World, items: seq<Resource>)
    requires Ready(cfg, w0, aws.world)
    requires forall r :: r in items ==> Scoped(cfg, w0, r)
    modifies aws
    ensures Ready(cfg, w0, aws.world)
    ensures Within(items, old(aws.world), aws.world)
    ensures aws.reliable ==> Finished(old(aws.world), items, aws.world)
  {
    ghost var start := aws.world;
    for i := 0 to |items|
      invariant Ready(cfg, w0, aws.world) && Within(items, start, aws.world)
      invariant aws.reliable ==> Finished(start, items[..i], aws.world)
    {
      ghost var before := aws.world;
      WaitExtends(cfg, w0, before, items[i]);
      aws.Wait(items[i]);
      WaitedWithin(aws.reliable, items, i, start, before, aws.world);
    }
    assert items[..|items|] == items;
  }

  // ── Leaves ─────────────────────────────────────────────────────────────────

  /** Resources that no dependency rule protects. */
  predicate Leaf(r: Resource) {
    r.PodAssociation? || r.Nodegroup? || r.RdsInstance? || r.Nat? || r.ObjectVersion? || r.AttachedPolicy?
    || r.InlinePolicy? || r.LoginProfile? || r.AccessKey? || r.UserPolicy? || r.CfnStack?
  }

  lemma LeafUnblocked(w: World, r: Resource)
    requires WellTyped(w) && Leaf(r)
    ensures !Blocked(w, r)
  {
    forall e | e in w.edges ensures !Blocks(w, e, r) { assert Typed(e); }
  }

  /** A leaf that was asked for is gone, or going. */
  lemma LeafAnswered(w: World, r: Resource, w': World)
    requires Valid(w) && Valid(w') && Leaf(r) && !r.ObjectVersion? && Answered(w, r, w')
    ensures r in w'.live ==> r in w'.deleting && Async(r)
  {
    LeafUnblocked(w, r);
  }

  lemma LeavesGoAlone(w: World, w': World, items: seq<Resource>)
    requires Within(items, w, w') && forall r :: r in items ==> Leaf(r)
    ensures forall r :: r in w.live && r !in w'.live ==> r in items
  {
    forall c | c in w.live && c !in w'.live ensures c in items {
      var r :| r in items && GoesWith(c, r);
      assert Leaf(r);
    }
  }

  /** List the leaves of one kind and delete them one by one. */
  method DeleteLeaves(aws: Account, ghost cfg: SweepConfig, ghost w0: World, kind: Resource -> bool)
    requires Ready(cfg, w0, aws.world)
    requires forall r :: kind(r) ==> Leaf(r) && !r.ObjectVersion? && !Async(r) && Scoped(cfg, w0, r)
    modifies aws
    ensures Ready(cfg, w0, aws.world) && Shrinks(old(aws.world), aws.world)
    ensures aws.world.edges == old(aws.world.edges)
    ensures forall r :: r in old(aws.world.live) && r !in aws.world.live ==> kind(r)
    ensures aws.reliable ==> forall r :: kind(r) ==> r !in aws.world.live
  {
    ghost var start := aws.world;
    var items := aws.List(kind);
    DeleteEach(aws, cfg, w0, items);
    LeavesGoAlone(start, aws.world, items);
    if aws.reliable {
      forall r | r in items ensures r !in aws.world.live { LeafAnswered(start, r, aws.world); }
    }
  }
}
