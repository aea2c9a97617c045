/** Units of step 4 of the teardown, the AWS orphan sweep: those for EKS, RDS and S3
    (bootstrap-rs/src/teardown.rs, `cleanup_*` and `wait_*`). */
module Sweep {
  import opened AwsWorld
  import opened Basics
  import opened SweepScope
  import opened Aws
  import opened SweepVpc

  /** A unit that only removes leaves of the network's surroundings. */
  ghost predicate LeavesNetwork(w: World, w': World) {
    Shrinks(w, w') && w'.edges == w.edges && forall v :: Vpc(v) in w.live ==> Vpc(v) in w'.live
  }

  function Eks(t: Target): Resource { EksCluster(t.region, t.eksCluster) }

  predicate IsPodAssociation(t: Target, r: Resource) {
    r.PodAssociation? && r.region == t.region && r.cluster == t.eksCluster
  }

  predicate IsNodegroup(t: Target, r: Resource) {
    r.Nodegroup? && r.region == t.region && r.cluster == t.eksCluster
  }

  // ── 4a–4d ──────────────────────────────────────────────────────────────────

  method CleanupPodIdentityAssociations(aws: Account, ghost cfg: SweepConfig, ghost w0: World, t: Target)
    requires Ready(cfg, w0, aws.world) && t in cfg.targets
    modifies aws
    ensures Ready(cfg, w0, aws.world) && LeavesNetwork(old(aws.world), aws.world)
    ensures aws.reliable ==> forall r :: IsPodAssociation(t, r) ==> r !in aws.world.live
  {
    var found := aws.Probe(Eks(t) in aws.world.live);
    if !found {
      assert forall r :: IsPodAssociation(t, r) ==> Parent(r) == Inside(Eks(t));
      return;
    }
    DeleteLeaves(aws, cfg, w0, (r: Resource) => IsPodAssociation(t, r));
  }

  method CleanupNodegroups(aws: Account, ghost cfg: SweepConfig, ghost w0: World, t: Target)
    requires Ready(cfg, w0, aws.world) && t in cfg.targets
    modifies aws
    ensures Ready(cfg, w0, aws.world) && LeavesNetwork(old(aws.world), aws.world)
    ensures aws.reliable ==> forall r :: IsNodegroup(t, r) && r in aws.world.live ==> r in aws.world.deleting
  {
    ghost var start := aws.world;
    var found := aws.Probe(Eks(t) in aws.world.live);
    if !found {
      assert forall r :: IsNodegroup(t, r) ==> Parent(r) == Inside(Eks(t));
      return;
    }
    var groups := aws.List((r: Resource) => IsNodegroup(t, r));
    DeleteEach(aws, cfg, w0, groups);
    if aws.reliable {
      forall r | IsNodegroup(t, r) && r in aws.world.live ensures r in aws.world.deleting {
        LeafAnswered(start, r, aws.world);
      }
    }
  }

  method WaitNodegroupsDeleted(aws: Account, ghost cfg: SweepConfig, ghost w0: World, t: Target)
    requires Ready(cfg, w0, aws.world) && t in cfg.targets
    modifies aws
    ensures Ready(cfg, w0, aws.world) && LeavesNetwork(old(aws.world), aws.world)
    ensures aws.reliable ==>
              forall r :: IsNodegroup(t, r) && r in old(aws.world).deleting ==> r !in aws.world.live
  {
    var found := aws.Probe(Eks(t) in aws.world.live);
    if !found {
      assert forall r :: IsNodegroup(t, r) ==> Parent(r) == Inside(Eks(t));
      return;
    }
    var groups := aws.List((r: Resource) => IsNodegroup(t, r));
    WaitEach(aws, cfg, w0, groups);
  }

  method CleanupEksCluster(aws: Account, ghost cfg: SweepConfig, ghost w0: World, t: Target)
    requires Ready(cfg, w0, aws.world) && t in cfg.targets
    modifies aws
    ensures Ready(cfg, w0, aws.world) && LeavesNetwork(old(aws.world), aws.world)
    ensures aws.reliable ==> Answered(old(aws.world), Eks(t), aws.world)
  {
    var found := aws.Probe(Eks(t) in aws.world.live);
    if !found { return; }
    DeleteOne(aws, cfg, w0, Eks(t));
  }

  method WaitEksClusterDeleted(aws: Account, ghost cfg: SweepConfig, ghost w0: World, t: Target)
    requires Ready(cfg, w0, aws.world) && t in cfg.targets
    modifies aws
    ensures Ready(cfg, w0, aws.world) && LeavesNetwork(old(aws.world), aws.world)
    ensures aws.reliable && Eks(t) in old(aws.world).deleting ==> Eks(t) !in aws.world.live
  {
    var found := aws.Probe(Eks(t) in aws.world.live);
    if !found { return; }
    WaitEach(aws, cfg, w0, [Eks(t)]);
  }

  method CleanupRdsInstance(aws: Account, ghost cfg: SweepConfig, ghost w0: World, t: Target)
    requires Ready(cfg, w0, aws.world) && t in cfg.targets
    modifies aws
    ensures Ready(cfg, w0, aws.world) && LeavesNetwork(old(aws.world), aws.world)
    ensures aws.reliable ==> RdsDone(aws.world, t)
  {
    var db := RdsInstance(t.region, t.rdsInstance);
    ghost var start := aws.world;
    var found := aws.Probe(db in aws.world.live);
    if !found { return; }
    var alreadyDeleting := aws.Probe(db in aws.world.deleting);
    if alreadyDeleting { return; }
    DeleteOne(aws, cfg, w0, db);
    if aws.reliable { LeafAnswered(start, db, aws.world); }
  }

  ghost predicate RdsDone(w: World, t: Target) {
    var db := RdsInstance(t.region, t.rdsInstance);
    db in w.live ==> db in w.deleting
  }

  // ── 4f ─────────────────────────────────────────────────────────────────────

  const PAGE: nat := 500

  predicate IsVersion(bucket: string, r: Resource) { r.ObjectVersion? && r.bucket == bucket }

  function Versions(w: World, bucket: string): set<Resource> { set r | r in w.live && IsVersion(bucket, r) }

  /** One page of `list-object-versions`: up to 500 versions and delete markers. */
  method ListVersions(aws: Account, bucket: string) returns (page: seq<Resource>)
    ensures forall r :: r in page ==> r in Versions(aws.world, bucket)
    ensures forall i, j :: 0 <= i < j < |page| ==> page[i] != page[j]
    ensures |page| <= 500
    ensures aws.reliable ==> |page| == 500 || forall r :: r in Versions(aws.world, bucket) ==> r in page
  {
    var all := aws.List((r: Resource) => IsVersion(bucket, r));
    page := if |all| > PAGE then all[..PAGE] else all;
    assert forall r :: r in page ==> r in all;
  }

  /** `delete-objects` on one page, every entry with its version id. A call that fails may have
      got through to some of the entries. */
  method DeleteObjects(aws: Account, ghost cfg: SweepConfig, ghost w0: World, ghost bucket: string, page: seq<Resource>)
    returns (ok: bool)
    requires Ready(cfg, w0, aws.world)
    requires forall r :: r in page ==> r in Versions(aws.world, bucket) && Scoped(cfg, w0, r)
    modifies aws
    ensures Ready(cfg, w0, aws.world) && LeavesNetwork(old(aws.world), aws.world)
    ensures ok ==> Purged(old(aws.world), aws.world, bucket, page)
    ensures aws.reliable ==> ok
  {
    ok := aws.Reach();
    var entries := page;
    if !ok {
      var n :| 0 <= n <= |page|;
      entries := page[..n];
    }
    DeleteEntries(aws, cfg, w0, bucket, entries);
  }

  method DeleteEntries(aws: Account, ghost cfg: SweepConfig, ghost w0: World, ghost bucket: string, page: seq<Resource>)
    requires Ready(cfg, w0, aws.world)
    requires forall r :: r in page ==> r in Versions(aws.world, bucket) && Scoped(cfg, w0, r)
    modifies aws
    ensures Ready(cfg, w0, aws.world) && LeavesNetwork(old(aws.world), aws.world)
    ensures Purged(old(aws.world), aws.world, bucket, page)
  {
    ghost var start := aws.world;
    for i := 0 to |page|
      invariant Ready(cfg, w0, aws.world) && LeavesNetwork(start, aws.world)
      invariant Purged(start, aws.world, bucket, page[..i])
    {
      DeleteExtends(cfg, w0, aws.world, page[i]);
      EntryGone(start, aws.world, bucket, page, i);
      aws.DeleteEntry(page[i]);
    }
    assert page[..|page|] == page;
  }

  /** Of the bucket's versions exactly those of `page` that are not locked have disappeared. */
  ghost predicate Purged(w: World, w': World, bucket: string, page: seq<Resource>) {
    Versions(w', bucket) == Versions(w, bucket) - set r | r in page && r !in w.locked
  }

  lemma EntryGone(start: World, w: World, bucket: string, page: seq<Resource>, i: nat)
    requires Valid(w) && i < |page| && IsVersion(bucket, page[i]) && w.locked == start.locked
    requires Purged(start, w, bucket, page[..i])
    ensures LeavesNetwork(w, AfterDelete(w, page[i]))
    ensures Purged(start, AfterDelete(w, page[i]), bucket, page[..i + 1])
  {
    var r := page[i];
    LeafUnblocked(w, r);
    assert forall c :: GoesWith(c, r) <==> c == r;
    assert r in w.deleting ==> Async(r);
    assert page[..i + 1] == page[..i] + [r];
    assert Versions(AfterDelete(w, r), bucket) == Versions(w, bucket) - if r in w.locked then {} else {r};
  }

  /** S3 lets every version of the bucket go. */
  ghost predicate Unlocked(w: World, bucket: string) {
    forall r :: r in Versions(w, bucket) ==> r !in w.locked
  }

  /** The purge loop, watched for `patience` listings; `ended` tells whether it has come to its
      end by then. The loop sees the exit status of a batch only, not what was refused in it. */
  method PurgeVersions(aws: Account, ghost cfg: SweepConfig, ghost w0: World, bucket: string, patience: nat)
    returns (ended: bool, listings: nat)
    requires Ready(cfg, w0, aws.world) && SweptBucket(cfg, bucket)
    modifies aws
    ensures Ready(cfg, w0, aws.world) && LeavesNetwork(old(aws.world), aws.world)
    ensures listings <= patience && (!ended ==> listings == patience)
    ensures Unlocked(old(aws.world), bucket) ==> listings <= |Versions(old(aws.world), bucket)| + 1
    ensures Unlocked(old(aws.world), bucket) && patience > |Versions(old(aws.world), bucket)| ==> ended
    ensures aws.reliable && Unlocked(old(aws.world), bucket) ==>
              var pages := (|Versions(old(aws.world), bucket)| + 499) / 500;
              (ended <==> patience > pages) && (ended ==> listings == pages + 1)
    ensures aws.reliable && !Unlocked(old(aws.world), bucket) ==> !ended
    ensures aws.reliable && ended ==> Versions(aws.world, bucket) == {}
  {
    ghost var start := aws.world;
    ghost var n := |Versions(start, bucket)|;
    ghost var unlocked := Unlocked(start, bucket);
    listings, ended := 0, false;
    while listings < patience
      invariant Ready(cfg, w0, aws.world) && LeavesNetwork(start, aws.world) && !ended && listings <= patience
      invariant unlocked ==> Unlocked(aws.world, bucket) && listings + |Versions(aws.world, bucket)| <= n
      invariant unlocked && aws.reliable && Versions(aws.world, bucket) != {} ==>
                  500 * listings + |Versions(aws.world, bucket)| == n
      invariant unlocked && aws.reliable ==> 500 * listings < n + 500
      invariant unlocked && aws.reliable && Versions(aws.world, bucket) == {} ==> n <= 500 * listings
      invariant !unlocked ==> !Unlocked(aws.world, bucket)
    {
      ended := PurgePage(aws, cfg, w0, bucket);
      listings := listings + 1;
      if ended { break; }
    }
  }

  /** One round of the purge: list a page and delete what is on it. */
  method PurgePage(aws: Account, ghost cfg: SweepConfig, ghost w0: World, bucket: string) returns (over: bool)
    requires Ready(cfg, w0, aws.world) && SweptBucket(cfg, bucket)
    modifies aws
    ensures Ready(cfg, w0, aws.world) && LeavesNetwork(old(aws.world), aws.world)
    ensures Unlocked(aws.world, bucket) <== Unlocked(old(aws.world), bucket)
    ensures !Unlocked(old(aws.world), bucket) ==> !Unlocked(aws.world, bucket)
    ensures aws.reliable ==> (over <==> Versions(old(aws.world), bucket) == {})
    ensures over && aws.reliable ==> Versions(aws.world, bucket) == {}
    ensures !over && Unlocked(old(aws.world), bucket) ==>
              |Versions(aws.world, bucket)| < |Versions(old(aws.world), bucket)|
    ensures !over && Unlocked(old(aws.world), bucket) && aws.reliable && Versions(aws.world, bucket) != {} ==>
              |Versions(aws.world, bucket)| == |Versions(old(aws.world), bucket)| - 500
    ensures !over && Unlocked(old(aws.world), bucket) ==>
              |Versions(old(aws.world), bucket)| <= |Versions(aws.world, bucket)| + 500
  {
    ghost var before := aws.world;
    var page := ListVersions(aws, bucket);
    if page == [] { return true; }
    var ok := DeleteObjects(aws, cfg, w0, bucket, page);
    LocksRemain(before, aws.world, bucket);
    if !ok { return true; }
    if Unlocked(before, bucket) { UnlockedPage(before, aws.world, bucket, page); }
    over := false;
  }

  lemma LocksRemain(w: World, w': World, bucket: string)
    requires w'.live <= w.live && w'.locked == w.locked
    requires forall r :: r in w.live && r in w.locked ==> r in w'.live
    ensures Unlocked(w', bucket) <==> Unlocked(w, bucket)
  {
    forall r | r in w.locked ensures r in Versions(w, bucket) <==> r in Versions(w', bucket) {}
    if Unlocked(w', bucket) {
      forall r | r in Versions(w, bucket) ensures r !in w.locked { assert r in w.locked ==> r in Versions(w', bucket); }
    }
  }

  lemma UnlockedPage(w: World, w': World, bucket: string, page: seq<Resource>)
    requires forall r :: r in page ==> r in Versions(w, bucket) && r !in w.locked
    requires forall i, j :: 0 <= i < j < |page| ==> page[i] != page[j]
    requires Purged(w, w', bucket, page)
    ensures |Versions(w', bucket)| == |Versions(w, bucket)| - |page|
  {
    PageCount(page, Versions(w, bucket));
    assert (set r | r in page && r !in w.locked) == set r | r in page;
  }

  lemma PageCount(page: seq<Resource>, all: set<Resource>)
    requires forall r :: r in page ==> r in all
    requires forall i, j :: 0 <= i < j < |page| ==> page[i] != page[j]
    ensures |all - set r | r in page| == |all| - |page|
  {
    var listed := set r | r in page;
    ElementCount(page);
    assert all == (all - listed) + listed;
  }

  /** Successive listings of a purge that meets no other fault than the refusal of the `locked`
      entries of its pages. */
  ghost predicate Listings(rounds: seq<set<Resource>>, locked: set<Resource>) {
    forall i {:trigger Refused(rounds, locked, i)} :: 0 < i < |rounds| ==> Refused(rounds, locked, i)
  }

  ghost predicate Refused(rounds: seq<set<Resource>>, locked: set<Resource>, i: nat)
    requires 0 < i < |rounds|
  {
    exists page :: page <= rounds[i - 1] && page != {} && rounds[i] == rounds[i - 1] - (page - locked)
  }

  /** Each round of an unlocked purge costs a version; a locked version stays. */
  lemma {:induction false} RoundsShrink(rounds: seq<set<Resource>>, locked: set<Resource>, n: nat)
    requires Listings(rounds, locked) && n < |rounds|
    ensures rounds[n] <= rounds[0] && rounds[n] * locked == rounds[0] * locked
    ensures rounds[0] * locked == {} ==> |rounds[n]| + n <= |rounds[0]|
  {
    if n > 0 {
      RoundsShrink(rounds, locked, n - 1);
      assert Refused(rounds, locked, n);
      var page :| page <= rounds[n - 1] && page != {} && rounds[n] == rounds[n - 1] - (page - locked);
      assert page * locked <= rounds[n - 1] * locked;
      if rounds[0] * locked == {} {
        var x :| x in page;
        assert x in rounds[n - 1] && x !in page * locked;
        SubsetIsSmaller(rounds[n], rounds[n - 1] - {x});
      }
    }
  }

  /** A purge of `all` can come to `n` listings that are not empty. */
  ghost predicate CanLast(all: set<Resource>, locked: set<Resource>, n: nat) {
    exists rounds :: |rounds| == n + 1 && rounds[0] == all && Listings(rounds, locked)
  }

  lemma LocksLast(all: set<Resource>, locked: set<Resource>, n: nat)
    requires all * locked != {}
    ensures CanLast(all, locked, n)
  {
    var x :| x in all * locked;
    var rounds := seq(n + 1, _ => all);
    forall i | 0 < i < |rounds| ensures Refused(rounds, locked, i) {
      var page := {x};
      assert page - locked == {} && rounds[i - 1] == all && rounds[i] == all;
      assert page <= rounds[i - 1] && page != {} && rounds[i] == rounds[i - 1] - (page - locked);
    }
    assert Listings(rounds, locked);
  }

  lemma WithoutLocksItEnds(all: set<Resource>, locked: set<Resource>, n: nat)
    requires CanLast(all, locked, n) && n > |all|
    ensures all * locked != {}
  {
    var rounds :| |rounds| == n + 1 && rounds[0] == all && Listings(rounds, locked);
    RoundsShrink(rounds, locked, n);
  }

  /** A purge can go on for more rounds than there are versions exactly when one of them is
      locked, and then for any number of rounds. */
  lemma PurgeStallsIff(all: set<Resource>, locked: set<Resource>)
    ensures CanLast(all, locked, |all| + 1) <==> all * locked != {}
    ensures (forall n: nat :: CanLast(all, locked, n)) <==> all * locked != {}
  {
    if all * locked != {} {
      forall n: nat ensures CanLast(all, locked, n) { LocksLast(all, locked, n); }
    }
    if CanLast(all, locked, |all| + 1) { WithoutLocksItEnds(all, locked, |all| + 1); }
  }

  /** Purge every version, then delete the bucket; a purge that does not end keeps the run. */
  method CleanupS3Bucket(aws: Account, ghost cfg: SweepConfig, ghost w0: World, bucket: string, patience: nat)
    returns (ended: bool)
    requires Ready(cfg, w0, aws.world) && SweptBucket(cfg, bucket)
    modifies aws
    ensures Ready(cfg, w0, aws.world) && LeavesNetwork(old(aws.world), aws.world)
    ensures Unlocked(old(aws.world), bucket) && patience > |Versions(old(aws.world), bucket)| ==> ended
    ensures aws.reliable && !Unlocked(old(aws.world), bucket) ==> !ended
    ensures aws.reliable && ended ==> Versions(aws.world, bucket) == {}
    ensures aws.reliable && ended && Bucket(bucket) in aws.world.live ==> Stuck(cfg, w0, Bucket(bucket))
  {
    var head := aws.Probe(Bucket(bucket) in aws.world.live);
    if !head {
      if aws.reliable { AbsentBucketIsEmpty(aws.world, bucket); }
      return true;
    }
    var listings;
    ended, listings := PurgeVersions(aws, cfg, w0, bucket, patience);
    if !ended { return; }
    ghost var purged := aws.world;
    DeleteOne(aws, cfg, w0, Bucket(bucket));
    if aws.reliable { BucketAnswered(cfg, w0, purged, aws.world, bucket); }
  }

  lemma AbsentBucketIsEmpty(w: World, bucket: string)
    requires Tied(w) && Bucket(bucket) !in w.live
    ensures Versions(w, bucket) == {}
  {
    assert forall r :: IsVersion(bucket, r) ==> Parent(r) == Inside(Bucket(bucket));
  }

  lemma BucketAnswered(cfg: SweepConfig, w0: World, w: World, w': World, bucket: string)
    requires Ready(cfg, w0, w) && Versions(w, bucket) == {} && Pending(w') && w'.live <= w.live
    requires Answered(w, Bucket(bucket), w')
    ensures Versions(w', bucket) == {} && (Bucket(bucket) in w'.live ==> Stuck(cfg, w0, Bucket(bucket)))
  {
    assert forall r :: r in Versions(w', bucket) ==> r in Versions(w, bucket);
    if Bucket(bucket) in w'.live { EmptyBucketIsStuck(cfg, w0, w, bucket); }
  }

  lemma EmptyBucketIsStuck(cfg: SweepConfig, w0: World, w: World, bucket: string)
    requires Ready(cfg, w0, w) && Versions(w, bucket) == {} && Blocked(w, Bucket(bucket))
    ensures Stuck(cfg, w0, Bucket(bucket))
  {
    forall e | Blocks(w, e, Bucket(bucket))
      ensures Lasting(cfg, e) && (Swept(cfg, w0, e.blocker) ==> Stuck(cfg, w0, e.blocker))
    {
      assert Typed(e) && e.blocker !in Versions(w, bucket);
    }
    ObstaclesMakeStuck(cfg, w0, w, Bucket(bucket));
  }
}
