/** The reach of the orphan sweep, field by field: what a run may remove is what the
    configuration names, and what the configuration names is what a fault-free run removes
    (bootstrap-rs/src/teardown.rs, step 4). Nothing here is said through the scope predicates. */
module SweepReach {
  import opened AwsWorld
  import opened Basics
  import opened SweepScope
  import Naming
  import SweepRun

  // ── Only what is named goes ────────────────────────────────────────────────

  /** Whatever fails: a network resource that a run removes, or whose deletion it starts, lies in
      a VPC of a target's region that carries the target's tag. */
  lemma LostNetworkIsTagged(cfg: SweepConfig, w: World, w': World, r: Resource)
    requires Framed(cfg, w, w') && r in w.live
    requires r.Vpc? || r.Nat? || r.Subnet? || r.RouteTable? || r.SecurityGroup?
    requires r !in w'.live || (r in w'.deleting && r !in w.deleting)
    ensures exists t :: t in cfg.targets && r.vpc.region == t.region && t.clusterName in r.vpc.owned
    ensures r !in w'.live && ((r.RouteTable? && r.main) || (r.SecurityGroup? && r.isDefault)) ==> Vpc(r.vpc) !in w'.live
  {
    assert Scoped(cfg, w, r);
    var t :| t in cfg.targets && OwnsVpc(t, r.vpc);
  }

  /** A gateway goes only from a tagged VPC, an address only with the tag itself and while a VPC
      with the same tag is there, a profile only from a role that goes. */
  lemma LostLooseEndIsNamed(cfg: SweepConfig, w: World, w': World, r: Resource)
    requires Framed(cfg, w, w') && r in w.live && r !in w'.live
    ensures r.Igw? ==> exists t: Target, v: VpcInfo ::
      t in cfg.targets && v.region == t.region && t.clusterName in v.owned &&
      Vpc(v) in w.live && Edge(r, Vpc(v), Attachment) in w.edges
    ensures r.Eip? ==> exists t: Target, v: VpcInfo ::
      t in cfg.targets && r.region == t.region && t.clusterName in r.owned &&
      Vpc(v) in w.live && v.region == t.region && t.clusterName in v.owned
    ensures r.InstanceProfile? ==> exists role ::
      IamRole(role) in w.live && Edge(r, IamRole(role), Attachment) in w.edges &&
      (role in cfg.globalRoles || (role != "None" && exists t :: t in cfg.targets && t.clusterName <= role))
  {
    assert Scoped(cfg, w, r);
    if r.Igw? {
      var v :| SweptVpc(cfg, v) && AttachedTo(w, r, Vpc(v));
      var t :| t in cfg.targets && OwnsVpc(t, v);
    } else if r.Eip? {
      var t :| t in cfg.targets && OwnsEip(t, r) && HasVpc(w, t);
      var v :| Vpc(v) in w.live && OwnsVpc(t, v);
    } else if r.InstanceProfile? {
      var role :| SweptRole(cfg, role) && AttachedTo(w, r, IamRole(role));
    }
  }

  /** Clusters, databases and stacks go only by their configured name and region. */
  lemma LostRegionalIsNamed(cfg: SweepConfig, w: World, w': World, r: Resource)
    requires Framed(cfg, w, w') && r in w.live
    requires r !in w'.live || (r in w'.deleting && r !in w.deleting)
    ensures r.EksCluster? || r.Nodegroup? || r.PodAssociation? ==>
              exists t :: t in cfg.targets && t.region == r.region && t.eksCluster == r.cluster
    ensures r.RdsInstance? ==> exists t :: t in cfg.targets && t.region == r.region && t.rdsInstance == r.id
    ensures r.CfnStack? ==> cfg.cfnStack == Some(r.stack) && exists t :: t in cfg.targets && t.region == r.region
  {
    assert Scoped(cfg, w, r);
  }

  /** Buckets and identities go only by their configured name; whatever no cleanup unit knows
      never goes. */
  lemma LostGlobalIsNamed(cfg: SweepConfig, w: World, w': World, r: Resource)
    requires Framed(cfg, w, w') && r in w.live && r !in w'.live
    ensures r.Bucket? || r.ObjectVersion? ==>
              cfg.bucketPattern.Some? && cfg.account != "" &&
              (exists t :: t in cfg.targets &&
                           r.bucket == Naming.Replace(
                             Naming.Replace(cfg.bucketPattern.value, "{account_id}", cfg.account),
                             "{cluster_name}", t.clusterName))
    ensures r.IamRole? || r.AttachedPolicy? || r.InlinePolicy? ==>
              r.role in cfg.globalRoles || (r.role != "None" && exists t :: t in cfg.targets && t.clusterName <= r.role)
    ensures r.IamUser? || r.LoginProfile? || r.AccessKey? || r.UserPolicy? ==> r.user in cfg.globalUsers
    ensures !r.Foreign?
  {
    assert Scoped(cfg, w, r);
  }

  /** Rules go only from groups of tagged VPCs, and never from a default group; attachments go
      only from tagged VPCs and named roles; holds stay. */
  lemma CutIsNamed(cfg: SweepConfig, w: World, w': World, e: Edge)
    requires Valid(w) && Framed(cfg, w, w') && e in w.edges && e !in w'.edges
    ensures !e.link.Holds?
    ensures e.link.Ingress? || e.link.Egress? ==>
              e.blocker.SecurityGroup? && !e.blocker.isDefault &&
              exists t :: t in cfg.targets && e.blocker.vpc.region == t.region && t.clusterName in e.blocker.vpc.owned
    ensures e.blocker.Igw? ==>
              e.blocked.Vpc? &&
              exists t :: t in cfg.targets && e.blocked.vpc.region == t.region && t.clusterName in e.blocked.vpc.owned
    ensures e.blocker.InstanceProfile? ==>
              e.blocked.IamRole? &&
              (e.blocked.role in cfg.globalRoles ||
               (e.blocked.role != "None" && exists t :: t in cfg.targets && t.clusterName <= e.blocked.role))
  {
    assert Typed(e) && MayCut(cfg, w, e);
    if e.blocker.Igw? {
      var v :| SweptVpc(cfg, v) && AttachedTo(w, e.blocker, Vpc(v));
      assert Edge(e.blocker, Vpc(v), Attachment) == e;
    } else if e.blocker.InstanceProfile? {
      var role :| SweptRole(cfg, role) && AttachedTo(w, e.blocker, IamRole(role));
      assert Edge(e.blocker, IamRole(role), Attachment) == e;
    }
  }

  /** No run touches a VPC without a configured cluster's tag, the untagged default VPC above
      all: it stays, with all that is in it and with the rules of its groups. */
  lemma UntaggedNetworkIsKept(cfg: SweepConfig, w: World, w': World, v: VpcInfo, r: Resource)
    requires Framed(cfg, w, w') && r in w.live
    requires forall t :: t in cfg.targets ==> !(v.region == t.region && t.clusterName in v.owned)
    requires r == Vpc(v) || ((r.Nat? || r.Subnet? || r.RouteTable? || r.SecurityGroup?) && r.vpc == v)
    ensures r in w'.live && (r in w'.deleting ==> r in w.deleting)
    ensures forall e :: e in w.edges && e.blocker == r && !e.link.Attachment? ==> e in w'.edges
  {
    assert !SweptVpc(cfg, v);
    assert !Scoped(cfg, w, r);
    forall e | e in w.edges && e.blocker == r && !e.link.Attachment? ensures e in w'.edges {
      assert !MayCut(cfg, w, e);
    }
  }

  /** No run releases an address without a configured cluster's tag. */
  lemma UntaggedAddressIsKept(cfg: SweepConfig, w: World, w': World, region: string, id: string, owned: set<string>)
    requires Framed(cfg, w, w') && Eip(region, id, owned) in w.live
    requires forall t :: t in cfg.targets ==> !(region == t.region && t.clusterName in owned)
    ensures Eip(region, id, owned) in w'.live
  {
    if Eip(region, id, owned) !in w'.live { LostLooseEndIsNamed(cfg, w, w', Eip(region, id, owned)); }
  }

  /** What faulty runs put out of reach: an address with no VPC of its tag left, a gateway that
      was detached from the tagged VPC it hung on, a profile that lost the named role it carried. */
  lemma StrandedLostItsWay(cfg: SweepConfig, w: World, w': World, r: Resource)
    requires Valid(w) && Bound(cfg, w, w') && r in Stranded(cfg, w, w')
    ensures r in w.live && r in w'.live && (r.Eip? || r.Igw? || r.InstanceProfile?)
    ensures r.Eip? ==> forall t: Target, v: VpcInfo ::
      t in cfg.targets && t.region == r.region && t.clusterName in r.owned && Vpc(v) in w'.live ==>
        !(v.region == t.region && t.clusterName in v.owned)
    ensures r.Igw? ==> exists t: Target, v: VpcInfo ::
      t in cfg.targets && v.region == t.region && t.clusterName in v.owned &&
      Edge(r, Vpc(v), Attachment) in w.edges && Edge(r, Vpc(v), Attachment) !in w'.edges
    ensures r.InstanceProfile? ==> exists role ::
      (role in cfg.globalRoles || (role != "None" && exists t :: t in cfg.targets && t.clusterName <= role)) &&
      Edge(r, IamRole(role), Attachment) in w.edges && Edge(r, IamRole(role), Attachment) !in w'.edges
  {
    if r.Eip? {
      forall t: Target, v: VpcInfo |
        t in cfg.targets && t.region == r.region && t.clusterName in r.owned && Vpc(v) in w'.live
        ensures !(v.region == t.region && t.clusterName in v.owned)
      {
        assert OwnsEip(t, r) && !HasVpc(w', t);
        assert !OwnsVpc(t, v);
      }
    } else if r.Igw? {
      var v :| SweptVpc(cfg, v) && AttachedTo(w, r, Vpc(v));
      var t :| t in cfg.targets && OwnsVpc(t, v);
      assert !AttachedTo(w', r, Vpc(v));
    } else {
      var role :| SweptRole(cfg, role) && AttachedTo(w, r, IamRole(role));
      assert !AttachedTo(w', r, IamRole(role));
    }
  }

  /** A run is kept from ending exactly by a locked version in the bucket of some target. */
  lemma LockedVersionIsNamed(cfg: SweepConfig, w: World)
    requires LocksVersions(w)
    ensures !NothingLocked(cfg, w) <==>
            cfg.bucketPattern.Some? && cfg.account != "" &&
            exists r, t :: r in w.locked && r in w.live && t in cfg.targets &&
                           r.bucket == Naming.Replace(
                             Naming.Replace(cfg.bucketPattern.value, "{account_id}", cfg.account),
                             "{cluster_name}", t.clusterName)
  {
    if !NothingLocked(cfg, w) {
      var r :| r in w.locked && r in w.live && Scoped(cfg, w, r);
      assert SweptBucket(cfg, r.bucket);
    }
  }

  // ── All that is named goes ─────────────────────────────────────────────────

  /** A run that met no fault and came to the end of the first `phases` phases, on an account where
      nothing unnamed is in the way. Four phases, 4a to 4e, are what every such run gets through;
      all eight are what one that ends gets through. */
  ghost predicate Unhindered(cfg: SweepConfig, w: World, u: World, phases: nat) {
    Valid(w) && InOrder(cfg, w) && SweepRun.Unobstructed(cfg, w) && Bound(cfg, w, u) && AllSettled(cfg, w, u, phases)
  }

  lemma NamedIsGone(cfg: SweepConfig, w: World, u: World, phases: nat, r: Resource)
    requires Unhindered(cfg, w, u, phases) && Swept(cfg, w, r) && r in u.live && Phase(r) < phases
    ensures r in u.deleting && (r.RdsInstance? || r.CfnStack?)
  {
    assert Settled(cfg, w, u, Phase(r));
    SweepRun.NothingIsStuck(cfg, w, r);
  }

  lemma TaggedVpcIsGone(cfg: SweepConfig, w: World, u: World, t: Target, v: VpcInfo)
    requires Unhindered(cfg, w, u, 4) && t in cfg.targets && v.region == t.region && t.clusterName in v.owned
    ensures Vpc(v) !in u.live
  {
    if Vpc(v) in u.live {
      assert OwnsVpc(t, v);
      NamedIsGone(cfg, w, u, 4, Vpc(v));
    }
  }

  lemma InsideLiveVpc(u: World, r: Resource)
    requires Tied(u) && r in u.live
    requires r.Vpc? || r.Nat? || r.Subnet? || r.RouteTable? || r.SecurityGroup?
    ensures Vpc(r.vpc) in u.live
  {
    assert r.Vpc? || Parent(r) == Inside(Vpc(r.vpc));
  }

  /** No VPC with the target's tag is left in its region, and nothing of any such VPC. */
  lemma TaggedNetworkIsGone(cfg: SweepConfig, w: World, u: World, t: Target, r: Resource)
    requires Unhindered(cfg, w, u, 4) && t in cfg.targets && r in u.live
    requires r.Vpc? || r.Nat? || r.Subnet? || r.RouteTable? || r.SecurityGroup?
    ensures !(r.vpc.region == t.region && t.clusterName in r.vpc.owned)
  {
    InsideLiveVpc(u, r);
    if r.vpc.region == t.region && t.clusterName in r.vpc.owned { TaggedVpcIsGone(cfg, w, u, t, r.vpc); }
  }

  /** The gateways of those VPCs are gone, and the addresses with the target's tag if there was
      such a VPC. */
  lemma LooseEndsAreGone(cfg: SweepConfig, w: World, u: World, t: Target, v: VpcInfo, r: Resource)
    requires Unhindered(cfg, w, u, 4) && t in cfg.targets && r in u.live
    requires Vpc(v) in w.live && v.region == t.region && t.clusterName in v.owned
    ensures r.Igw? ==> Edge(r, Vpc(v), Attachment) !in w.edges
    ensures r.Eip? ==> !(r.region == t.region && t.clusterName in r.owned)
  {
    assert OwnsVpc(t, v);
    if r.Igw? && Edge(r, Vpc(v), Attachment) in w.edges {
      assert AttachedTo(w, r, Vpc(v));
      NamedIsGone(cfg, w, u, 4, r);
    }
    if r.Eip? && r.region == t.region && t.clusterName in r.owned {
      assert OwnsEip(t, r);
      NamedIsGone(cfg, w, u, 4, r);
    }
  }

  /** The target's cluster is gone with its nodegroups and associations; its database is at least
      being deleted. */
  lemma NamedClusterIsGone(cfg: SweepConfig, w: World, u: World, t: Target, r: Resource)
    requires Unhindered(cfg, w, u, 4) && t in cfg.targets && r in u.live
    ensures r.EksCluster? || r.Nodegroup? || r.PodAssociation? ==> !(r.region == t.region && r.cluster == t.eksCluster)
    ensures r == RdsInstance(t.region, t.rdsInstance) ==> r in u.deleting
  {
    if Swept(cfg, w, r) && Phase(r) < 4 { NamedIsGone(cfg, w, u, 4, r); }
  }

  /** The configured stack is at least being deleted in the target's region. */
  lemma NamedStackIsGoing(cfg: SweepConfig, w: World, u: World, t: Target, stack: string)
    requires Unhindered(cfg, w, u, 8) && t in cfg.targets && cfg.cfnStack == Some(stack)
    ensures CfnStack(t.region, stack) in u.live ==> CfnStack(t.region, stack) in u.deleting
  {
    var r := CfnStack(t.region, stack);
    if r in u.live { NamedIsGone(cfg, w, u, 8, r); }
  }

  /** The target's bucket is gone with every version in it. */
  lemma NamedBucketIsGone(cfg: SweepConfig, w: World, u: World, t: Target, r: Resource)
    requires Unhindered(cfg, w, u, 8) && t in cfg.targets && r in u.live && (r.Bucket? || r.ObjectVersion?)
    requires cfg.bucketPattern.Some? && cfg.account != ""
    ensures r.bucket != Naming.Replace(Naming.Replace(cfg.bucketPattern.value, "{account_id}", cfg.account),
                                       "{cluster_name}", t.clusterName)
  {
    if r.bucket == Naming.BucketName(cfg.bucketPattern.value, cfg.account, t.clusterName) {
      NamedIsGone(cfg, w, u, 8, r);
    }
  }

  /** The configured roles and the roles with the target's prefix are gone, with their policies. */
  lemma NamedRoleIsGone(cfg: SweepConfig, w: World, u: World, t: Target, r: Resource)
    requires Unhindered(cfg, w, u, 8) && t in cfg.targets && r in u.live
    requires r.IamRole? || r.AttachedPolicy? || r.InlinePolicy?
    ensures r.role !in cfg.globalRoles && (t.clusterName <= r.role ==> r.role == "None")
  {
    if SweptRole(cfg, r.role) { NamedIsGone(cfg, w, u, 8, r); }
  }

  /** The configured users are gone, with all that belonged to them. */
  lemma NamedUserIsGone(cfg: SweepConfig, w: World, u: World, r: Resource)
    requires Unhindered(cfg, w, u, 8) && r in u.live
    requires r.IamUser? || r.LoginProfile? || r.AccessKey? || r.UserPolicy?
    ensures r.user !in cfg.globalUsers
  {
    if r.user in cfg.globalUsers { NamedIsGone(cfg, w, u, 8, r); }
  }

  /** The instance profiles of those roles are gone. */
  lemma NamedProfileIsGone(cfg: SweepConfig, w: World, u: World, t: Target, role: string, r: Resource)
    requires Unhindered(cfg, w, u, 8) && t in cfg.targets && r in u.live && r.InstanceProfile?
    requires IamRole(role) in w.live && (role in cfg.globalRoles || (role != "None" && t.clusterName <= role))
    ensures Edge(r, IamRole(role), Attachment) !in w.edges
  {
    if Edge(r, IamRole(role), Attachment) in w.edges {
      assert AttachedTo(w, r, IamRole(role));
      NamedIsGone(cfg, w, u, 8, r);
    }
  }

  /** Whatever is in the way of other resources: a named one with nothing in its own way goes. */
  lemma UnblockedIsGone(cfg: SweepConfig, w: World, u: World, r: Resource)
    requires CleanRun(cfg, w, u) && Swept(cfg, w, r) && Covered(cfg, w, r) && r in u.live
    requires forall e :: e in w.edges && e.blocked == r && e.blocker != r ==> e.blocker !in w.live
    ensures r in u.deleting && (r.RdsInstance? || r.CfnStack?)
  {
    CleanMeansDisposed(cfg, w, u, r);
  }

  /** The premises hold of an account with one target and at most a thousand roles, in which no
      rule names a group of another VPC and only what the sweep deletes is in the way. */
  lemma LoneTargetIsUnhindered(cfg: SweepConfig, w: World, u: World, phases: nat)
    requires Valid(w) && |cfg.targets| == 1 && Bound(cfg, w, u) && AllSettled(cfg, w, u, phases)
    requires |set r | r in w.live && r.IamRole?| <= 1000
    requires forall e :: e in w.edges && e.blocker.SecurityGroup? && e.blocked.SecurityGroup? ==>
                           e.blocker.vpc == e.blocked.vpc
    requires forall e :: e in w.edges && e.blocker in w.live ==> Swept(cfg, w, e.blocker)
    ensures Unhindered(cfg, w, u, phases)
  {
    assert Roles(w) == set r | r in w.live && r.IamRole?;
  }
}
