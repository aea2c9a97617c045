/** What the orphan sweep is responsible for, what it cannot remove, and what a run of it may
    do to an AWS account whatever fails (bootstrap-rs/src/teardown.rs, step 4). */
module SweepScope {
  import opened AwsWorld
  import opened Basics
  import Naming

  datatype Target = Target(region: string, clusterName: string, eksCluster: string, rdsInstance: string)

  datatype SweepConfig = SweepConfig(
    targets: seq<Target>, bucketPattern: Option<string>, account: string,
    globalRoles: seq<string>, globalUsers: seq<string>, cfnStack: Option<string>)

  predicate OwnsVpc(t: Target, v: VpcInfo) {
    v.region == t.region && t.clusterName in v.owned
  }

  ghost predicate SweptVpc(cfg: SweepConfig, v: VpcInfo) {
    exists t :: t in cfg.targets && OwnsVpc(t, v)
  }

  predicate OwnsEip(t: Target, r: Resource) {
    r.Eip? && r.region == t.region && t.clusterName in r.owned
  }

  ghost predicate HasVpc(w: World, t: Target) {
    exists v :: Vpc(v) in w.live && OwnsVpc(t, v)
  }

  /** An address is looked for only while its target still has a tagged VPC. */
  ghost predicate SweptEip(cfg: SweepConfig, w: World, r: Resource) {
    exists t :: t in cfg.targets && OwnsEip(t, r) && HasVpc(w, t)
  }

  ghost predicate AttachedTo(w: World, a: Resource, b: Resource) {
    b in w.live && Edge(a, b, Attachment) in w.edges
  }

  ghost predicate SweptIgw(cfg: SweepConfig, w: World, r: Resource) {
    exists v :: SweptVpc(cfg, v) && AttachedTo(w, r, Vpc(v))
  }

  ghost predicate SweptEks(cfg: SweepConfig, region: string, cluster: string) {
    exists t :: t in cfg.targets && t.region == region && t.eksCluster == cluster
  }

  ghost predicate SweptRole(cfg: SweepConfig, role: string) {
    role in cfg.globalRoles || (role != "None" && exists t :: t in cfg.targets && t.clusterName <= role)
  }

  ghost predicate SweptProfile(cfg: SweepConfig, w: World, r: Resource) {
    exists role :: SweptRole(cfg, role) && AttachedTo(w, r, IamRole(role))
  }

  ghost predicate SweptBucket(cfg: SweepConfig, bucket: string) {
    cfg.bucketPattern.Some? && cfg.account != "" &&
    exists t :: t in cfg.targets && bucket == Naming.BucketName(cfg.bucketPattern.value, cfg.account, t.clusterName)
  }

  /** The sweep is responsible for `r`. */
  ghost predicate Scoped(cfg: SweepConfig, w: World, r: Resource) {
    match r
    case PodAssociation(region, cluster, _) => SweptEks(cfg, region, cluster)
    case Nodegroup(region, cluster, _) => SweptEks(cfg, region, cluster)
    case EksCluster(region, cluster) => SweptEks(cfg, region, cluster)
    case RdsInstance(region, id) => exists t :: t in cfg.targets && t.region == region && t.rdsInstance == id
    case Vpc(v) => SweptVpc(cfg, v)
    case Nat(v, _) => SweptVpc(cfg, v)
    case Subnet(v, _) => SweptVpc(cfg, v)
    case RouteTable(v, _, _) => SweptVpc(cfg, v)
    case SecurityGroup(v, _, _) => SweptVpc(cfg, v)
    case Igw(_, _) => SweptIgw(cfg, w, r)
    case Eip(_, _, _) => SweptEip(cfg, w, r)
    case Bucket(bucket) => SweptBucket(cfg, bucket)
    case ObjectVersion(bucket, _, _) => SweptBucket(cfg, bucket)
    case IamRole(role) => SweptRole(cfg, role)
    case AttachedPolicy(role, _) => SweptRole(cfg, role)
    case InlinePolicy(role, _) => SweptRole(cfg, role)
    case InstanceProfile(_) => SweptProfile(cfg, w, r)
    case IamUser(user) => user in cfg.globalUsers
    case LoginProfile(user) => user in cfg.globalUsers
    case AccessKey(user, _) => user in cfg.globalUsers
    case UserPolicy(user, _) => user in cfg.globalUsers
    case CfnStack(region, stack) =>
      cfg.cfnStack == Some(stack) && exists t :: t in cfg.targets && t.region == region
    case Foreign(_) => false
  }

  /** The sweep asks AWS to delete `r`. */
  ghost predicate Swept(cfg: SweepConfig, w: World, r: Resource) {
    Scoped(cfg, w, r) && Deletable(r)
  }

  /** A group whose rules the sweep strips. */
  ghost predicate Stripped(cfg: SweepConfig, g: Resource) {
    g.SecurityGroup? && !g.isDefault && SweptVpc(cfg, g.vpc)
  }

  // ── What the sweep cannot remove ───────────────────────────────────────────

  /** The order in which the sweep reaches the kinds. */
  function Rank(r: Resource): nat {
    match r
    case Nodegroup(_, _, _) => 1
    case EksCluster(_, _) => 2
    case Nat(_, _) => 3
    case Eip(_, _, _) => 4
    case Subnet(_, _) => 5
    case Igw(_, _) => 6
    case RouteTable(_, _, _) => 7
    case SecurityGroup(_, _, _) => 8
    case Vpc(_) => 9
    case Bucket(_) => 9
    case IamRole(_) => 9
    case IamUser(_) => 9
    case _ => 0
  }

  /** An obstacle the sweep never clears by itself: everything except the rules it strips and
      the VPC (role) side of an attachment it dissolves. */
  ghost predicate Lasting(cfg: SweepConfig, e: Edge) {
    match e.link
    case Holds => true
    case Attachment => e.blocker.Igw? || e.blocker.InstanceProfile?
    case _ => !Stripped(cfg, e.blocker)
  }

  /** `r` is out of reach: a lasting obstacle leads to it from something the sweep does not
      delete, directly or through other resources that are out of reach. */
  ghost predicate Stuck(cfg: SweepConfig, w: World, r: Resource)
    decreases Rank(r)
  {
    exists e :: Blocks(w, e, r) && Lasting(cfg, e) &&
      (Swept(cfg, w, e.blocker) ==> Rank(e.blocker) < Rank(r) && Stuck(cfg, w, e.blocker))
  }

  /** The sweep gets rid of `r`: by deleting it, or with the VPC it is a built-in part of. */
  ghost predicate Clears(cfg: SweepConfig, w: World, r: Resource) {
    if Deletable(r) then Scoped(cfg, w, r) && !Stuck(cfg, w, r)
    else SweptVpc(cfg, r.vpc) && !Stuck(cfg, w, Vpc(r.vpc))
  }

  // ── Premises ───────────────────────────────────────────────────────────────

  /** Target number `i` is the first one whose tag `v` carries: it is the one that cleans `v` up. */
  predicate FirstOwner(cfg: SweepConfig, v: VpcInfo, i: nat) {
    i < |cfg.targets| && OwnsVpc(cfg.targets[i], v) && forall k :: 0 <= k < i ==> !OwnsVpc(cfg.targets[k], v)
  }

  /** The cleanup of `a` comes before every cleanup of `b`. */
  ghost predicate SweptBefore(cfg: SweepConfig, a: VpcInfo, b: VpcInfo) {
    exists i: nat :: FirstOwner(cfg, a, i) && forall k :: 0 <= k <= i ==> !OwnsVpc(cfg.targets[k], b)
  }

  /** Whoever shares a VPC with an earlier target has no address that the other does not have. */
  ghost predicate SharersShareAddresses(cfg: SweepConfig, w: World) {
    forall i, k, v, r :: (0 <= i < k < |cfg.targets| && Vpc(v) in w.live && r in w.live && OwnsEip(cfg.targets[k], r) &&
                          OwnsVpc(cfg.targets[i], v) && OwnsVpc(cfg.targets[k], v)) ==> OwnsEip(cfg.targets[i], r)
  }

  /** A swept NAT gateway goes in time for its address: the address belongs to the target that
      cleans the gateway up, or to no earlier one. */
  ghost predicate NatsGoInTime(cfg: SweepConfig, w: World) {
    forall e, i: nat, k: nat ::
      (e in w.edges && e.blocker.Nat? && e.blocked.Eip? && e.blocker in w.live && e.blocked in w.live &&
       FirstOwner(cfg, e.blocker.vpc, i) && k < i && OwnsEip(cfg.targets[k], e.blocked))
        ==> OwnsEip(cfg.targets[i], e.blocked)
  }

  /** A live rule of a group of one swept VPC that names a group of another. */
  ghost predicate Crosses(cfg: SweepConfig, w: World, e: Edge) {
    && e in w.edges && (e.link.Ingress? || e.link.Egress?) && e.blocker in w.live && e.blocked in w.live
    && e.blocker.SecurityGroup? && e.blocked.SecurityGroup? && e.blocker.vpc != e.blocked.vpc
    && SweptVpc(cfg, e.blocker.vpc) && SweptVpc(cfg, e.blocked.vpc)
  }

  /** A rule that crosses from one swept VPC to another is stripped before it is in the way. */
  ghost predicate RulesGoInTime(cfg: SweepConfig, w: World) {
    forall e :: Crosses(cfg, w, e) && !e.blocker.isDefault ==> SweptBefore(cfg, e.blocker.vpc, e.blocked.vpc)
  }

  /** No default group of a swept VPC, whose rules stay until it goes, names a group of another. */
  ghost predicate DefaultsStayHome(cfg: SweepConfig, w: World) {
    forall e :: Crosses(cfg, w, e) ==> !e.blocker.isDefault
  }

  const ROLE_PAGE: nat := 1000

  function Roles(w: World): set<Resource> { set r | r in w.live && r.IamRole? }

  /** The role listing is cut off after a thousand roles. */
  predicate FewRoles(w: World) { |Roles(w)| <= ROLE_PAGE }

  /** What the sweep needs to hold of the account in order to get at `r`. */
  ghost predicate Covered(cfg: SweepConfig, w: World, r: Resource) {
    match r
    case Eip(_, _, _) => SharersShareAddresses(cfg, w) && NatsGoInTime(cfg, w)
    case SecurityGroup(_, _, _) => RulesGoInTime(cfg, w)
    case Vpc(_) => RulesGoInTime(cfg, w)
    case IamRole(role) => FewRoles(w) || role in cfg.globalRoles
    case AttachedPolicy(role, _) => FewRoles(w) || role in cfg.globalRoles
    case InlinePolicy(role, _) => FewRoles(w) || role in cfg.globalRoles
    case InstanceProfile(_) => FewRoles(w)
    case _ => true
  }

  /** All of it. */
  ghost predicate InOrder(cfg: SweepConfig, w: World) {
    SharersShareAddresses(cfg, w) && NatsGoInTime(cfg, w) && RulesGoInTime(cfg, w) && FewRoles(w)
  }

  // ── What any run may do ────────────────────────────────────────────────────

  /** The end of an attachment that the sweep deletes. */
  function LooseEnd(e: Edge): Resource {
    if e.blocker.Igw? || e.blocker.InstanceProfile? then e.blocker else e.blocked
  }

  ghost predicate MayCut(cfg: SweepConfig, w: World, e: Edge) {
    match e.link
    case Holds => false
    case Attachment => Scoped(cfg, w, LooseEnd(e))
    case _ => Stripped(cfg, e.blocker)
  }

  /** The world only shrinks, and only by what the sweep is responsible for; a built-in route
      table or group disappears only along with its VPC. */
  ghost predicate Framed(cfg: SweepConfig, w: World, w': World) {
    && w'.live <= w.live && w'.edges <= w.edges
    && (forall r :: r in w.live && r !in w'.live ==> Scoped(cfg, w, r))
    && (forall r :: r in w.live && r !in w'.live && !Deletable(r) ==> Vpc(r.vpc) !in w'.live)
    && (forall e :: e in w.edges && e !in w'.edges ==> MayCut(cfg, w, e))
    && (forall r :: r in w.deleting && r in w'.live ==> r in w'.deleting)
    && (forall r :: r in w'.deleting && r !in w.deleting ==> Scoped(cfg, w, r))
    && w'.locked == w.locked && (forall r :: r in w.locked && r in w.live ==> r in w'.live)
  }

  /** Nothing out of reach is removed or let go of. */
  ghost predicate SparesStuck(cfg: SweepConfig, w: World, w': World) {
    && (forall r :: r in w.live && r !in w'.live ==> Clears(cfg, w, r))
    && (forall e :: e in w.edges && e !in w'.edges && e.link.Attachment? ==> !Stuck(cfg, w, LooseEnd(e)))
  }

  ghost predicate Bound(cfg: SweepConfig, w: World, w': World) {
    Valid(w') && Framed(cfg, w, w') && (DefaultsStayHome(cfg, w) ==> SparesStuck(cfg, w, w'))
  }

  lemma ScopeShrinks(cfg: SweepConfig, w: World, w': World, r: Resource)
    requires w'.live <= w.live && w'.edges <= w.edges
    requires Scoped(cfg, w', r)
    ensures Scoped(cfg, w, r)
  {
    match r {
      case Eip(_, _, _) =>
        var t :| t in cfg.targets && OwnsEip(t, r) && HasVpc(w', t);
        assert HasVpc(w, t);
      case Igw(_, _) =>
        var v :| SweptVpc(cfg, v) && AttachedTo(w', r, Vpc(v));
        assert AttachedTo(w, r, Vpc(v));
      case InstanceProfile(_) =>
        var role :| SweptRole(cfg, role) && AttachedTo(w', r, IamRole(role));
        assert AttachedTo(w, r, IamRole(role));
      case _ =>
    }
  }

  lemma CrossingsShrink(cfg: SweepConfig, w: World, w': World)
    requires w'.live <= w.live && w'.edges <= w.edges && DefaultsStayHome(cfg, w)
    ensures DefaultsStayHome(cfg, w')
  {
    forall e | Crosses(cfg, w', e) ensures Crosses(cfg, w, e) {}
  }

  /** A VPC whose group is out of reach is out of reach itself. */
  lemma StuckGroupSticksVpc(cfg: SweepConfig, w: World, r: Resource)
    requires Valid(w) && r in w.live && r.SecurityGroup? && Swept(cfg, w, r) && Stuck(cfg, w, r)
    ensures Stuck(cfg, w, Vpc(r.vpc))
  {
    var e := Edge(r, Vpc(r.vpc), Holds);
    assert Blocks(w, e, Vpc(r.vpc));
  }

  /** What is out of reach stays out of reach, whatever a run does. */
  lemma {:induction false} StuckStays(cfg: SweepConfig, w: World, w': World, r: Resource)
    requires Valid(w) && DefaultsStayHome(cfg, w) && Bound(cfg, w, w')
    requires r in w.live && Swept(cfg, w, r) && Stuck(cfg, w, r)
    ensures r in w'.live && Stuck(cfg, w', r)
    decreases Rank(r)
  {
    assert r in w'.live;
    var e :| Blocks(w, e, r) && Lasting(cfg, e) &&
             (Swept(cfg, w, e.blocker) ==> Rank(e.blocker) < Rank(r) && Stuck(cfg, w, e.blocker));
    var b := e.blocker;
    assert Typed(e);
    if Swept(cfg, w, b) {
      StuckStays(cfg, w, w', b);
    } else {
      DeafBlockerStays(cfg, w, w', e, r);
      if Swept(cfg, w', b) {
        ScopeShrinks(cfg, w, w', b);
        assert false;
      }
    }
    LastingEdgeStays(cfg, w, w', e, r);
    assert Blocks(w', e, r);
  }

  /** A blocker that the sweep does not delete outlives every run. */
  lemma DeafBlockerStays(cfg: SweepConfig, w: World, w': World, e: Edge, r: Resource)
    requires Valid(w) && DefaultsStayHome(cfg, w) && Bound(cfg, w, w')
    requires r in w.live && Swept(cfg, w, r) && Stuck(cfg, w, r)
    requires Blocks(w, e, r) && Lasting(cfg, e) && !Swept(cfg, w, e.blocker)
    ensures e.blocker in w'.live
  {
    var b := e.blocker;
    assert Typed(e);
    if b !in w'.live {
      assert Clears(cfg, w, b);
      assert b.SecurityGroup? && b.isDefault && b.vpc == r.vpc;
      StuckGroupSticksVpc(cfg, w, r);
      assert false;
    }
  }

  lemma LastingEdgeStays(cfg: SweepConfig, w: World, w': World, e: Edge, r: Resource)
    requires Valid(w) && DefaultsStayHome(cfg, w) && Bound(cfg, w, w')
    requires Blocks(w, e, r) && Lasting(cfg, e)
    requires Swept(cfg, w, e.blocker) ==> Stuck(cfg, w, e.blocker)
    ensures e in w'.edges
  {
    assert Typed(e);
    assert e.link.Attachment? ==> LooseEnd(e) == e.blocker;
  }

  /** Nothing becomes out of reach because of a run. */
  lemma {:induction false} StuckIsOld(cfg: SweepConfig, w: World, w': World, r: Resource)
    requires Valid(w) && Bound(cfg, w, w')
    requires r in w'.live && Stuck(cfg, w', r)
    ensures Stuck(cfg, w, r)
    decreases Rank(r)
  {
    var e :| Blocks(w', e, r) && Lasting(cfg, e) &&
             (Swept(cfg, w', e.blocker) ==> Rank(e.blocker) < Rank(r) && Stuck(cfg, w', e.blocker));
    var b := e.blocker;
    assert Blocks(w, e, r) && Typed(e);
    if Swept(cfg, w, b) {
      BlockerStaysSwept(cfg, w, w', e, r);
      StuckIsOld(cfg, w, w', b);
    }
  }

  /** A resource that a run leaves behind for good does not block anything. */
  lemma BlockerStaysSwept(cfg: SweepConfig, w: World, w': World, e: Edge, r: Resource)
    requires WellTyped(w) && SoleAttachment(w) && w'.edges <= w.edges
    requires r in w'.live && Blocks(w', e, r) && Swept(cfg, w, e.blocker)
    ensures Swept(cfg, w', e.blocker)
  {
    var b := e.blocker;
    assert Typed(e) && e in w.edges;
    if b.Igw? {
      GatewayStaysSwept(cfg, w, w', e, r);
    } else if b.InstanceProfile? {
      ProfileStaysSwept(cfg, w, w', e, r);
    } else {
      assert !b.Eip?;
      ScopeByName(cfg, w, w', b);
    }
  }

  /** Apart from addresses, gateways and profiles, the configuration alone decides on the scope. */
  lemma ScopeByName(cfg: SweepConfig, w: World, w': World, r: Resource)
    requires Scoped(cfg, w, r) && !r.Eip? && !r.Igw? && !r.InstanceProfile?
    ensures Scoped(cfg, w', r)
  {
  }

  lemma GatewayStaysSwept(cfg: SweepConfig, w: World, w': World, e: Edge, r: Resource)
    requires Typed(e) && SoleAttachment(w) && e in w.edges && r in w'.live && Blocks(w', e, r)
    requires e.blocker.Igw? && SweptIgw(cfg, w, e.blocker)
    ensures SweptIgw(cfg, w', e.blocker)
  {
    var u :| SweptVpc(cfg, u) && AttachedTo(w, e.blocker, Vpc(u));
    assert Edge(e.blocker, Vpc(u), Attachment) == e;
    assert AttachedTo(w', e.blocker, Vpc(u));
  }

  lemma ProfileStaysSwept(cfg: SweepConfig, w: World, w': World, e: Edge, r: Resource)
    requires Typed(e) && SoleAttachment(w) && e in w.edges && r in w'.live && Blocks(w', e, r)
    requires e.blocker.InstanceProfile? && SweptProfile(cfg, w, e.blocker)
    ensures SweptProfile(cfg, w', e.blocker)
  {
    var role :| SweptRole(cfg, role) && AttachedTo(w, e.blocker, IamRole(role));
    assert Edge(e.blocker, IamRole(role), Attachment) == e;
    assert AttachedTo(w', e.blocker, IamRole(role));
  }

  lemma BoundReflexive(cfg: SweepConfig, w: World)
    requires Valid(w)
    ensures Bound(cfg, w, w)
  {
  }

  lemma ClearsShrinks(cfg: SweepConfig, a: World, b: World, r: Resource)
    requires Valid(a) && DefaultsStayHome(cfg, a) && Bound(cfg, a, b)
    requires r in b.live && Clears(cfg, b, r)
    ensures Clears(cfg, a, r)
  {
    if Deletable(r) {
      ScopeShrinks(cfg, a, b, r);
      if Stuck(cfg, a, r) { StuckStays(cfg, a, b, r); assert false; }
    } else {
      assert Parent(r) == Inside(Vpc(r.vpc));
      if Stuck(cfg, a, Vpc(r.vpc)) { StuckStays(cfg, a, b, Vpc(r.vpc)); assert false; }
    }
  }

  /** Runs, and parts of runs, compose. */
  lemma BoundTransitive(cfg: SweepConfig, a: World, b: World, c: World)
    requires Valid(a) && Bound(cfg, a, b) && Bound(cfg, b, c)
    ensures Bound(cfg, a, c)
  {
    FrameTransitive(cfg, a, b, c);
    if DefaultsStayHome(cfg, a) {
      CrossingsShrink(cfg, a, b);
      ClearsTransitive(cfg, a, b, c);
      CutsTransitive(cfg, a, b, c);
    }
  }

  lemma ClearsTransitive(cfg: SweepConfig, a: World, b: World, c: World)
    requires Valid(a) && DefaultsStayHome(cfg, a) && Bound(cfg, a, b) && SparesStuck(cfg, b, c)
    ensures forall r :: r in a.live && r !in c.live ==> Clears(cfg, a, r)
  {
    forall r | r in a.live && r !in c.live ensures Clears(cfg, a, r) {
      if r in b.live { ClearsShrinks(cfg, a, b, r); }
    }
  }

  lemma CutsTransitive(cfg: SweepConfig, a: World, b: World, c: World)
    requires Valid(a) && DefaultsStayHome(cfg, a) && Bound(cfg, a, b) && Bound(cfg, b, c) && SparesStuck(cfg, b, c)
    ensures forall e :: e in a.edges && e !in c.edges && e.link.Attachment? ==> !Stuck(cfg, a, LooseEnd(e))
  {
    forall e | e in a.edges && e !in c.edges && e.link.Attachment? ensures !Stuck(cfg, a, LooseEnd(e)) {
      if e in b.edges { CutIsUnstuck(cfg, a, b, c, e); }
    }
  }

  lemma CutIsUnstuck(cfg: SweepConfig, a: World, b: World, c: World, e: Edge)
    requires Valid(a) && DefaultsStayHome(cfg, a) && Bound(cfg, a, b)
    requires e in a.edges && e in b.edges && e.link.Attachment? && MayCut(cfg, b, e) && !Stuck(cfg, b, LooseEnd(e))
    ensures !Stuck(cfg, a, LooseEnd(e))
  {
    var x := LooseEnd(e);
    assert Typed(e);
    ScopeShrinks(cfg, a, b, x);
    if Stuck(cfg, a, x) && x in a.live { StuckStays(cfg, a, b, x); assert false; }
  }

  lemma FrameTransitive(cfg: SweepConfig, a: World, b: World, c: World)
    requires Framed(cfg, a, b) && Framed(cfg, b, c)
    ensures Framed(cfg, a, c)
  {
    forall r | Scoped(cfg, b, r) ensures Scoped(cfg, a, r) { ScopeShrinks(cfg, a, b, r); }
  }

  /** A main route table or a default group disappears only along with its VPC, which carries a
      configured cluster's tag. */
  lemma BuiltInsGoWithTheirVpc(cfg: SweepConfig, w: World, w': World, r: Resource)
    requires Bound(cfg, w, w') && !Deletable(r) && r in w.live && r !in w'.live
    ensures Vpc(r.vpc) !in w'.live && SweptVpc(cfg, r.vpc)
  {
    assert Scoped(cfg, w, r);
  }

  // ── Every call the sweep makes stays within the bound ──────────────────────

  lemma UnblockedIsClear(cfg: SweepConfig, base: World, w: World, r: Resource)
    requires Valid(base) && DefaultsStayHome(cfg, base) && Bound(cfg, base, w)
    requires Scoped(cfg, base, r) && Deletable(r) && r in w.live && !Blocked(w, r)
    ensures !Stuck(cfg, base, r)
  {
    if Stuck(cfg, base, r) { StuckStays(cfg, base, w, r); assert false; }
  }

  lemma CompanionIsScoped(cfg: SweepConfig, w: World, c: Resource, r: Resource)
    requires GoesWith(c, r) && Scoped(cfg, w, r) && Deletable(r)
    ensures Scoped(cfg, w, c) && (!Deletable(c) ==> r == Vpc(c.vpc))
  {
  }

  lemma CompanionIsClear(cfg: SweepConfig, w: World, c: Resource, r: Resource)
    requires WellTyped(w) && GoesWith(c, r) && Scoped(cfg, w, r) && Deletable(r) && !Stuck(cfg, w, r)
    ensures Clears(cfg, w, c)
  {
    CompanionIsScoped(cfg, w, c, r);
    if c.PodAssociation? {
      forall e ensures !Blocks(w, e, c) { assert e in w.edges ==> Typed(e); }
    }
  }

  lemma GoneFrames(cfg: SweepConfig, base: World, w: World, r: Resource)
    requires Framed(cfg, base, w) && Scoped(cfg, base, r) && Deletable(r) && r !in w.locked && LocksVersions(w)
    ensures Framed(cfg, base, Gone(w, r))
  {
    forall c | GoesWith(c, r) ensures Scoped(cfg, base, c) && (!Deletable(c) ==> r == Vpc(c.vpc)) {
      CompanionIsScoped(cfg, base, c, r);
    }
    assert GoesWith(r, r);
  }

  /** A resource that goes leaves the bound intact, whenever AWS lets it go. */
  lemma GoneExtends(cfg: SweepConfig, base: World, w: World, r: Resource)
    requires Valid(base) && Bound(cfg, base, w)
    requires Scoped(cfg, base, r) && Deletable(r) && r in w.live && !Blocked(w, r) && r !in w.locked
    ensures Bound(cfg, base, Gone(w, r))
  {
    GoneStaysValid(w, r);
    GoneFrames(cfg, base, w, r);
    if DefaultsStayHome(cfg, base) {
      UnblockedIsClear(cfg, base, w, r);
      forall c | GoesWith(c, r) ensures Clears(cfg, base, c) { CompanionIsClear(cfg, base, c, r); }
    }
  }

  lemma DeleteExtends(cfg: SweepConfig, base: World, w: World, r: Resource)
    requires Valid(base) && Bound(cfg, base, w) && Scoped(cfg, base, r)
    ensures Bound(cfg, base, AfterDelete(w, r))
    ensures Accepts(w, r) ==> Bound(cfg, base, Gone(w, r))
  {
    DeleteStaysValid(w, r);
    if Accepts(w, r) {
      GoneExtends(cfg, base, w, r);
      if Async(r) { StartExtends(cfg, base, w, r); }
    }
  }

  lemma StartExtends(cfg: SweepConfig, base: World, w: World, r: Resource)
    requires Bound(cfg, base, w) && Scoped(cfg, base, r) && Valid(w.(deleting := w.deleting + {r}))
    ensures Bound(cfg, base, w.(deleting := w.deleting + {r}))
  {
    StartFrames(cfg, base, w, r);
    var w' := w.(deleting := w.deleting + {r});
    assert SparesStuck(cfg, base, w) ==> SparesStuck(cfg, base, w');
  }

  lemma StartFrames(cfg: SweepConfig, base: World, w: World, r: Resource)
    requires Framed(cfg, base, w) && Scoped(cfg, base, r)
    ensures Framed(cfg, base, w.(deleting := w.deleting + {r}))
  {
  }

  lemma WaitExtends(cfg: SweepConfig, base: World, w: World, r: Resource)
    requires Valid(base) && Bound(cfg, base, w) && Scoped(cfg, base, r)
    ensures Bound(cfg, base, AfterWait(w, r))
  {
    if r in w.deleting { GoneExtends(cfg, base, w, r); }
  }

  lemma RevokeExtends(cfg: SweepConfig, base: World, w: World, group: Resource, link: Link)
    requires Valid(base) && Bound(cfg, base, w) && Stripped(cfg, group) && (link.Ingress? || link.Egress?)
    ensures Bound(cfg, base, AfterRevoke(w, group, link))
  {
    CutStaysValid(w, AfterRevoke(w, group, link));
  }

  lemma DetachExtends(cfg: SweepConfig, base: World, w: World, a: Resource, b: Resource)
    requires Valid(base) && Bound(cfg, base, w) && Scoped(cfg, base, a)
    requires a in w.live && (a.Igw? || a.InstanceProfile?) && MayAttach(a, b)
    ensures Bound(cfg, base, AfterDetach(w, a, b))
  {
    if !Held(w, a) {
      DetachCutsOnlyLooseEnd(w, a, b);
      CutStaysValid(w, AfterDetach(w, a, b));
      CutFrames(cfg, base, w, AfterDetach(w, a, b), a);
      if DefaultsStayHome(cfg, base) { UnheldIsClear(cfg, base, w, a); }
    }
  }

  lemma CutFrames(cfg: SweepConfig, base: World, w: World, w': World, a: Resource)
    requires Framed(cfg, base, w) && Scoped(cfg, base, a) && w' == w.(edges := w'.edges) && w'.edges <= w.edges
    requires forall e :: e in w.edges && e !in w'.edges ==> e.link.Attachment? && LooseEnd(e) == a
    ensures Framed(cfg, base, w')
  {
  }

  lemma DetachCutsOnlyLooseEnd(w: World, a: Resource, b: Resource)
    requires MayAttach(a, b) && Mutual(w)
    ensures var w' := AfterDetach(w, a, b);
            && w' == w.(edges := w'.edges) && w'.edges <= w.edges && Mutual(w')
            && forall e :: e in w.edges && e !in w'.edges ==> e.link.Attachment? && LooseEnd(e) == a
  {
  }

  lemma UnheldIsClear(cfg: SweepConfig, base: World, w: World, a: Resource)
    requires Valid(base) && DefaultsStayHome(cfg, base) && Bound(cfg, base, w)
    requires Scoped(cfg, base, a) && a in w.live && (a.Igw? || a.InstanceProfile?) && !Held(w, a)
    ensures !Stuck(cfg, base, a)
  {
    if Stuck(cfg, base, a) {
      StuckStays(cfg, base, w, a);
      OnlyHeldIsStuck(cfg, w, a);
      assert false;
    }
  }

  /** Of the lasting obstacles, only a holder stands in the way of a gateway or a profile. */
  lemma OnlyHeldIsStuck(cfg: SweepConfig, w: World, a: Resource)
    requires Valid(w) && (a.Igw? || a.InstanceProfile?) && Stuck(cfg, w, a)
    ensures Held(w, a)
  {
    var e :| Blocks(w, e, a) && Lasting(cfg, e);
    assert Typed(e) && e.link.Holds?;
  }

  // ── Fault-free runs and convergence ────────────────────────────────────────

  /** The phase that deletes resources of this kind. */
  function Phase(r: Resource): nat {
    match r
    case PodAssociation(_, _, _) => 0
    case Nodegroup(_, _, _) => 0
    case EksCluster(_, _) => 1
    case RdsInstance(_, _) => 2
    case Bucket(_) => 4
    case ObjectVersion(_, _, _) => 4
    case IamRole(_) => 5
    case AttachedPolicy(_, _) => 5
    case InlinePolicy(_, _) => 5
    case InstanceProfile(_) => 5
    case IamUser(_) => 6
    case LoginProfile(_) => 6
    case AccessKey(_, _) => 6
    case UserPolicy(_, _) => 6
    case CfnStack(_, _) => 7
    case Foreign(_) => 8
    case _ => 3
  }

  /** Phase `k` has nothing left to do. */
  ghost predicate Settled(cfg: SweepConfig, w: World, u: World, k: nat) {
    forall r :: r in u.live && Phase(r) == k && Swept(cfg, w, r) && Covered(cfg, w, r) ==> Disposed(cfg, w, u, r)
  }

  ghost predicate AllSettled(cfg: SweepConfig, w: World, u: World, phases: nat) {
    forall k :: 0 <= k < phases ==> Settled(cfg, w, u, k)
  }

  /** What one fault-free run achieves: everything it is responsible for is gone, except what is
      out of reach and the deletions it does not wait for. */
  ghost predicate CleanRun(cfg: SweepConfig, w: World, u: World) {
    Bound(cfg, w, u) && AllSettled(cfg, w, u, 8)
  }

  /** `r` is out of reach, or its deletion is one that nothing waits for. */
  ghost predicate Disposed(cfg: SweepConfig, w: World, u: World, r: Resource) {
    Stuck(cfg, w, r) || (r in u.deleting && (r.RdsInstance? || r.CfnStack?))
  }

  lemma CleanMeansDisposed(cfg: SweepConfig, w: World, u: World, r: Resource)
    requires CleanRun(cfg, w, u) && r in u.live && Swept(cfg, w, r) && Covered(cfg, w, r)
    ensures Disposed(cfg, w, u, r)
  {
    assert Settled(cfg, w, u, Phase(r));
  }

  /** No version that S3 refuses to delete lies in a swept bucket. */
  ghost predicate NothingLocked(cfg: SweepConfig, w: World) {
    forall r :: r in w.locked && r in w.live ==> !Scoped(cfg, w, r)
  }

  lemma FewRolesShrinks(w: World, w': World)
    requires w'.live <= w.live && FewRoles(w)
    ensures FewRoles(w')
  {
    SubsetIsSmaller(Roles(w'), Roles(w));
  }

  lemma CoverageStays(cfg: SweepConfig, w: World, w': World, r: Resource)
    requires w'.live <= w.live && w'.edges <= w.edges && Covered(cfg, w, r)
    ensures Covered(cfg, w', r)
  {
    if FewRoles(w) { FewRolesShrinks(w, w'); }
    forall e | Crosses(cfg, w', e) ensures Crosses(cfg, w, e) {}
  }

  /** What exists and is not being deleted. */
  ghost function Standing(w: World): set<Resource> { w.live - w.deleting }

  lemma StartedMeansCleared(cfg: SweepConfig, w: World, u: World, r: Resource)
    requires Valid(w) && DefaultsStayHome(cfg, w) && Bound(cfg, w, u)
    requires r in u.deleting && r !in w.deleting
    ensures Clears(cfg, w, r)
  {
    assert Scoped(cfg, w, r) && Deletable(r) && r in w.live;
    UnblockedIsClear(cfg, w, u, r);
  }

  /** A fault-free run leaves exactly what the sweep does not clear. */
  lemma CleanOutcome(cfg: SweepConfig, w: World, u: World, r: Resource)
    requires Valid(w) && DefaultsStayHome(cfg, w) && CleanRun(cfg, w, u) && OfConcern(cfg, w, r)
    ensures r in Standing(u) <==> r in Standing(w) && !Clears(cfg, w, r)
  {
    if r in Standing(u) { StandingIsNotCleared(cfg, w, u, r); }
    if r in Standing(w) && !Clears(cfg, w, r) && r in u.deleting {
      StartedMeansCleared(cfg, w, u, r);
      assert false;
    }
  }

  /** The premises for `r` hold; a built-in part of a VPC goes with it. */
  ghost predicate OfConcern(cfg: SweepConfig, w: World, r: Resource) {
    Covered(cfg, w, r) && (!Deletable(r) ==> Covered(cfg, w, Vpc(r.vpc)))
  }

  lemma StandingIsNotCleared(cfg: SweepConfig, w: World, u: World, r: Resource)
    requires Valid(w) && CleanRun(cfg, w, u) && OfConcern(cfg, w, r) && r in Standing(u)
    ensures r in Standing(w) && !Clears(cfg, w, r)
  {
    if Deletable(r) {
      if Swept(cfg, w, r) { CleanMeansDisposed(cfg, w, u, r); }
    } else {
      var v := Vpc(r.vpc);
      assert Parent(r) == Inside(v) && v !in u.deleting;
      if Swept(cfg, w, v) { CleanMeansDisposed(cfg, w, u, v); }
    }
  }

  /** What faulty runs can leave beyond the reach of every later run: an address whose cluster
      has lost its last tagged VPC, a gateway that was detached but not deleted, an instance
      profile whose role was removed but which was not deleted. */
  ghost function Stranded(cfg: SweepConfig, w: World, w': World): set<Resource> {
    set r | r in w'.live && (r.Eip? || r.Igw? || r.InstanceProfile?)
            && Scoped(cfg, w, r) && !Stuck(cfg, w, r) && !Scoped(cfg, w', r)
  }

  lemma LosingScope(cfg: SweepConfig, w: World, w': World, r: Resource)
    requires Valid(w) && DefaultsStayHome(cfg, w) && Bound(cfg, w, w') && r in w'.live
    ensures Clears(cfg, w, r) && !Clears(cfg, w', r) <==> r in Stranded(cfg, w, w')
  {
    if Clears(cfg, w, r) && !Clears(cfg, w', r) {
      if Deletable(r) {
        if Stuck(cfg, w', r) { StuckIsOld(cfg, w, w', r); assert false; }
      } else {
        assert Parent(r) == Inside(Vpc(r.vpc));
        StuckIsOld(cfg, w, w', Vpc(r.vpc));
      }
    }
  }

  /** Any number of faulty runs followed by a fault-free one ends where a single fault-free run
      ends, plus exactly what the faulty runs stranded. */
  lemma FaultsOnlyStrand(cfg: SweepConfig, w: World, w': World, u: World, u': World, r: Resource)
    requires Valid(w) && DefaultsStayHome(cfg, w) && Bound(cfg, w, w') && OfConcern(cfg, w, r)
    requires CleanRun(cfg, w, u) && CleanRun(cfg, w', u')
    ensures r in Standing(u') <==> r in Standing(u) || r in Stranded(cfg, w, w')
    ensures !(r in Standing(u) && r in Stranded(cfg, w, w'))
  {
    CrossingsShrink(cfg, w, w');
    CoverageStays(cfg, w, w', r);
    if !Deletable(r) { CoverageStays(cfg, w, w', Vpc(r.vpc)); }
    CleanOutcome(cfg, w, u, r);
    CleanOutcome(cfg, w', u', r);
    WhatStandsAfterFaults(cfg, w, w', r);
  }

  /** What stands after faulty runs and is not cleared then: what was not cleared before, and what
      was stranded. */
  lemma WhatStandsAfterFaults(cfg: SweepConfig, w: World, w': World, r: Resource)
    requires Valid(w) && DefaultsStayHome(cfg, w) && Bound(cfg, w, w')
    ensures r in Standing(w') && !Clears(cfg, w', r) <==>
            (r in Standing(w) && !Clears(cfg, w, r)) || r in Stranded(cfg, w, w')
    ensures r in Stranded(cfg, w, w') ==> Clears(cfg, w, r)
  {
    if r in w'.live {
      LosingScope(cfg, w, w', r);
      if Clears(cfg, w', r) { ClearsShrinks(cfg, w, w', r); }
    }
    if r in w'.deleting && r !in w.deleting { StartedMeansCleared(cfg, w, w', r); }
    assert r in Stranded(cfg, w, w') ==> !Async(r) && r !in w'.deleting;
  }
}
