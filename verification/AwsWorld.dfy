/** The AWS account the orphan sweep works on (bootstrap-rs/src/teardown.rs): what exists,
    which live resource keeps which other resource from being deleted, and what each AWS call
    does when AWS applies its refusal rules. */
module AwsWorld {

  /** A VPC; `owned` holds the names of the clusters whose ownership tag has the value "owned",
      the tag with the key `sigs.k8s.io/cluster-api-provider-aws/cluster/<name>`. */
  datatype VpcInfo = VpcInfo(region: string, id: string, owned: set<string>)

  datatype Resource =
    | PodAssociation(region: string, cluster: string, id: string)
    | Nodegroup(region: string, cluster: string, id: string)
    | EksCluster(region: string, cluster: string)
    | RdsInstance(region: string, id: string)
    | Vpc(vpc: VpcInfo)
    | Nat(vpc: VpcInfo, id: string)
    | Subnet(vpc: VpcInfo, id: string)
    | RouteTable(vpc: VpcInfo, id: string, main: bool)
    | SecurityGroup(vpc: VpcInfo, id: string, isDefault: bool)
    | Igw(region: string, id: string)
    | Eip(region: string, id: string, owned: set<string>)
    | Bucket(bucket: string)
    | ObjectVersion(bucket: string, key: string, version: string)
    | IamRole(role: string)
    | AttachedPolicy(role: string, arn: string)
    | InlinePolicy(role: string, policy: string)
    | InstanceProfile(profile: string)
    | IamUser(user: string)
    | LoginProfile(user: string)
    | AccessKey(user: string, key: string)
    | UserPolicy(user: string, policy: string)
    | CfnStack(region: string, stack: string)
    /** Anything no cleanup unit handles: an instance, an endpoint, a Fargate profile, ... */
    | Foreign(id: string)

  /** Why the blocker stands in the way: it lives in or uses the blocked resource, it is a
      security group one of whose rules names the blocked group, or the two are attached. */
  datatype Link = Holds | Ingress | Egress | Attachment

  datatype Edge = Edge(blocker: Resource, blocked: Resource, link: Link)

  /** `deleting`: asynchronous deletions that were accepted and have not finished; `locked`: the
      object versions that S3 refuses to delete (retention, legal hold, a denying policy). */
  datatype World = World(live: set<Resource>, edges: set<Edge>, deleting: set<Resource>, locked: set<Resource>)

  // ── AWS's rules ────────────────────────────────────────────────────────────

  predicate Blocks(w: World, e: Edge, r: Resource) {
    e in w.edges && e.blocked == r && e.blocker != r && e.blocker in w.live
  }

  predicate Blocked(w: World, r: Resource) {
    exists e :: e in w.edges && Blocks(w, e, r)
  }

  /** AWS has no call that deletes a VPC's main route table or default group. */
  predicate Deletable(r: Resource) {
    !(r.RouteTable? && r.main) && !(r.SecurityGroup? && r.isDefault)
  }

  predicate Async(r: Resource) {
    r.Nodegroup? || r.EksCluster? || r.RdsInstance? || r.Nat? || r.CfnStack?
  }

  /** `c` disappears together with `r`. */
  predicate GoesWith(c: Resource, r: Resource) {
    c == r ||
    match c
    case PodAssociation(region, cluster, _) => r == EksCluster(region, cluster)
    case RouteTable(vpc, _, main) => main && r == Vpc(vpc)
    case SecurityGroup(vpc, _, isDefault) => isDefault && r == Vpc(vpc)
    case _ => false
  }

  function Gone(w: World, r: Resource): World {
    w.(live := (set c | c in w.live && !GoesWith(c, r)), deleting := (set c | c in w.deleting && !GoesWith(c, r)))
  }

  predicate Accepts(w: World, r: Resource) {
    r in w.live && r !in w.deleting && Deletable(r) && !Blocked(w, r) && r !in w.locked
  }

  /** A delete call that reached AWS. */
  function AfterDelete(w: World, r: Resource): World {
    if !Accepts(w, r) then w
    else if Async(r) then w.(deleting := w.deleting + {r})
    else Gone(w, r)
  }

  /** An `aws ... wait` that returned because the deletion finished; a deletion that was never
      accepted times out. */
  function AfterWait(w: World, r: Resource): World {
    if r in w.deleting then Gone(w, r) else w
  }

  /** Revoking every ingress (egress) rule of a group. */
  function AfterRevoke(w: World, group: Resource, link: Link): World {
    w.(edges := set e | e in w.edges && !(e.blocker == group && e.link == link))
  }

  predicate Held(w: World, r: Resource) {
    exists e :: e in w.edges && Blocks(w, e, r) && e.link.Holds?
  }

  /** Detaching an internet gateway from its VPC, or a role from its instance profile; AWS
      refuses to detach a gateway while a public address is mapped through it. */
  function AfterDetach(w: World, a: Resource, b: Resource): World {
    if Held(w, a) then w
    else w.(edges := set e | e in w.edges && !(e.link.Attachment? &&
                               ((e.blocker == a && e.blocked == b) || (e.blocker == b && e.blocked == a))))
  }

  // ── Which worlds exist ─────────────────────────────────────────────────────

  /** The dependency rules: what may hold what. */
  predicate MayHold(b: Resource, r: Resource) {
    match b
    case Foreign(_) =>
      Deletable(r) && (r.EksCluster? || r.Eip? || r.Subnet? || r.Igw? || r.RouteTable? || r.SecurityGroup?
                       || r.Vpc? || r.IamRole? || r.IamUser? || r.Bucket?)
    case Nodegroup(region, cluster, _) => r == EksCluster(region, cluster)
    case EksCluster(_, _) => Deletable(r) && (r.Subnet? || r.SecurityGroup? || r.Vpc?)
    case Nat(vpc, _) => r == Vpc(vpc) || (r.Subnet? && r.vpc == vpc) || (r.Eip? && r.region == vpc.region)
    case Subnet(vpc, _) => r == Vpc(vpc) || (r.RouteTable? && !r.main && r.vpc == vpc)
    case RouteTable(vpc, _, main) => !main && r == Vpc(vpc)
    case SecurityGroup(vpc, _, isDefault) => !isDefault && r == Vpc(vpc)
    case ObjectVersion(bucket, _, _) => r == Bucket(bucket)
    case AttachedPolicy(role, _) => r == IamRole(role)
    case InlinePolicy(role, _) => r == IamRole(role)
    case LoginProfile(user) => r == IamUser(user)
    case AccessKey(user, _) => r == IamUser(user)
    case UserPolicy(user, _) => r == IamUser(user)
    case _ => false
  }

  predicate MayAttach(a: Resource, b: Resource) {
    (a.Igw? && b.Vpc? && a.region == b.vpc.region) || (a.InstanceProfile? && b.IamRole?)
  }

  predicate Typed(e: Edge) {
    match e.link
    case Holds => MayHold(e.blocker, e.blocked)
    case Attachment => MayAttach(e.blocker, e.blocked) || MayAttach(e.blocked, e.blocker)
    case _ => e.blocker.SecurityGroup? && e.blocked.SecurityGroup?
  }

  datatype Tie = Free | Inside(parent: Resource)

  /** What a resource cannot exist without. */
  function Parent(r: Resource): Tie {
    match r
    case PodAssociation(region, cluster, _) => Inside(EksCluster(region, cluster))
    case Nodegroup(region, cluster, _) => Inside(EksCluster(region, cluster))
    case Nat(vpc, _) => Inside(Vpc(vpc))
    case Subnet(vpc, _) => Inside(Vpc(vpc))
    case RouteTable(vpc, _, _) => Inside(Vpc(vpc))
    case SecurityGroup(vpc, _, _) => Inside(Vpc(vpc))
    case ObjectVersion(bucket, _, _) => Inside(Bucket(bucket))
    case AttachedPolicy(role, _) => Inside(IamRole(role))
    case InlinePolicy(role, _) => Inside(IamRole(role))
    case LoginProfile(user) => Inside(IamUser(user))
    case AccessKey(user, _) => Inside(IamUser(user))
    case UserPolicy(user, _) => Inside(IamUser(user))
    case _ => Free
  }

  /** A parent is either taken along with, or held by, each resource inside it. */
  ghost predicate Tied(w: World) {
    forall r :: r in w.live && Parent(r).Inside? ==>
      && Parent(r).parent in w.live
      && (GoesWith(r, Parent(r).parent) || Edge(r, Parent(r).parent, Holds) in w.edges)
  }

  ghost predicate WellTyped(w: World) {
    forall e :: e in w.edges ==> Typed(e)
  }

  ghost predicate Mutual(w: World) {
    forall e :: e in w.edges && e.link.Attachment? ==> Edge(e.blocked, e.blocker, Attachment) in w.edges
  }

  /** A gateway is attached to one VPC at most, a profile carries one role at most. */
  ghost predicate SoleAttachment(w: World) {
    forall e, f :: (e in w.edges && f in w.edges && e.link.Attachment? && f.link.Attachment? &&
                    e.blocker == f.blocker && (e.blocker.Igw? || e.blocker.InstanceProfile?)) ==> e == f
  }

  /** Nothing holds, or is attached to, a resource that no longer exists. */
  ghost predicate NoDangling(w: World) {
    forall e :: e in w.edges && (e.link.Holds? || e.link.Attachment?) && e.blocker in w.live ==> e.blocked in w.live
  }

  ghost predicate Pending(w: World) {
    forall r :: r in w.deleting ==> r in w.live && Async(r) && !Blocked(w, r)
  }

  ghost predicate LocksVersions(w: World) {
    forall r :: r in w.locked ==> r.ObjectVersion?
  }

  ghost predicate Valid(w: World) {
    && WellTyped(w) && Mutual(w) && SoleAttachment(w) && NoDangling(w) && Tied(w) && Pending(w) && LocksVersions(w)
  }

  // ── Every call keeps a world valid ─────────────────────────────────────────

  lemma GoneStaysTied(w: World, r: Resource)
    requires Valid(w) && r in w.live && !Blocked(w, r)
    ensures Tied(Gone(w, r)) && NoDangling(Gone(w, r))
  {
    var w' := Gone(w, r);
    forall c | c in w'.live && Parent(c).Inside?
      ensures Parent(c).parent in w'.live
           && (GoesWith(c, Parent(c).parent) || Edge(c, Parent(c).parent, Holds) in w'.edges)
    {
      var p := Parent(c).parent;
      assert GoesWith(p, r) ==> p == r;
      assert GoesWith(c, p) || Blocks(w, Edge(c, p, Holds), p);
    }
    forall e | e in w'.edges && (e.link.Holds? || e.link.Attachment?) && e.blocker in w'.live
      ensures e.blocked in w'.live
    {
      assert Typed(e) && !Blocks(w, e, r);
      assert GoesWith(e.blocked, r) ==> e.blocked == r;
    }
  }

  lemma ShrinkKeepsPending(w: World, w': World)
    requires Pending(w) && w'.live <= w.live && w'.edges <= w.edges
    requires w'.deleting <= w.deleting && w'.deleting <= w'.live
    ensures Pending(w')
  {
    forall r | r in w'.deleting ensures !Blocked(w', r) {
      assert !Blocked(w, r);
      forall e ensures !Blocks(w', e, r) { assert !Blocks(w, e, r); }
    }
  }

  lemma GoneStaysValid(w: World, r: Resource)
    requires Valid(w) && r in w.live && !Blocked(w, r)
    ensures Valid(Gone(w, r))
  {
    GoneStaysTied(w, r);
    ShrinkKeepsPending(w, Gone(w, r));
  }

  lemma DeleteStaysValid(w: World, r: Resource)
    requires Valid(w)
    ensures Valid(AfterDelete(w, r))
  {
    if Accepts(w, r) {
      if Async(r) {
        var w' := AfterDelete(w, r);
        forall d, e | d in w'.deleting ensures !Blocks(w', e, d) {
          assert !Blocked(w, d);
          assert !Blocks(w, e, d);
        }
      } else {
        GoneStaysValid(w, r);
      }
    }
  }

  lemma CutStaysValid(w: World, w': World)
    requires Valid(w) && w' == w.(edges := w'.edges) && w'.edges <= w.edges
    requires forall e :: e in w.edges && e.link.Holds? ==> e in w'.edges
    requires Mutual(w')
    ensures Valid(w')
  {
    ShrinkKeepsPending(w, w');
    assert Tied(w') by {
      forall r | r in w'.live && Parent(r).Inside?
        ensures GoesWith(r, Parent(r).parent) || Edge(r, Parent(r).parent, Holds) in w'.edges {}
    }
  }
}
