/** Step 4g of the orphan sweep: IAM roles and users (bootstrap-rs/src/teardown.rs,
    `cleanup_iam_role`, `cleanup_capa_iam_roles`, `cleanup_iam_user`). */
module SweepIam {
  import opened AwsWorld
  import opened Basics
  import opened SweepScope
  import opened Aws
  import opened SweepVpc

  /** A role is gone with all that belongs to it, or out of reach without it. */
  ghost predicate RoleDone(cfg: SweepConfig, w0: World, w: World, role: string) {
    && (IamRole(role) in w.live ==> Stuck(cfg, w0, IamRole(role)))
    && PoliciesGone(w, role)
    && ProfilesDone(cfg, w0, w, role)
  }

  ghost predicate PoliciesGone(w: World, role: string) {
    forall r: Resource :: (r.AttachedPolicy? || r.InlinePolicy?) && r.role == role ==> r !in w.live
  }

  ghost predicate ProfilesDone(cfg: SweepConfig, w0: World, w: World, role: string) {
    forall r: Resource ::
      r in w.live && r.InstanceProfile? && Edge(r, IamRole(role), Attachment) in w0.edges ==> Stuck(cfg, w0, r)
  }

  lemma AbsentRoleIsDone(cfg: SweepConfig, w0: World, w: World, role: string)
    requires Valid(w) && Anchored(w0, w) && IamRole(role) !in w.live
    ensures RoleDone(cfg, w0, w, role)
  {
    assert forall r: Resource ::
      (r.AttachedPolicy? || r.InlinePolicy?) && r.role == role ==> Parent(r) == Inside(IamRole(role));
  }

  lemma BareRoleIsStuck(cfg: SweepConfig, w0: World, w: World, role: string)
    requires Ready(cfg, w0, w) && PoliciesGone(w, role) && ProfilesDone(cfg, w0, w, role)
    requires Blocked(w, IamRole(role))
    ensures Stuck(cfg, w0, IamRole(role))
  {
    var r := IamRole(role);
    forall e | Blocks(w, e, r)
      ensures Lasting(cfg, e) && (Swept(cfg, w0, e.blocker) ==> Stuck(cfg, w0, e.blocker))
    {
      assert Typed(e);
      assert e.link.Attachment? ==> e == Edge(e.blocker, r, Attachment);
    }
    ObstaclesMakeStuck(cfg, w0, w, r);
  }

  /** Managed policies, instance profiles, inline policies, then the role. */
  method CleanupIamRole(aws: Account, ghost cfg: SweepConfig, ghost w0: World, role: string)
    requires Ready(cfg, w0, aws.world) && SweptRole(cfg, role)
    modifies aws
    ensures Ready(cfg, w0, aws.world) && Shrinks(old(aws.world), aws.world)
    ensures old(Tidy(aws, w0)) ==> Tidy(aws, w0) && RoleDone(cfg, w0, aws.world, role)
  {
    ghost var tidy := Tidy(aws, w0);
    var found := aws.Probe(IamRole(role) in aws.world.live);
    if !found {
      if tidy { AbsentRoleIsDone(cfg, w0, aws.world, role); }
      return;
    }
    EmptyIamRole(aws, cfg, w0, role);
    ghost var bare := aws.world;
    DeleteOne(aws, cfg, w0, IamRole(role));
    if tidy {
      StaysAnchored(w0, bare, aws.world);
      RoleIsDone(cfg, w0, bare, aws.world, role);
    }
  }

  method EmptyIamRole(aws: Account, ghost cfg: SweepConfig, ghost w0: World, role: string)
    requires Ready(cfg, w0, aws.world) && SweptRole(cfg, role)
    modifies aws
    ensures Ready(cfg, w0, aws.world) && Shrinks(old(aws.world), aws.world)
    ensures old(Tidy(aws, w0)) ==>
              Tidy(aws, w0) && PoliciesGone(aws.world, role) && ProfilesDone(cfg, w0, aws.world, role)
  {
    ghost var tidy := Tidy(aws, w0);
    ghost var start := aws.world;
    DeleteManagedPolicies(aws, cfg, w0, role);
    if tidy { StaysAnchored(w0, start, aws.world); }
    DeleteProfiles(aws, cfg, w0, role);
    ghost var mid := aws.world;
    DeleteInlinePolicies(aws, cfg, w0, role);
    if tidy { StaysAnchored(w0, mid, aws.world); }
  }

  method DeleteManagedPolicies(aws: Account, ghost cfg: SweepConfig, ghost w0: World, role: string)
    requires Ready(cfg, w0, aws.world) && SweptRole(cfg, role)
    modifies aws
    ensures Ready(cfg, w0, aws.world) && Shrinks(old(aws.world), aws.world)
    ensures aws.world.edges == old(aws.world.edges)
    ensures aws.reliable ==> forall r: Resource :: r.AttachedPolicy? && r.role == role ==> r !in aws.world.live
  {
    DeleteLeaves(aws, cfg, w0, (r: Resource) => r.AttachedPolicy? && r.role == role);
  }

  method DeleteInlinePolicies(aws: Account, ghost cfg: SweepConfig, ghost w0: World, role: string)
    requires Ready(cfg, w0, aws.world) && SweptRole(cfg, role)
    modifies aws
    ensures Ready(cfg, w0, aws.world) && Shrinks(old(aws.world), aws.world)
    ensures aws.world.edges == old(aws.world.edges)
    ensures aws.reliable ==> forall r: Resource :: r.InlinePolicy? && r.role == role ==> r !in aws.world.live
  {
    DeleteLeaves(aws, cfg, w0, (r: Resource) => r.InlinePolicy? && r.role == role);
  }

  lemma RoleIsDone(cfg: SweepConfig, w0: World, w: World, w': World, role: string)
    requires Ready(cfg, w0, w) && PoliciesGone(w, role) && ProfilesDone(cfg, w0, w, role)
    requires Pending(w') && w'.live <= w.live && Answered(w, IamRole(role), w')
    ensures RoleDone(cfg, w0, w', role)
  {
    if IamRole(role) in w'.live { BareRoleIsStuck(cfg, w0, w, role); }
  }

  method DeleteProfiles(aws: Account, ghost cfg: SweepConfig, ghost w0: World, role: string)
    requires Ready(cfg, w0, aws.world) && SweptRole(cfg, role)
    modifies aws
    ensures Ready(cfg, w0, aws.world) && Shrinks(old(aws.world), aws.world)
    ensures old(Tidy(aws, w0)) ==> Tidy(aws, w0) && ProfilesDone(cfg, w0, aws.world, role)
  {
    var w := aws.world;
    var profiles := aws.List((r: Resource) =>
      r.InstanceProfile? && IamRole(role) in w.live && Edge(r, IamRole(role), Attachment) in w.edges);
    forall a | a in profiles ensures Scoped(cfg, w0, a) && MayAttach(a, IamRole(role)) {
      assert Typed(Edge(a, IamRole(role), Attachment)) && AttachedTo(w0, a, IamRole(role));
    }
    DetachAndDeleteEach(aws, cfg, w0, profiles, IamRole(role));
  }

  lemma StaysAnchored(w0: World, w: World, w': World)
    requires Anchored(w0, w) && w'.edges == w.edges && w'.live <= w.live
    ensures Anchored(w0, w')
  {
  }

  /** The listed roles are dealt with; the text form of an empty listing is skipped. */
  ghost predicate ListedDone(cfg: SweepConfig, w0: World, w: World, roles: seq<string>) {
    forall role :: role in roles && role != "None" ==> RoleDone(cfg, w0, w, role)
  }

  lemma OneMoreListed(cfg: SweepConfig, w0: World, w: World, w': World, roles: seq<string>, role: string)
    requires ListedDone(cfg, w0, w, roles) && w'.live <= w.live && (role != "None" ==> RoleDone(cfg, w0, w', role))
    ensures ListedDone(cfg, w0, w', roles + [role])
  {
    forall r | r in roles && r != "None" ensures RoleDone(cfg, w0, w', r) { RoleStaysDone(cfg, w0, w, w', r); }
  }

  lemma AllRolesDone(cfg: SweepConfig, w0: World, w: World, w': World, roles: seq<string>, prefix: string)
    requires Valid(w') && Anchored(w0, w') && w'.live <= w.live && ListedDone(cfg, w0, w', roles)
    requires forall name :: IamRole(name) in w.live && prefix <= name ==> name in roles
    ensures forall name :: name != "None" && prefix <= name ==> RoleDone(cfg, w0, w', name)
  {
    forall name | name != "None" && prefix <= name ensures RoleDone(cfg, w0, w', name) {
      if name !in roles { AbsentRoleIsDone(cfg, w0, w', name); }
    }
  }

  lemma RoleStaysDone(cfg: SweepConfig, w0: World, w: World, w': World, role: string)
    requires RoleDone(cfg, w0, w, role) && w'.live <= w.live
    ensures RoleDone(cfg, w0, w', role)
  {
  }

  /** `list-roles`, cut off after a thousand entries. */
  method ListRoles(aws: Account, prefix: string) returns (roles: seq<string>)
    ensures |roles| <= 1000 && forall name :: name in roles ==> prefix <= name
    ensures aws.reliable && FewRoles(aws.world) ==>
              forall name :: IamRole(name) in aws.world.live && prefix <= name ==> name in roles
  {
    var all := aws.List((r: Resource) => r.IamRole?);
    ElementCount(all);
    SubsetIsSmaller((set r | r in all), Roles(aws.world));
    if |all| > ROLE_PAGE { all := all[..ROLE_PAGE]; }
    roles := [];
    for i := 0 to |all|
      invariant |roles| <= i && forall name :: name in roles ==> prefix <= name
      invariant forall j :: 0 <= j < i && all[j].IamRole? && prefix <= all[j].role ==> all[j].role in roles
    {
      if all[i].IamRole? && prefix <= all[i].role { roles := roles + [all[i].role]; }
    }
  }

  method CleanupCapaIamRoles(aws: Account, ghost cfg: SweepConfig, ghost w0: World, t: Target)
    requires Ready(cfg, w0, aws.world) && t in cfg.targets
    modifies aws
    ensures Ready(cfg, w0, aws.world) && Shrinks(old(aws.world), aws.world)
    ensures old(Tidy(aws, w0)) ==> Tidy(aws, w0)
    ensures old(Tidy(aws, w0)) && FewRoles(w0) ==>
              forall name :: name != "None" && t.clusterName <= name ==> RoleDone(cfg, w0, aws.world, name)
  {
    ghost var start := aws.world;
    ghost var tidy := Tidy(aws, w0);
    var roles := ListRoles(aws, t.clusterName);
    for i := 0 to |roles|
      invariant Ready(cfg, w0, aws.world) && Shrinks(start, aws.world)
      invariant tidy ==> Tidy(aws, w0) && ListedDone(cfg, w0, aws.world, roles[..i])
    {
      ghost var before := aws.world;
      assert roles[i] in roles && t.clusterName <= roles[i];
      if roles[i] != "None" { CleanupIamRole(aws, cfg, w0, roles[i]); }
      if tidy { OneMoreListed(cfg, w0, before, aws.world, roles[..i], roles[i]); }
      assert roles[..i + 1] == roles[..i] + [roles[i]];
    }
    assert roles[..|roles|] == roles;
    if tidy && FewRoles(w0) {
      FewRolesShrinks(w0, start);
      AllRolesDone(cfg, w0, start, aws.world, roles, t.clusterName);
    }
  }

  predicate IsUserItem(user: string, r: Resource) {
    (r.LoginProfile? || r.AccessKey? || r.UserPolicy?) && r.user == user
  }

  ghost predicate UserDone(cfg: SweepConfig, w0: World, w: World, user: string) {
    && (IamUser(user) in w.live ==> Stuck(cfg, w0, IamUser(user)))
    && (forall r: Resource :: IsUserItem(user, r) ==> r !in w.live)
  }

  /** Login profile, access keys, inline policies, then the user. */
  method CleanupIamUser(aws: Account, ghost cfg: SweepConfig, ghost w0: World, user: string)
    requires Ready(cfg, w0, aws.world) && user in cfg.globalUsers
    modifies aws
    ensures Ready(cfg, w0, aws.world) && Shrinks(old(aws.world), aws.world)
    ensures old(Tidy(aws, w0)) ==> Tidy(aws, w0)
    ensures aws.reliable ==> UserDone(cfg, w0, aws.world, user)
  {
    var found := aws.Probe(IamUser(user) in aws.world.live);
    if !found {
      if aws.reliable { AbsentUserIsDone(cfg, w0, aws.world, user); }
      return;
    }
    ghost var start := aws.world;
    DeleteIamUser(aws, cfg, w0, user);
    if Anchored(w0, start) { StaysAnchored(w0, start, aws.world); }
  }

  method DeleteIamUser(aws: Account, ghost cfg: SweepConfig, ghost w0: World, user: string)
    requires Ready(cfg, w0, aws.world) && user in cfg.globalUsers
    modifies aws
    ensures Ready(cfg, w0, aws.world) && Shrinks(old(aws.world), aws.world)
    ensures aws.world.edges == old(aws.world.edges)
    ensures aws.reliable ==> UserDone(cfg, w0, aws.world, user)
  {
    DeleteUserItems(aws, cfg, w0, user);
    ghost var bare := aws.world;
    DeleteOne(aws, cfg, w0, IamUser(user));
    if aws.reliable { UserIsDone(cfg, w0, bare, aws.world, user); }
  }

  lemma AbsentUserIsDone(cfg: SweepConfig, w0: World, w: World, user: string)
    requires Tied(w) && IamUser(user) !in w.live
    ensures UserDone(cfg, w0, w, user)
  {
    assert forall r: Resource :: IsUserItem(user, r) ==> Parent(r) == Inside(IamUser(user));
  }

  lemma UserIsDone(cfg: SweepConfig, w0: World, w: World, w': World, user: string)
    requires Ready(cfg, w0, w) && Pending(w') && w'.live <= w.live && Answered(w, IamUser(user), w')
    requires forall r: Resource :: IsUserItem(user, r) ==> r !in w.live
    ensures UserDone(cfg, w0, w', user)
  {
    if IamUser(user) in w'.live { BareUserIsStuck(cfg, w0, w, user); }
  }

  method DeleteLoginProfile(aws: Account, ghost cfg: SweepConfig, ghost w0: World, user: string)
    requires Ready(cfg, w0, aws.world) && user in cfg.globalUsers
    modifies aws
    ensures Ready(cfg, w0, aws.world) && Shrinks(old(aws.world), aws.world)
    ensures aws.world.edges == old(aws.world.edges)
    ensures aws.reliable ==> LoginProfile(user) !in aws.world.live
  {
    ghost var start := aws.world;
    DeleteOne(aws, cfg, w0, LoginProfile(user));
    if aws.reliable { LeafAnswered(start, LoginProfile(user), aws.world); }
  }

  method DeleteUserItems(aws: Account, ghost cfg: SweepConfig, ghost w0: World, user: string)
    requires Ready(cfg, w0, aws.world) && user in cfg.globalUsers
    modifies aws
    ensures Ready(cfg, w0, aws.world) && Shrinks(old(aws.world), aws.world)
    ensures aws.world.edges == old(aws.world.edges)
    ensures aws.reliable ==> forall r: Resource :: IsUserItem(user, r) ==> r !in aws.world.live
  {
    DeleteLoginProfile(aws, cfg, w0, user);
    ghost var first := aws.world;
    DeleteKeys(aws, cfg, w0, user);
    ghost var second := aws.world;
    DeletePolicies(aws, cfg, w0, user);
    if aws.reliable { ItemsGone(user, first, second, aws.world); }
  }

  method DeleteKeys(aws: Account, ghost cfg: SweepConfig, ghost w0: World, user: string)
    requires Ready(cfg, w0, aws.world) && user in cfg.globalUsers
    modifies aws
    ensures Ready(cfg, w0, aws.world) && Shrinks(old(aws.world), aws.world)
    ensures aws.world.edges == old(aws.world.edges)
    ensures aws.reliable ==> forall r :: IsKey(user, r) ==> r !in aws.world.live
  {
    DeleteLeaves(aws, cfg, w0, (r: Resource) => IsKey(user, r));
  }

  method DeletePolicies(aws: Account, ghost cfg: SweepConfig, ghost w0: World, user: string)
    requires Ready(cfg, w0, aws.world) && user in cfg.globalUsers
    modifies aws
    ensures Ready(cfg, w0, aws.world) && Shrinks(old(aws.world), aws.world)
    ensures aws.world.edges == old(aws.world.edges)
    ensures aws.reliable ==> forall r :: IsPolicy(user, r) ==> r !in aws.world.live
  {
    DeleteLeaves(aws, cfg, w0, (r: Resource) => IsPolicy(user, r));
  }

  predicate IsKey(user: string, r: Resource) { r.AccessKey? && r.user == user }

  predicate IsPolicy(user: string, r: Resource) { r.UserPolicy? && r.user == user }

  lemma ItemsGone(user: string, first: World, second: World, third: World)
    requires third.live <= second.live <= first.live && LoginProfile(user) !in first.live
    requires forall r :: IsKey(user, r) ==> r !in second.live
    requires forall r :: IsPolicy(user, r) ==> r !in third.live
    ensures forall r: Resource :: IsUserItem(user, r) ==> r !in third.live
  {
    forall r: Resource | IsUserItem(user, r) ensures r !in third.live {
      assert r == LoginProfile(user) || IsKey(user, r) || IsPolicy(user, r);
    }
  }

  lemma BareUserIsStuck(cfg: SweepConfig, w0: World, w: World, user: string)
    requires Ready(cfg, w0, w) && (forall r: Resource :: IsUserItem(user, r) ==> r !in w.live)
    requires Blocked(w, IamUser(user))
    ensures Stuck(cfg, w0, IamUser(user))
  {
    forall e | Blocks(w, e, IamUser(user))
      ensures Lasting(cfg, e) && (Swept(cfg, w0, e.blocker) ==> Stuck(cfg, w0, e.blocker))
    {
      assert Typed(e) && !IsUserItem(user, e.blocker);
    }
    ObstaclesMakeStuck(cfg, w0, w, IamUser(user));
  }
}
