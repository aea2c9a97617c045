/** Where the orphan sweep falls short (bootstrap-rs/src/teardown.rs, step 4): faulty runs that
    leave something which no later run removes, and, for each premise of the convergence theorem,
    an account on which a fault-free run leaves something standing that nothing holds. */
module SweepLimits {
  import opened Aws
  import opened AwsWorld
  import opened Basics
  import opened SweepScope

  lemma NoRoles(w: World)
    requires forall r :: r in w.live ==> !r.IamRole?
    ensures FewRoles(w)
  {
    assert Roles(w) == {};
  }

  lemma Taken(w: World, r: Resource)
    requires r in w.live && Deletable(r) && !Async(r) && w.deleting == {} && w.locked == {}
    requires forall e :: e in w.edges && e.blocked == r ==> e.blocker !in w.live
    requires forall c :: c in w.live && GoesWith(c, r) ==> c == r
    ensures AfterDelete(w, r) == w.(live := w.live - {r})
  {
    assert !Blocked(w, r);
  }

  // ── Stranded by faults ─────────────────────────────────────────────────────

  /** An account with one tagged VPC and one tagged address. */
  function AddressWorld(v: VpcInfo, address: Resource): World {
    World({Vpc(v), address}, {}, {}, {})
  }

  /** The convergence that the sweep aims at does fail: the release of an address does not get
      through, the rest of the run does, and from then on the address is looked for no more. */
  lemma LateAddressIsStranded(cfg: SweepConfig, t: Target, v: VpcInfo, id: string)
    requires t in cfg.targets && OwnsVpc(t, v)
    ensures var eip := Eip(t.region, id, v.owned);
            var w := AddressWorld(v, eip);
            var w' := AfterDelete(w, Vpc(v));
            && Valid(w) && InOrder(cfg, w) && DefaultsStayHome(cfg, w) && Bound(cfg, w, w')
            && Deleted(false, w, eip, w) && Deleted(false, w, Vpc(v), w')
            && (forall u :: CleanRun(cfg, w, u) ==> eip !in u.live)
            && (forall u :: CleanRun(cfg, w', u) ==> eip in u.live)
  {
    var eip := Eip(t.region, id, v.owned);
    var w := AddressWorld(v, eip);
    var w' := AfterDelete(w, Vpc(v));
    assert SweptVpc(cfg, v);
    AddressWorldIsInOrder(cfg, v, id);
    AddressWorldIsValid(v, eip);
    BoundReflexive(cfg, w);
    DeleteExtends(cfg, w, w, Vpc(v));
    forall u | CleanRun(cfg, w, u) ensures eip !in u.live { AddressIsReleased(cfg, t, v, eip, u); }
    forall u | CleanRun(cfg, w', u) ensures eip in u.live { AddressIsForgotten(cfg, v, eip, u); }
  }

  lemma AddressWorldIsInOrder(cfg: SweepConfig, v: VpcInfo, id: string)
    ensures InOrder(cfg, AddressWorld(v, Eip(v.region, id, v.owned)))
    ensures DefaultsStayHome(cfg, AddressWorld(v, Eip(v.region, id, v.owned)))
  {
    NoRoles(AddressWorld(v, Eip(v.region, id, v.owned)));
  }

  lemma AddressWorldIsValid(v: VpcInfo, eip: Resource)
    requires eip.Eip?
    ensures Valid(AddressWorld(v, eip))
    ensures AfterDelete(AddressWorld(v, eip), Vpc(v)) == World({eip}, {}, {}, {})
  {
    Taken(AddressWorld(v, eip), Vpc(v));
  }

  lemma AddressIsReleased(cfg: SweepConfig, t: Target, v: VpcInfo, eip: Resource, u: World)
    requires t in cfg.targets && OwnsVpc(t, v) && OwnsEip(t, eip)
    requires CleanRun(cfg, AddressWorld(v, eip), u) && Covered(cfg, AddressWorld(v, eip), eip)
    ensures eip !in u.live
  {
    var w := AddressWorld(v, eip);
    assert HasVpc(w, t) && Swept(cfg, w, eip) && !Stuck(cfg, w, eip);
    if eip in u.live { CleanMeansDisposed(cfg, w, u, eip); }
  }

  lemma AddressIsForgotten(cfg: SweepConfig, v: VpcInfo, eip: Resource, u: World)
    requires eip.Eip? && CleanRun(cfg, AfterDelete(AddressWorld(v, eip), Vpc(v)), u)
    ensures eip in u.live
  {
    AddressWorldIsValid(v, eip);
    assert !SweptEip(cfg, World({eip}, {}, {}, {}), eip);
  }

  /** An account with two resources attached to each other. */
  function AttachedWorld(a: Resource, b: Resource): World {
    World({a, b}, {Edge(a, b, Attachment), Edge(b, a, Attachment)}, {}, {})
  }

  /** A detached thing is looked for no more: when the detaching gets through and the deletion
      does not, a gateway (profile) is left for good, and no later run touches it. */
  lemma DetachedIsStranded(cfg: SweepConfig, a: Resource, b: Resource)
    requires MayAttach(a, b) && Scoped(cfg, AttachedWorld(a, b), a)
    ensures var w := AttachedWorld(a, b);
            var w' := AfterDetach(w, a, b);
            && Valid(w) && AttachedTo(w, a, b) && Bound(cfg, w, w') && Deleted(false, w', a, w')
            && a in Stranded(cfg, w, w')
            && (forall u :: CleanRun(cfg, w', u) ==> a in u.live)
  {
    var w := AttachedWorld(a, b);
    var w' := AfterDetach(w, a, b);
    AttachedWorldIsValid(a, b);
    BoundReflexive(cfg, w);
    DetachExtends(cfg, w, w, a, b);
    DetachedIsForgotten(cfg, a, b);
    if Stuck(cfg, w, a) { OnlyHeldIsStuck(cfg, w, a); }
    forall u | CleanRun(cfg, w', u) ensures a in u.live { assert Framed(cfg, w', u); }
  }

  lemma AttachedWorldIsValid(a: Resource, b: Resource)
    requires MayAttach(a, b)
    ensures Valid(AttachedWorld(a, b)) && !Held(AttachedWorld(a, b), a)
  {
  }

  lemma DetachedIsForgotten(cfg: SweepConfig, a: Resource, b: Resource)
    requires MayAttach(a, b)
    ensures var w' := AfterDetach(AttachedWorld(a, b), a, b); w'.live == {a, b} && !Scoped(cfg, w', a)
  {
    assert !Held(AttachedWorld(a, b), a);
    assert AfterDetach(AttachedWorld(a, b), a, b).edges == {};
  }

  // ── What the premises are for ──────────────────────────────────────────────

  datatype Call = Delete(r: Resource) | Wait(r: Resource) | Revoke(group: Resource, side: Link)

  /** What a call that gets through does. */
  function After(w: World, call: Call): World {
    match call
    case Delete(r) => AfterDelete(w, r)
    case Wait(r) => AfterWait(w, r)
    case Revoke(group, side) => AfterRevoke(w, group, side)
  }

  function AfterAll(w: World, calls: seq<Call>): World
    decreases calls
  {
    if calls == [] then w else AfterAll(After(w, calls[0]), calls[1..])
  }

  lemma First(w: World, call: Call, rest: seq<Call>)
    ensures AfterAll(w, [call] + rest) == AfterAll(After(w, call), rest)
  {
    assert ([call] + rest)[1..] == rest;
  }

  lemma Four(w: World, a: Call, b: Call, c: Call, d: Call)
    ensures AfterAll(w, [a, b, c, d]) == After(After(After(After(w, a), b), c), d)
  {
    var w2 := After(After(w, a), b);
    assert [a, b, c, d] == [a] + [b, c, d] && [b, c, d] == [b] + [c, d] && [c, d] == [c] + [d] && [d] == [d] + [];
    First(w, a, [b, c, d]);
    First(After(w, a), b, [c, d]);
    First(w2, c, [d]);
    First(After(w2, c), d, []);
  }

  /** The sweep is responsible for `r`, nothing holds it, and it is still there. */
  ghost predicate Missed(cfg: SweepConfig, w: World, w': World, r: Resource) {
    r in w'.live && Swept(cfg, w, r) && !Disposed(cfg, w, w', r)
  }

  lemma Refused(w: World, e: Edge)
    requires e in w.edges && Blocks(w, e, e.blocked)
    ensures AfterDelete(w, e.blocked) == w
  {
  }

  // ── A VPC with two owners ──────────────────────────────────────────────────

  /** The first owner's cleanup deletes the shared VPC; the second owner has none any more, so
      nobody looks for its address. */
  lemma SharersShareAddressesIsNeeded(cfg: SweepConfig, t: Target, u: Target, v: VpcInfo, eip: Resource)
    requires cfg.targets == [t, u] && OwnsVpc(t, v) && OwnsVpc(u, v) && OwnsEip(u, eip) && !OwnsEip(t, eip)
    ensures var w := AddressWorld(v, eip);
            var w' := AfterAll(w, [Delete(Vpc(v))]);
            && Valid(w) && NatsGoInTime(cfg, w) && RulesGoInTime(cfg, w) && DefaultsStayHome(cfg, w) && FewRoles(w)
            && !SharersShareAddresses(cfg, w) && !HasVpc(w', u) && Missed(cfg, w, w', eip)
  {
    var w := AddressWorld(v, eip);
    NoRoles(w);
    assert HasVpc(w, u) && t in cfg.targets && u in cfg.targets && cfg.targets[0] == t && cfg.targets[1] == u;
    LoneVpcGoes(v, eip);
    assert !Stuck(cfg, w, eip);
  }

  lemma LoneVpcGoes(v: VpcInfo, eip: Resource)
    requires eip.Eip?
    ensures Valid(AddressWorld(v, eip))
    ensures var w' := AfterAll(AddressWorld(v, eip), [Delete(Vpc(v))]); w'.live == {eip} && w'.deleting == {}
  {
    AddressWorldIsValid(v, eip);
    First(AddressWorld(v, eip), Delete(Vpc(v)), []);
  }

  // ── A rule that crosses VPCs ───────────────────────────────────────────────

  /** The group of the second VPC names the group of the first. */
  function CrossRule(a: VpcInfo, b: VpcInfo): World {
    var g, h := SecurityGroup(a, "g", false), SecurityGroup(b, "h", false);
    World({Vpc(a), Vpc(b), g, h}, {Edge(g, Vpc(a), Holds), Edge(h, Vpc(b), Holds), Edge(h, g, Ingress)}, {}, {})
  }

  /** The calls of one VPC's cleanup: strip the group's rules, delete it, delete the VPC. */
  function GroupCalls(v: VpcInfo, g: Resource): seq<Call> {
    [Revoke(g, Ingress), Revoke(g, Egress), Delete(g), Delete(Vpc(v))]
  }

  /** The first VPC's group is refused while the second one's rule names it, and nothing comes
      back to it once that rule is gone. */
  lemma RulesGoInTimeIsNeeded(cfg: SweepConfig, t: Target, u: Target, a: VpcInfo, b: VpcInfo)
    requires cfg.targets == [t, u] && a != b
    requires OwnsVpc(t, a) && !OwnsVpc(u, a) && OwnsVpc(u, b) && !OwnsVpc(t, b)
    ensures var w := CrossRule(a, b);
            var g, h := SecurityGroup(a, "g", false), SecurityGroup(b, "h", false);
            var w' := AfterAll(AfterAll(w, GroupCalls(a, g)), GroupCalls(b, h));
            && Valid(w) && SharersShareAddresses(cfg, w) && NatsGoInTime(cfg, w) && DefaultsStayHome(cfg, w)
            && FewRoles(w) && !RulesGoInTime(cfg, w) && Missed(cfg, w, w', g) && Missed(cfg, w, w', Vpc(a))
  {
    NoRoles(CrossRule(a, b));
    CrossRuleIsValid(a, b);
    OtherPremisesHold(cfg, CrossRule(a, b));
    RuleIsLate(cfg, t, u, a, b);
    NothingStuckInCrossRule(cfg, t, u, a, b);
    FirstVpcStays(a, b);
    SecondVpcGoes(a, b);
  }

  /** Without addresses and default groups only the rules of other groups matter. */
  lemma OtherPremisesHold(cfg: SweepConfig, w: World)
    requires forall r :: r in w.live ==> !r.Eip? && (r.SecurityGroup? ==> !r.isDefault)
    ensures SharersShareAddresses(cfg, w) && NatsGoInTime(cfg, w) && DefaultsStayHome(cfg, w)
  {
  }

  lemma CrossRuleIsValid(a: VpcInfo, b: VpcInfo)
    requires a != b
    ensures Valid(CrossRule(a, b))
  {
  }

  lemma RuleIsLate(cfg: SweepConfig, t: Target, u: Target, a: VpcInfo, b: VpcInfo)
    requires cfg.targets == [t, u] && a != b && OwnsVpc(t, a) && OwnsVpc(u, b) && !OwnsVpc(t, b)
    ensures !RulesGoInTime(cfg, CrossRule(a, b))
  {
    assert t in cfg.targets && u in cfg.targets && cfg.targets[0] == t;
    var e := Edge(SecurityGroup(b, "h", false), SecurityGroup(a, "g", false), Ingress);
    assert Crosses(cfg, CrossRule(a, b), e);
    forall i: nat | FirstOwner(cfg, b, i) ensures i == 1 {}
    assert !SweptBefore(cfg, b, a);
  }

  lemma NothingStuckInCrossRule(cfg: SweepConfig, t: Target, u: Target, a: VpcInfo, b: VpcInfo)
    requires cfg.targets == [t, u] && a != b && OwnsVpc(t, a) && OwnsVpc(u, b)
    ensures var w, g := CrossRule(a, b), SecurityGroup(a, "g", false);
            Swept(cfg, w, g) && !Stuck(cfg, w, g) && Swept(cfg, w, Vpc(a)) && !Stuck(cfg, w, Vpc(a))
  {
    var w := CrossRule(a, b);
    var g, h := SecurityGroup(a, "g", false), SecurityGroup(b, "h", false);
    assert t in cfg.targets && u in cfg.targets && SweptVpc(cfg, a) && SweptVpc(cfg, b);
    forall e | Blocks(w, e, g) ensures !Lasting(cfg, e) { assert e == Edge(h, g, Ingress); }
    assert !Stuck(cfg, w, g);
    forall e | Blocks(w, e, Vpc(a)) ensures e.blocker == g { assert e == Edge(g, Vpc(a), Holds); }
  }

  lemma FirstVpcStays(a: VpcInfo, b: VpcInfo)
    requires a != b
    ensures var w := CrossRule(a, b); AfterAll(w, GroupCalls(a, SecurityGroup(a, "g", false))) == w
  {
    var w := CrossRule(a, b);
    var g, h := SecurityGroup(a, "g", false), SecurityGroup(b, "h", false);
    assert AfterRevoke(w, g, Ingress) == w && AfterRevoke(w, g, Egress) == w;
    Refused(w, Edge(h, g, Ingress));
    Refused(w, Edge(g, Vpc(a), Holds));
    Four(w, Revoke(g, Ingress), Revoke(g, Egress), Delete(g), Delete(Vpc(a)));
  }

  lemma SecondVpcGoes(a: VpcInfo, b: VpcInfo)
    requires a != b
    ensures var g := SecurityGroup(a, "g", false);
            var w' := AfterAll(CrossRule(a, b), GroupCalls(b, SecurityGroup(b, "h", false)));
            w'.live == {Vpc(a), g} && w'.deleting == {}
  {
    var w := CrossRule(a, b);
    var g, h := SecurityGroup(a, "g", false), SecurityGroup(b, "h", false);
    var bare := w.(edges := {Edge(g, Vpc(a), Holds), Edge(h, Vpc(b), Holds)});
    assert AfterRevoke(w, h, Ingress) == bare && AfterRevoke(bare, h, Egress) == bare;
    Taken(bare, h);
    var empty := bare.(live := bare.live - {h});
    Taken(empty, Vpc(b));
    Four(w, Revoke(h, Ingress), Revoke(h, Egress), Delete(h), Delete(Vpc(b)));
  }

  // ── A NAT gateway on another cluster's address ─────────────────────────────

  function BorrowedAddress(a: VpcInfo, b: VpcInfo, eip: Resource): World {
    var gw := Nat(b, "n");
    World({Vpc(a), Vpc(b), gw, eip}, {Edge(gw, eip, Holds), Edge(gw, Vpc(b), Holds)}, {}, {})
  }

  /** The owner's cleanup comes first and is refused the address; the borrower's cleanup deletes
      the NAT gateway but not an address that is not its own. */
  lemma NatsGoInTimeIsNeeded(cfg: SweepConfig, t: Target, u: Target, a: VpcInfo, b: VpcInfo, eip: Resource)
    requires cfg.targets == [t, u] && a != b && t.region == u.region
    requires OwnsVpc(t, a) && !OwnsVpc(u, a) && OwnsVpc(u, b) && !OwnsVpc(t, b) && OwnsEip(t, eip) && !OwnsEip(u, eip)
    ensures var w := BorrowedAddress(a, b, eip);
            var gw := Nat(b, "n");
            var w' := AfterAll(AfterDelete(w, eip), [Delete(Vpc(a)), Delete(gw), Wait(gw), Delete(Vpc(b))]);
            && Valid(w) && SharersShareAddresses(cfg, w) && RulesGoInTime(cfg, w) && DefaultsStayHome(cfg, w)
            && FewRoles(w) && !NatsGoInTime(cfg, w) && Missed(cfg, w, w', eip)
  {
    BorrowedIsValid(a, b, eip);
    BorrowedIsOwned(cfg, t, u, a, b, eip);
    BorrowedIsNotStuck(cfg, t, u, a, b, eip);
    AddressIsLeft(a, b, eip);
  }

  lemma BorrowedIsValid(a: VpcInfo, b: VpcInfo, eip: Resource)
    requires a != b && eip.Eip? && eip.region == b.region
    ensures Valid(BorrowedAddress(a, b, eip))
  {
  }

  lemma BorrowedIsOwned(cfg: SweepConfig, t: Target, u: Target, a: VpcInfo, b: VpcInfo, eip: Resource)
    requires cfg.targets == [t, u] && a != b
    requires OwnsVpc(t, a) && !OwnsVpc(u, a) && OwnsVpc(u, b) && !OwnsVpc(t, b) && OwnsEip(t, eip) && !OwnsEip(u, eip)
    ensures var w := BorrowedAddress(a, b, eip);
            && SharersShareAddresses(cfg, w) && RulesGoInTime(cfg, w) && DefaultsStayHome(cfg, w)
            && FewRoles(w) && !NatsGoInTime(cfg, w)
  {
    var w := BorrowedAddress(a, b, eip);
    NoRoles(w);
    assert cfg.targets[0] == t && cfg.targets[1] == u;
    assert Edge(Nat(b, "n"), eip, Holds) in w.edges && FirstOwner(cfg, b, 1);
  }

  lemma BorrowedIsNotStuck(cfg: SweepConfig, t: Target, u: Target, a: VpcInfo, b: VpcInfo, eip: Resource)
    requires cfg.targets == [t, u] && OwnsVpc(t, a) && OwnsVpc(u, b) && OwnsEip(t, eip)
    ensures Swept(cfg, BorrowedAddress(a, b, eip), eip) && !Stuck(cfg, BorrowedAddress(a, b, eip), eip)
  {
    var w, gw := BorrowedAddress(a, b, eip), Nat(b, "n");
    assert t in cfg.targets && u in cfg.targets && SweptVpc(cfg, b) && HasVpc(w, t);
    forall e | Blocks(w, e, eip) ensures e.blocker == gw {}
    forall e ensures !Blocks(w, e, gw) {}
    assert !Stuck(cfg, w, gw);
  }

  lemma AddressIsLeft(a: VpcInfo, b: VpcInfo, eip: Resource)
    requires a != b && eip.Eip?
    ensures var gw := Nat(b, "n");
            var w := BorrowedAddress(a, b, eip);
            var w' := AfterAll(w, [Delete(Vpc(a)), Delete(gw), Wait(gw), Delete(Vpc(b))]);
            AfterDelete(w, eip) == w && w'.live == {eip} && w'.deleting == {}
  {
    var w, gw := BorrowedAddress(a, b, eip), Nat(b, "n");
    Refused(w, Edge(gw, eip, Holds));
    Taken(w, Vpc(a));
    var w1 := w.(live := w.live - {Vpc(a)});
    var w2 := w1.(deleting := {gw});
    assert !Blocked(w1, gw) && AfterDelete(w1, gw) == w2;
    var w3 := w1.(live := w1.live - {gw});
    assert AfterWait(w2, gw) == w3;
    Taken(w3, Vpc(b));
    var w4 := w3.(live := w3.live - {Vpc(b)});
    Four(w, Delete(Vpc(a)), Delete(gw), Wait(gw), Delete(Vpc(b)));
  }

  // ── A rule of a default group ──────────────────────────────────────────────

  /** The default group of the first VPC names the group of the second. */
  function DefaultRule(a: VpcInfo, b: VpcInfo): World {
    var d, g := SecurityGroup(a, "d", true), SecurityGroup(b, "g", false);
    World({Vpc(a), Vpc(b), d, g}, {Edge(g, Vpc(b), Holds), Edge(d, g, Ingress)}, {}, {})
  }

  /** No rule of the default group is ever stripped, so the named group is out of reach; but the
      group goes with its VPC, and then what was out of reach is deleted. */
  lemma DefaultsStayHomeIsNeeded(cfg: SweepConfig, t: Target, u: Target, a: VpcInfo, b: VpcInfo)
    requires cfg.targets == [t, u] && a != b && OwnsVpc(t, a) && OwnsVpc(u, b)
    ensures var w, g := DefaultRule(a, b), SecurityGroup(b, "g", false);
            var w' := AfterAll(AfterDelete(w, Vpc(a)), GroupCalls(b, g));
            && Valid(w) && InOrder(cfg, w) && !DefaultsStayHome(cfg, w)
            && Swept(cfg, w, g) && Stuck(cfg, w, g) && g !in w'.live
  {
    NoRoles(DefaultRule(a, b));
    DefaultRuleIsValid(a, b);
    OnlyDefaultsCross(cfg, DefaultRule(a, b));
    GroupIsStuck(cfg, t, u, a, b);
    DefaultGoesWithVpc(a, b);
  }

  lemma OnlyDefaultsCross(cfg: SweepConfig, w: World)
    requires forall r :: r in w.live ==> !r.Eip?
    requires forall e :: (e in w.edges && (e.link.Ingress? || e.link.Egress?) && e.blocker.SecurityGroup?) ==>
               e.blocker.isDefault
    ensures SharersShareAddresses(cfg, w) && NatsGoInTime(cfg, w) && RulesGoInTime(cfg, w)
  {
  }

  lemma DefaultRuleIsValid(a: VpcInfo, b: VpcInfo)
    requires a != b
    ensures Valid(DefaultRule(a, b))
  {
  }

  lemma GroupIsStuck(cfg: SweepConfig, t: Target, u: Target, a: VpcInfo, b: VpcInfo)
    requires cfg.targets == [t, u] && a != b && OwnsVpc(t, a) && OwnsVpc(u, b)
    ensures var w, g := DefaultRule(a, b), SecurityGroup(b, "g", false);
            !DefaultsStayHome(cfg, w) && Swept(cfg, w, g) && Stuck(cfg, w, g)
  {
    var w, d, g := DefaultRule(a, b), SecurityGroup(a, "d", true), SecurityGroup(b, "g", false);
    assert t in cfg.targets && u in cfg.targets && SweptVpc(cfg, a) && SweptVpc(cfg, b);
    assert Crosses(cfg, w, Edge(d, g, Ingress));
    assert Blocks(w, Edge(d, g, Ingress), g) && Lasting(cfg, Edge(d, g, Ingress)) && !Swept(cfg, w, d);
  }

  lemma DefaultGoesWithVpc(a: VpcInfo, b: VpcInfo)
    requires a != b
    ensures var w, g := DefaultRule(a, b), SecurityGroup(b, "g", false);
            g !in AfterAll(AfterDelete(w, Vpc(a)), GroupCalls(b, g)).live
  {
    var w, d, g := DefaultRule(a, b), SecurityGroup(a, "d", true), SecurityGroup(b, "g", false);
    assert Accepts(w, Vpc(a)) && GoesWith(d, Vpc(a)) && !GoesWith(g, Vpc(a)) && !GoesWith(Vpc(b), Vpc(a));
    var w1 := w.(live := {Vpc(b), g});
    assert AfterDelete(w, Vpc(a)) == w1;
    var w2 := AfterRevoke(AfterRevoke(w1, g, Ingress), g, Egress);
    assert w2 == w1;
    Taken(w1, g);
    var w3 := w1.(live := w1.live - {g});
    Taken(w3, Vpc(b));
    Four(w1, Revoke(g, Ingress), Revoke(g, Egress), Delete(g), Delete(Vpc(b)));
  }

  // ── More than a thousand roles ─────────────────────────────────────────────

  function Deletions(page: seq<Resource>): seq<Call> {
    if page == [] then [] else [Delete(page[0])] + Deletions(page[1..])
  }

  lemma {:induction false} OnlyThePageGoes(w: World, page: seq<Resource>, r: Resource)
    requires r in w.live && r !in page && (forall p :: p in page ==> p.IamRole?) && w.deleting == {}
    ensures r in AfterAll(w, Deletions(page)).live && AfterAll(w, Deletions(page)).deleting == {}
    decreases page
  {
    if page != [] {
      assert page[0] in page && page[0].IamRole? && page[0] != r;
      assert forall c :: GoesWith(c, page[0]) ==> c == page[0];
      var w' := AfterDelete(w, page[0]);
      OnlyThePageGoes(w', page[1..], r);
      assert Deletions(page)[1..] == Deletions(page[1..]);
    }
  }

  /** A role that a listing of at most a thousand entries does not show. */
  lemma SomeRoleIsOmitted(w: World, page: seq<Resource>) returns (r: Resource)
    requires !FewRoles(w) && |page| <= 1000
    ensures r in Roles(w) && r !in page
  {
    var shown := set p | p in page;
    ElementCount(page);
    if Roles(w) <= shown { SubsetIsSmaller(Roles(w), shown); }
    r :| r in Roles(w) && r !in shown;
  }

  /** With more than a thousand roles of the cluster and nothing in their way, every listing that
      is cut off there leaves one of them to stay. */
  lemma FewRolesIsNeeded(cfg: SweepConfig, t: Target, w: World, page: seq<Resource>)
    requires cfg.targets == [t] && cfg.globalRoles == [] && Valid(w) && w.edges == {} && w.deleting == {}
    requires forall r :: r in w.live ==> r.IamRole? && t.clusterName <= r.role && r.role != "None"
    requires |page| <= 1000 && forall p :: p in page ==> p in w.live
    ensures SharersShareAddresses(cfg, w) && NatsGoInTime(cfg, w) && RulesGoInTime(cfg, w) && DefaultsStayHome(cfg, w)
    ensures !FewRoles(w) ==> exists r :: Missed(cfg, w, AfterAll(w, Deletions(page)), r)
  {
    if !FewRoles(w) {
      var r := SomeRoleIsOmitted(w, page);
      OnlyThePageGoes(w, page, r);
      assert t in cfg.targets && Swept(cfg, w, r);
      assert !Stuck(cfg, w, r);
      assert Missed(cfg, w, AfterAll(w, Deletions(page)), r);
    }
  }
}
