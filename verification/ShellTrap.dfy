/** The shell teardown (teardown.sh): the flag that says the CAPI clusters are gone, the EXIT trap
    that deletes kind under it, and the wait loop that counts the seconds it slept. */
module ShellTrap {

  import opened Basics

  /** Where the script stops when a command there fails or a signal arrives. */
  datatype Step = Suspending | Deleting | Sweeping | Providers | Helm | Secrets | Removing

  /** What the script is told and what it meets. `crds`: the API server answers that it knows
      CAPI; `discovery`: how many Clusters the first listing shows; `counts(i)`: how many the
      `i`-th listing of the wait shows, None when the command fails. */
  datatype Script = Script(tools: bool, awsOnly: bool, force: bool, aws: bool, timeout: nat,
                           crds: bool, discovery: Option<nat>, counts: nat -> Option<nat>,
                           survives: Step -> bool)

  datatype Wait = Gone | TimedOut | Broken

  const INTERVAL: nat := 30

  /** The rounds that fit into the timeout, rounded up. */
  function Ceil(timeout: nat): nat { (timeout + INTERVAL - 1) / INTERVAL }

  /** Listing `r` shows that nothing is left, every one before it showed something. */
  predicate EmptyAt(s: Script, r: nat) {
    s.counts(r) == Some(0) && forall k: nat :: k < r ==> s.counts(k).Some? && s.counts(k).value > 0
  }

  predicate BrokenAt(s: Script, r: nat) {
    s.counts(r) == None && forall k: nat :: k < r ==> s.counts(k).Some? && s.counts(k).value > 0
  }

  /** The wait loop: `while true`, list, compare, sleep, count. */
  method WaitForClusters(s: Script) returns (result: Wait, listings: nat, sleeps: nat)
    ensures result == Gone <==> exists r: nat :: r <= Ceil(s.timeout) && EmptyAt(s, r)
    ensures result == Broken <==> exists r: nat :: r <= Ceil(s.timeout) && BrokenAt(s, r)
    ensures listings == sleeps + 1 && sleeps <= Ceil(s.timeout)
    ensures result == TimedOut ==> sleeps == Ceil(s.timeout)
    ensures result == Gone ==> EmptyAt(s, sleeps)
    ensures result == Broken ==> BrokenAt(s, sleeps)
  {
    var elapsed := 0;
    listings, sleeps := 0, 0;
    while true
      invariant elapsed == sleeps * INTERVAL && listings == sleeps <= Ceil(s.timeout)
      invariant forall k: nat :: k < sleeps ==> s.counts(k).Some? && s.counts(k).value > 0
      decreases Ceil(s.timeout) - sleeps
    {
      var remaining := s.counts(listings);
      listings := listings + 1;
      if remaining == None {
        assert BrokenAt(s, sleeps);
        return Broken, listings, sleeps;
      }
      if remaining.value == 0 {
        assert EmptyAt(s, sleeps);
        return Gone, listings, sleeps;
      }
      if elapsed >= s.timeout { return TimedOut, listings, sleeps; }
      sleeps := sleeps + 1;
      elapsed := elapsed + INTERVAL;
    }
  }

  /** Why the flag was set. */
  datatype Reason = NotSet | SeenEmpty | NothingFound | NoAnswer | AwsOnlyMode

  /** How a run ends: before the trap is armed, at some step, or regularly. */
  datatype End = Refused | Stopped(at: Step) | Completed

  class Shell {
    var confirmed: bool
    var armed: bool
    /** How often the deletion of kind was attempted. */
    var attempts: nat

    constructor ()
      ensures !confirmed && !armed && attempts == 0
    {
      confirmed, armed, attempts := false, false, 0;
    }

    method DeleteKindIfSafe(force: bool)
      modifies this`attempts
      ensures attempts == old(attempts) + if force || confirmed then 1 else 0
    {
      if force || confirmed { attempts := attempts + 1; }
    }

    /** What bash does when the script exits: run the EXIT trap, if there is one. */
    method Exit(force: bool)
      modifies this`attempts, this`armed
      ensures !armed
      ensures attempts == old(attempts) + if old(armed) && (force || confirmed) then 1 else 0
    {
      if armed {
        armed := false;
        DeleteKindIfSafe(force);
      }
    }
  }

  /** Steps 2 and 3; the first listing's failure is swallowed and reads as no Clusters. */
  method DeleteClusters(sh: Shell, s: Script) returns (ok: bool, reason: Reason)
    requires !sh.confirmed
    modifies sh`confirmed
    ensures ok <==> reason != NotSet
    ensures sh.confirmed == ok
    ensures reason == ReasonOf(s)
  {
    if s.awsOnly {
      sh.confirmed := true;
      return true, AwsOnlyMode;
    }
    if !s.crds {
      sh.confirmed := true;
      return true, NoAnswer;
    }
    if s.discovery == None || s.discovery == Some(0) {
      sh.confirmed := true;
      return true, NothingFound;
    }
    if !s.survives(Deleting) { return false, NotSet; }
    var result, listings, sleeps := WaitForClusters(s);
    match result {
      case Gone =>
        sh.confirmed := true;
        return true, SeenEmpty;
      case _ => return false, NotSet;
    }
  }

  ghost function ReasonOf(s: Script): Reason {
    if s.awsOnly then AwsOnlyMode
    else if !s.crds then NoAnswer
    else if s.discovery == None || s.discovery == Some(0) then NothingFound
    else if s.survives(Deleting) && (exists r: nat :: r <= Ceil(s.timeout) && EmptyAt(s, r)) then SeenEmpty
    else NotSet
  }

  // ── The whole script ───────────────────────────────────────────────────────

  predicate Starts(s: Script) { if s.awsOnly then s.aws else s.tools }

  /** The steps that the mode leaves out are those of the Kubernetes side, or the sweep. */
  predicate Takes(s: Script, at: Step) {
    match at
    case Deleting => true
    case Removing => true
    case Sweeping => s.aws
    case _ => !s.awsOnly
  }

  ghost predicate Fails(s: Script, at: Step) {
    Takes(s, at) && if at == Deleting then ReasonOf(s) == NotSet else !s.survives(at)
  }

  function Number(at: Step): nat {
    match at
    case Suspending => 1
    case Deleting => 2
    case Sweeping => 4
    case Providers => 5
    case Helm => 6
    case Secrets => 8
    case Removing => 9
  }

  /** The run ends at the first step that fails, and regularly if there is none. */
  ghost predicate EndsAt(s: Script, end: End) {
    match end
    case Refused => !Starts(s)
    case Stopped(at) =>
      Starts(s) && Fails(s, at) && forall b: Step :: Number(b) < Number(at) ==> !Fails(s, b)
    case Completed => Starts(s) && forall b: Step :: !Fails(s, b)
  }

  /** The run got past the wait. */
  predicate Reached(end: End) {
    end == Completed || (end.Stopped? && Number(end.at) > Number(Deleting))
  }

  /** The ways out on which kind is looked at: not before the trap is armed, not after its
      disarming by a stop in step 9, and not at the regular end of an AWS-only run. */
  predicate LooksAtKind(s: Script, end: End) {
    end != Refused && end != Stopped(Removing) && !(end == Completed && s.awsOnly)
  }

  /** On every way out kind is attempted at most once, and never unless the flag or the force
      switch is set; the flag is set exactly when the run got past the wait. */
  method RunScript(sh: Shell, s: Script) returns (end: End)
    requires !sh.confirmed && !sh.armed && sh.attempts == 0
    modifies sh
    ensures EndsAt(s, end) && !sh.armed
    ensures sh.confirmed <==> end != Refused && end != Stopped(Suspending) && end != Stopped(Deleting)
    ensures sh.attempts <= 1 && (sh.attempts == 1 ==> s.force || sh.confirmed)
    ensures sh.attempts == 1 <==>
            (s.force || sh.confirmed) && end != Refused && end != Stopped(Removing) && !(end == Completed && s.awsOnly)
    ensures sh.attempts == 1 <==> Attempts(s, end)
  {
    if s.awsOnly && !s.aws { return Refused; }
    if !s.awsOnly && !s.tools { return Refused; }
    sh.armed := true;
    end := Work(sh, s);
    if end == Completed {
      if !s.awsOnly { sh.DeleteKindIfSafe(s.force); }
    }
    sh.Exit(s.force);
  }

  /** Steps 1 to 8, and the disarming of the trap. */
  method Work(sh: Shell, s: Script) returns (end: End)
    requires sh.armed && !sh.confirmed && Starts(s)
    modifies sh`confirmed, sh`armed
    ensures EndsAt(s, end)
    ensures sh.armed <==> end != Completed && end != Stopped(Removing)
    ensures sh.confirmed <==> Reached(end)
  {
    if !s.awsOnly && !s.survives(Suspending) { return Stopped(Suspending); }
    var ok, reason := DeleteClusters(sh, s);
    if !ok { return Stopped(Deleting); }
    if s.aws && !s.survives(Sweeping) { return Stopped(Sweeping); }
    if !s.awsOnly {
      if !s.survives(Providers) { return Stopped(Providers); }
      if !s.survives(Helm) { return Stopped(Helm); }
      if !s.survives(Secrets) { return Stopped(Secrets); }
    }
    sh.armed := false;
    if !s.survives(Removing) { return Stopped(Removing); }
    return Completed;
  }

  lemma GoneIff(s: Script)
    requires !s.awsOnly
    ensures ReasonOf(s) != NotSet <==>
            || !s.crds || s.discovery == None || s.discovery == Some(0)
            || (s.survives(Deleting) &&
                exists r: nat :: r * 30 < s.timeout + 30 && s.counts(r) == Some(0) &&
                                 forall k: nat :: k < r ==> s.counts(k).Some? && s.counts(k).value > 0)
  {
    if r: nat :| r * 30 < s.timeout + 30 && s.counts(r) == Some(0) &&
                 forall k: nat :: k < r ==> s.counts(k).Some? && s.counts(k).value > 0 {
      assert r <= Ceil(s.timeout) && EmptyAt(s, r);
    }
    if r: nat :| r <= Ceil(s.timeout) && EmptyAt(s, r) { assert r * 30 < s.timeout + 30; }
  }

  /** How an AWS-only run ends: it can stop at the sweep and at the removal. */
  lemma EndOfAwsOnlyRun(s: Script, end: End)
    requires EndsAt(s, end) && s.awsOnly
    ensures end ==
            if !s.aws then Refused
            else if !s.survives(Sweeping) then Stopped(Sweeping)
            else if !s.survives(Removing) then Stopped(Removing)
            else Completed
  {
    assert Fails(s, Sweeping) <==> s.aws && !s.survives(Sweeping);
    assert Fails(s, Removing) <==> !s.survives(Removing);
  }

  /** How a full run ends, in the order of the script: it can stop at every step, at the sweep only
      if aws is there, and at the wait unless the Clusters count as gone. */
  lemma EndOfFullRun(s: Script, end: End)
    requires EndsAt(s, end) && !s.awsOnly
    ensures var gone := || !s.crds || s.discovery == None || s.discovery == Some(0)
                        || (s.survives(Deleting) &&
                            exists r: nat :: r * 30 < s.timeout + 30 && s.counts(r) == Some(0) &&
                                             forall k: nat :: k < r ==> s.counts(k).Some? && s.counts(k).value > 0);
            end ==
            if !s.tools then Refused
            else if !s.survives(Suspending) then Stopped(Suspending)
            else if !gone then Stopped(Deleting)
            else if s.aws && !s.survives(Sweeping) then Stopped(Sweeping)
            else if !s.survives(Providers) then Stopped(Providers)
            else if !s.survives(Helm) then Stopped(Helm)
            else if !s.survives(Secrets) then Stopped(Secrets)
            else if !s.survives(Removing) then Stopped(Removing)
            else Completed
  {
    GoneIff(s);
    assert Fails(s, Suspending) <==> !s.survives(Suspending);
    assert Fails(s, Deleting) <==> ReasonOf(s) == NotSet;
    assert Fails(s, Sweeping) <==> s.aws && !s.survives(Sweeping);
    assert Fails(s, Providers) <==> !s.survives(Providers);
    assert Fails(s, Helm) <==> !s.survives(Helm);
    assert Fails(s, Secrets) <==> !s.survives(Secrets);
    assert Fails(s, Removing) <==> !s.survives(Removing);
  }

  /** What a run that ends so does to kind; `RunScript` guarantees it of the real flag. */
  ghost predicate Attempts(s: Script, end: End) {
    (s.force || Reached(end)) && LooksAtKind(s, end)
  }

  /** Without the switch kind is attempted exactly when the Clusters counted as gone before the run
      ended, for one of the four reasons, and the run neither stopped in the removal itself nor
      was an AWS-only run that went well. */
  lemma UnforcedDeletionIff(s: Script, end: End)
    requires EndsAt(s, end) && !s.force
    ensures s.awsOnly ==> (Attempts(s, end) <==> s.aws && !s.survives(Sweeping))
    ensures !s.awsOnly ==>
              (Attempts(s, end) <==>
               && s.tools && s.survives(Suspending)
               && (|| !s.crds || s.discovery == None || s.discovery == Some(0)
                   || (s.survives(Deleting) &&
                       exists r: nat :: r * 30 < s.timeout + 30 && s.counts(r) == Some(0) &&
                                        forall k: nat :: k < r ==> s.counts(k).Some? && s.counts(k).value > 0))
               && (|| s.survives(Removing) || (s.aws && !s.survives(Sweeping))
                   || !s.survives(Providers) || !s.survives(Helm) || !s.survives(Secrets)))
  {
    if s.awsOnly { EndOfAwsOnlyRun(s, end); } else { EndOfFullRun(s, end); }
  }

  /** A wait that times out, or whose listing fails, leaves kind alone unless forced. */
  lemma TimedOutLeavesKind(s: Script, end: End)
    requires EndsAt(s, end) && Starts(s) && !s.force
    requires !s.awsOnly && s.crds && s.discovery.Some? && s.discovery.value > 0
    requires forall r: nat :: r <= Ceil(s.timeout) ==> s.counts(r) != Some(0)
    ensures !Attempts(s, end) && (s.survives(Suspending) ==> end == Stopped(Deleting))
  {
    assert Fails(s, Deleting);
  }

  /** An unreachable management cluster reads as one without CAPI, and kind is deleted. */
  lemma UnreachableClusterLosesKind(s: Script, end: End)
    requires EndsAt(s, end) && Starts(s) && !s.awsOnly && !s.crds
    requires s.survives(Suspending) && s.survives(Removing)
    ensures Attempts(s, end)
  {
    assert !Fails(s, Suspending) && !Fails(s, Deleting) && !Fails(s, Removing);
  }

  /** An AWS-only run is to leave the Kubernetes side alone; it does so at its regular end, but
      when a sweep command fails, the trap deletes kind. */
  lemma AwsOnlyDeletesKindIff(s: Script, end: End)
    requires EndsAt(s, end) && s.awsOnly && s.aws
    ensures Attempts(s, end) <==> !s.survives(Sweeping)
    ensures ReasonOf(s) == AwsOnlyMode
  {
    assert Fails(s, Sweeping) <==> !s.survives(Sweeping);
    assert end.Stopped? ==> end.at == Sweeping || end.at == Removing;
  }
}
