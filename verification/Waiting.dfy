/** The deadline loops of the teardown (bootstrap-rs/src/teardown.rs): look first, then compare
    the clock with the deadline, then sleep. */
module Waiting {

  /** What a loop of this kind meets: whether the `i`-th look finds everything gone, and how many
      seconds after the start the clock is read in round `i`. */
  datatype Watch = Watch(gone: nat -> bool, clock: nat -> nat, timeout: nat)

  /** Sleeping takes at least as long as it should. */
  ghost predicate Ticks(w: Watch, pause: nat) {
    pause > 0 && forall i: nat {:trigger Tick(w, pause, i)} :: Tick(w, pause, i)
  }

  predicate Tick(w: Watch, pause: nat, i: nat) { w.clock(i) + pause <= w.clock(i + 1) }

  /** The loop goes past round `i`. */
  predicate GoesOn(w: Watch, i: nat) {
    !w.gone(i) && w.clock(i) < w.timeout
  }

  /** The round in which the loop ends. */
  function LastRound(w: Watch, pause: nat, i: nat): (r: nat)
    requires Ticks(w, pause)
    ensures i <= r && !GoesOn(w, r)
    ensures forall k :: i <= k < r ==> GoesOn(w, k)
    decreases w.timeout - w.clock(i)
  {
    assert Tick(w, pause, i);
    if GoesOn(w, i) then LastRound(w, pause, i + 1) else i
  }

  predicate Confirmed(w: Watch, pause: nat)
    requires Ticks(w, pause)
  {
    w.gone(LastRound(w, pause, 0))
  }

  lemma {:induction false} ClockAdvances(w: Watch, pause: nat, i: nat)
    requires Ticks(w, pause)
    ensures w.clock(0) + i * pause <= w.clock(i)
  {
    if i > 0 {
      ClockAdvances(w, pause, i - 1);
      assert Tick(w, pause, i - 1);
    }
  }

  /** The wait confirms exactly when some look finds everything gone before a round in which
      something remained reads the deadline: a look at or after the deadline still counts. */
  lemma ConfirmedIff(w: Watch, pause: nat)
    requires Ticks(w, pause)
    ensures Confirmed(w, pause) <==> exists r: nat :: w.gone(r) && forall k :: 0 <= k < r ==> w.clock(k) < w.timeout
  {
    var last := LastRound(w, pause, 0);
    forall k: nat | k < last ensures w.clock(k) < w.timeout { assert GoesOn(w, k); }
    if r: nat :| w.gone(r) && forall k :: 0 <= k < r ==> w.clock(k) < w.timeout {
      assert last < r ==> w.clock(last) < w.timeout;
      assert last > r ==> GoesOn(w, r);
    }
  }

  /** The number of looks is bounded by the timeout. */
  lemma RoundsBounded(w: Watch, pause: nat)
    requires Ticks(w, pause)
    ensures LastRound(w, pause, 0) * pause < w.timeout + pause
  {
    var last := LastRound(w, pause, 0);
    if last > 0 {
      ClockAdvances(w, pause, last - 1);
      assert GoesOn(w, last - 1);
      assert last * pause == (last - 1) * pause + pause;
    }
  }
}
