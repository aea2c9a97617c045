/** The wait for the management cluster's kubeconfig secret, in the binary
    (bootstrap-rs/src/main.rs, `pivot_wait_for_management_cluster`) and in the script it was
    ported from (pivot.sh, `wait_for_management_cluster`). */
module Polling {

  /** The number of probes that the settings pay for, at least one. */
  function Budget(timeout: nat, interval: nat): (n: nat)
    requires interval > 0
    ensures n > 0 && n * interval <= if timeout < interval then interval else timeout
    ensures timeout < (n + 1) * interval
  {
    QuotientBounds(timeout, interval);
    if timeout / interval > 1 then timeout / interval else 1
  }

  lemma QuotientBounds(timeout: nat, interval: nat)
    requires interval > 0
    ensures (timeout / interval) * interval <= timeout < (timeout / interval + 1) * interval
  {
    assert timeout == (timeout / interval) * interval + timeout % interval;
  }

  /** The secret is there from second `since` on. */
  ghost predicate StaysFrom(found: nat -> bool, since: nat) {
    forall t :: t >= since ==> found(t)
  }

  /** Probe `n` is the first that finds the secret. */
  ghost predicate FirstHit(found: nat -> bool, interval: nat, n: nat) {
    found(n * interval) && forall k: nat :: k < n ==> !found(k * interval)
  }

  /** `found(t)`: a probe `t` seconds after the start finds the secret. One probe per interval,
      and one more when the budget is used up. */
  method AwaitSecret(found: nat -> bool, timeout: nat, interval: nat) returns (ok: bool, slept: nat)
    requires interval > 0
    ensures ok <==> exists k: nat :: k <= Budget(timeout, interval) && found(k * interval)
    ensures slept <= if timeout < interval then interval else timeout
    ensures ok ==> exists n: nat :: FirstHit(found, interval, n) && slept == n * interval
    ensures !ok ==> slept == Budget(timeout, interval) * interval
  {
    var attempts := Budget(timeout, interval);
    slept := 0;
    ok := false;
    ghost var n := 0;
    for i := 0 to attempts
      invariant slept == n * interval && n == i && !ok
      invariant forall k: nat :: k < n ==> !found(k * interval)
    {
      ok := found(slept);
      if ok { break; }
      slept := slept + interval;
      n := n + 1;
    }
    assert n * interval <= attempts * interval by { Scale(n, attempts, interval); }
    if !ok { ok := found(slept); }
    assert ok ==> FirstHit(found, interval, n);
  }

  lemma Scale(a: nat, b: nat, f: nat)
    requires a <= b
    ensures a * f <= b * f
  {
    assert b * f == a * f + (b - a) * f;
  }

  /** The script's loop: no final probe, and the last sleep is skipped. */
  method AwaitSecretInScript(found: nat -> bool, timeout: nat, interval: nat) returns (ok: bool)
    requires interval > 0
    ensures ok <==> exists k: nat :: k < Budget(timeout, interval) && found(k * interval)
  {
    var maxAttempts := timeout / interval;
    var attempts, slept := 0, 0;
    while !found(slept)
      invariant slept == attempts * interval && attempts < Budget(timeout, interval)
      invariant forall k: nat :: k < attempts ==> !found(k * interval)
      decreases Budget(timeout, interval) - attempts
    {
      attempts := attempts + 1;
      if attempts >= maxAttempts { return false; }
      slept := slept + interval;
    }
    ok := true;
  }

  lemma FirstHitIsOne(found: nat -> bool, interval: nat, a: nat, b: nat)
    requires FirstHit(found, interval, a) && FirstHit(found, interval, b)
    ensures a == b
  {
    assert found(a * interval) && found(b * interval);
  }

  /** Both waits against the same cluster: the binary finds the secret whenever the script does,
      and it alone finds it exactly when the first probe to succeed is the one at the end. */
  method BinaryRefinesScript(found: nat -> bool, timeout: nat, interval: nat)
    returns (binary: bool, script: bool, slept: nat)
    requires interval > 0
    ensures script ==> binary
    ensures binary && !script <==> FirstHit(found, interval, Budget(timeout, interval))
    ensures binary && !script ==> slept == Budget(timeout, interval) * interval
  {
    binary, slept := AwaitSecret(found, timeout, interval);
    script := AwaitSecretInScript(found, timeout, interval);
    var n := Budget(timeout, interval);
    if script {
      ghost var k: nat :| k < n && found(k * interval);
      assert k <= n && found(k * interval);
    }
    if FirstHit(found, interval, n) { assert n <= n && found(n * interval); }
    if binary && !script {
      assert FirstHit(found, interval, n);
      ghost var k: nat :| FirstHit(found, interval, k) && slept == k * interval;
      FirstHitIsOne(found, interval, k, n);
    }
  }

  /** A secret that stays is found if and only if it is there by the end of the budget. */
  lemma StayingSecretIsFoundIff(found: nat -> bool, timeout: nat, interval: nat, since: nat)
    requires interval > 0 && StaysFrom(found, since) && forall t: nat :: t < since ==> !found(t)
    ensures (exists k: nat :: k <= Budget(timeout, interval) && found(k * interval)) <==>
            since <= Budget(timeout, interval) * interval
  {
    var n := Budget(timeout, interval);
    if since <= n * interval { assert found(n * interval); }
    if k: nat :| k <= n && found(k * interval) { Scale(k, n, interval); }
  }
}
