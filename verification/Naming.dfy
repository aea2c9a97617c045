/** The S3 bucket name of a sweep target (bootstrap-rs/src/teardown.rs): the configured
    pattern has its account placeholder replaced first and its cluster placeholder second. */
module Naming {

  const ACCOUNT_SLOT: string := "{account_id}"
  const CLUSTER_SLOT: string := "{cluster_name}"

  /** Rust's `str::replace`: leftmost, non-overlapping occurrences. */
  function Replace(s: string, from: string, to: string): string
    requires from != []
    decreases |s|
  {
    if s == [] then []
    else if from <= s then to + Replace(s[|from|..], from, to)
    else [s[0]] + Replace(s[1..], from, to)
  }

  function BucketName(pattern: string, account: string, cluster: string): string {
    Replace(Replace(pattern, ACCOUNT_SLOT, account), CLUSTER_SLOT, cluster)
  }

  /** The reference: one left-to-right pass that fills both slots at once. */
  function FillSlots(pattern: string, account: string, cluster: string): string {
    if pattern == [] then []
    else if ACCOUNT_SLOT <= pattern then account + FillSlots(pattern[|ACCOUNT_SLOT|..], account, cluster)
    else if CLUSTER_SLOT <= pattern then cluster + FillSlots(pattern[|CLUSTER_SLOT|..], account, cluster)
    else [pattern[0]] + FillSlots(pattern[1..], account, cluster)
  }

  /** How many cluster slots the left-to-right pass fills. */
  function Slots(pattern: string): nat {
    if pattern == [] then 0
    else if ACCOUNT_SLOT <= pattern then Slots(pattern[|ACCOUNT_SLOT|..])
    else if CLUSTER_SLOT <= pattern then 1 + Slots(pattern[|CLUSTER_SLOT|..])
    else Slots(pattern[1..])
  }

  predicate IsDigit(c: char) { '0' <= c <= '9' }

  predicate IsAccountId(account: string) {
    account != [] && forall i :: 0 <= i < |account| ==> IsDigit(account[i])
  }

  /** Text without an opening brace is copied through a replacement unchanged. */
  lemma {:induction false} ReplaceCopies(plain: string, rest: string, from: string, to: string)
    requires from != [] && from[0] == '{'
    requires '{' !in plain
    ensures Replace(plain + rest, from, to) == plain + Replace(rest, from, to)
  {
    if plain == [] {
      assert plain + rest == rest;
    } else {
      var s := plain + rest;
      assert s[0] == plain[0] && s[1..] == plain[1..] + rest;
      ReplaceCopies(plain[1..], rest, from, to);
      assert plain == [plain[0]] + plain[1..];
    }
  }

  /** Account digits cannot complete a word that has neither a digit nor a brace. */
  lemma {:induction false} WordSurvivesBackwards(word: string, pattern: string, account: string)
    requires IsAccountId(account)
    requires forall i :: 0 <= i < |word| ==> !IsDigit(word[i]) && word[i] != '{'
    requires word <= Replace(pattern, ACCOUNT_SLOT, account)
    ensures word <= pattern
  {
    if word != [] {
      var out := Replace(pattern, ACCOUNT_SLOT, account);
      assert word[0] == out[0];
      assert ACCOUNT_SLOT <= pattern ==> account <= out;
      assert IsDigit(account[0]);
      assert out[1..] == Replace(pattern[1..], ACCOUNT_SLOT, account);
      assert word[1..] <= out[1..];
      WordSurvivesBackwards(word[1..], pattern[1..], account);
    }
  }

  /** Filling the account first and the cluster second is one simultaneous substitution. */
  lemma {:induction false} TwoStepsAreOne(pattern: string, account: string, cluster: string)
    requires IsAccountId(account)
    ensures BucketName(pattern, account, cluster) == FillSlots(pattern, account, cluster)
    decreases |pattern|
  {
    var once := Replace(pattern, ACCOUNT_SLOT, account);
    if pattern == [] {
    } else if ACCOUNT_SLOT <= pattern {
      var tail := pattern[|ACCOUNT_SLOT|..];
      ReplaceCopies(account, Replace(tail, ACCOUNT_SLOT, account), CLUSTER_SLOT, cluster);
      TwoStepsAreOne(tail, account, cluster);
    } else if CLUSTER_SLOT <= pattern {
      var tail := pattern[|CLUSTER_SLOT|..];
      var name := CLUSTER_SLOT[1..];
      assert pattern[1..] == name + tail;
      ReplaceCopies(name, tail, ACCOUNT_SLOT, account);
      var rest := Replace(tail, ACCOUNT_SLOT, account);
      assert once == ['{'] + (name + rest) == CLUSTER_SLOT + rest;
      assert once[|CLUSTER_SLOT|..] == rest;
      TwoStepsAreOne(tail, account, cluster);
    } else {
      var rest := Replace(pattern[1..], ACCOUNT_SLOT, account);
      assert once == [pattern[0]] + rest && once[1..] == rest;
      var name := CLUSTER_SLOT[1..];
      assert pattern == [pattern[0]] + pattern[1..];
      assert CLUSTER_SLOT == ['{'] + name;
      assert CLUSTER_SLOT <= once ==> name <= rest && pattern[0] == '{';
      if CLUSTER_SLOT <= once {
        WordSurvivesBackwards(name, pattern[1..], account);
        assert false;
      }
      TwoStepsAreOne(pattern[1..], account, cluster);
    }
  }

  /** The shape of the shipped pattern, `knr-ops-{account_id}-{cluster_name}-data`: one slot each,
      in this order, between pieces of plain text. */
  lemma EachSlotOnce(before: string, between: string, after: string, account: string, cluster: string)
    requires '{' !in before && '{' !in between && '{' !in after && '{' !in account
    ensures Replace(
              Replace(before + ("{account_id}" + (between + ("{cluster_name}" + after))), "{account_id}", account),
              "{cluster_name}", cluster)
         == before + (account + (between + (cluster + after)))
  {
    var rest := between + (CLUSTER_SLOT + after);
    ReplaceCopies(before, ACCOUNT_SLOT + rest, ACCOUNT_SLOT, account);
    FirstSlot(ACCOUNT_SLOT, rest, account);
    ReplaceCopies(between, CLUSTER_SLOT + after, ACCOUNT_SLOT, account);
    ForeignSlot(after, account);
    ReplaceCopies(before, account + (between + (CLUSTER_SLOT + after)), CLUSTER_SLOT, cluster);
    ReplaceCopies(account, between + (CLUSTER_SLOT + after), CLUSTER_SLOT, cluster);
    ReplaceCopies(between, CLUSTER_SLOT + after, CLUSTER_SLOT, cluster);
    FirstSlot(CLUSTER_SLOT, after, cluster);
    PlainStays(after, CLUSTER_SLOT, cluster);
  }

  lemma FirstSlot(slot: string, rest: string, value: string)
    requires slot != []
    ensures Replace(slot + rest, slot, value) == value + Replace(rest, slot, value)
  {
    assert (slot + rest)[|slot|..] == rest;
  }

  lemma PlainStays(plain: string, slot: string, value: string)
    requires '{' !in plain && slot != [] && slot[0] == '{'
    ensures Replace(plain, slot, value) == plain
  {
    assert plain + [] == plain;
    ReplaceCopies(plain, [], slot, value);
  }

  /** Filling the account leaves a cluster slot alone. */
  lemma ForeignSlot(after: string, account: string)
    requires '{' !in after
    ensures Replace(CLUSTER_SLOT + after, ACCOUNT_SLOT, account) == CLUSTER_SLOT + after
  {
    var name := CLUSTER_SLOT[1..];
    assert ACCOUNT_SLOT[1] == 'a' && CLUSTER_SLOT[1] == 'c';
    assert CLUSTER_SLOT == ['{'] + name && '{' !in name + after;
    assert (CLUSTER_SLOT + after)[1..] == name + after;
    PlainStays(name + after, ACCOUNT_SLOT, account);
  }

  /** The caller's guard against an empty account matters: split the cluster slot anywhere with
      the account slot, and an empty account makes the second step find a slot that the pattern
      does not contain. */
  lemma EmptyAccountForgesASlot(cut: nat, cluster: string)
    requires 0 < cut < |CLUSTER_SLOT|
    ensures var pattern := CLUSTER_SLOT[..cut] + ACCOUNT_SLOT + CLUSTER_SLOT[cut..];
            && BucketName(pattern, "", cluster) == cluster
            && FillSlots(pattern, "", cluster) == CLUSTER_SLOT
  {
    var middle, tail := CLUSTER_SLOT[1..cut], CLUSTER_SLOT[cut..];
    SlotShape();
    CutBreaksSlot(CLUSTER_SLOT, cut, ACCOUNT_SLOT);
    CutPieces(CLUSTER_SLOT, cut, ACCOUNT_SLOT);
    SplitSlot(middle, tail, cluster);
    ForgedSlotIsFilled(cluster);
  }

  lemma SlotShape()
    ensures CLUSTER_SLOT[0] == '{' && CLUSTER_SLOT[1] == 'c' && '{' !in CLUSTER_SLOT[1..] && ACCOUNT_SLOT[0] == '{'
  {
  }

  lemma CutPieces(slot: string, cut: nat, insert: string)
    requires 1 < |slot| && 0 < cut < |slot| && '{' !in slot[1..] && slot[0] == '{'
    ensures slot[..cut] + insert + slot[cut..] == ['{'] + (slot[1..cut] + (insert + slot[cut..]))
    ensures ['{'] + (slot[1..cut] + slot[cut..]) == slot
    ensures '{' !in slot[1..cut] && '{' !in slot[cut..]
    ensures slot[1..cut] == [] || slot[1..cut][0] == slot[1]
  {
    forall i | cut <= i < |slot| ensures slot[i] != '{' { assert slot[i] == slot[1..][i - 1]; }
    forall i | 1 <= i < cut ensures slot[i] != '{' { assert slot[i] == slot[1..][i - 1]; }
  }

  lemma CutBreaksSlot(slot: string, cut: nat, insert: string)
    requires 0 < cut < |slot| && '{' !in slot[1..] && insert != "" && insert[0] == '{' && slot[0] == '{'
    ensures !(slot <= ['{'] + (slot[1..cut] + (insert + slot[cut..])))
  {
    var pattern := ['{'] + (slot[1..cut] + (insert + slot[cut..]));
    assert pattern[cut] == '{' && slot[cut] == slot[1..][cut - 1];
  }

  lemma NoSlotHere(pattern: string, account: string, cluster: string)
    requires pattern != [] && !(ACCOUNT_SLOT <= pattern) && !(CLUSTER_SLOT <= pattern)
    ensures Replace(pattern, ACCOUNT_SLOT, account) == [pattern[0]] + Replace(pattern[1..], ACCOUNT_SLOT, account)
    ensures FillSlots(pattern, account, cluster) == [pattern[0]] + FillSlots(pattern[1..], account, cluster)
  {
  }

  lemma SplitSlot(middle: string, tail: string, cluster: string)
    requires '{' !in middle && '{' !in tail && (middle == [] || middle[0] == 'c')
    requires !(CLUSTER_SLOT <= ['{'] + (middle + (ACCOUNT_SLOT + tail)))
    ensures var pattern := ['{'] + (middle + (ACCOUNT_SLOT + tail));
            && Replace(pattern, ACCOUNT_SLOT, "") == ['{'] + (middle + tail)
            && FillSlots(pattern, "", cluster) == ['{'] + (middle + tail)
  {
    var rest := ACCOUNT_SLOT + tail;
    var pattern := ['{'] + (middle + rest);
    assert pattern[1] == (middle + rest)[0];
    assert pattern[1..] == middle + rest;
    assert ACCOUNT_SLOT[1] == 'a';
    NoSlotHere(pattern, "", cluster);
    DropEmptyAccount(tail, cluster);
    ReplaceCopies(middle, rest, ACCOUNT_SLOT, "");
    FillCopies(middle, rest, "", cluster);
  }

  lemma DropEmptyAccount(tail: string, cluster: string)
    requires '{' !in tail
    ensures Replace(ACCOUNT_SLOT + tail, ACCOUNT_SLOT, "") == tail
    ensures FillSlots(ACCOUNT_SLOT + tail, "", cluster) == tail
  {
    assert (ACCOUNT_SLOT + tail)[|ACCOUNT_SLOT|..] == tail && tail + [] == tail;
    ReplaceCopies(tail, [], ACCOUNT_SLOT, "");
    FillCopies(tail, [], "", cluster);
  }

  lemma ForgedSlotIsFilled(cluster: string)
    ensures Replace(CLUSTER_SLOT, CLUSTER_SLOT, cluster) == cluster
  {
    assert CLUSTER_SLOT[|CLUSTER_SLOT|..] == [];
    assert cluster + [] == cluster;
  }

  lemma FillPlain(pattern: string, account: string, cluster: string)
    requires pattern != [] && pattern[0] != '{'
    ensures FillSlots(pattern, account, cluster) == [pattern[0]] + FillSlots(pattern[1..], account, cluster)
  {
    SlotShape();
  }

  lemma {:induction false} FillCopies(plain: string, rest: string, account: string, cluster: string)
    requires '{' !in plain
    ensures FillSlots(plain + rest, account, cluster) == plain + FillSlots(rest, account, cluster)
  {
    if plain == [] {
      assert plain + rest == rest;
    } else {
      FillPlain(plain + rest, account, cluster);
      FillCopies(plain[1..], rest, account, cluster);
      Regroup(plain, rest, FillSlots(rest, account, cluster));
    }
  }

  lemma Regroup(plain: string, rest: string, filled: string)
    requires plain != []
    ensures (plain + rest)[0] == plain[0] && (plain + rest)[1..] == plain[1..] + rest
    ensures [plain[0]] + (plain[1..] + filled) == plain + filled
  {
  }

  /** A cluster slot anywhere in the pattern is a slot that the pass fills. */
  lemma {:induction false} OccurrenceIsSlot(pattern: string, at: nat)
    requires at <= |pattern| && CLUSTER_SLOT <= pattern[at..]
    ensures Slots(pattern) >= 1
    decreases |pattern|
  {
    if ACCOUNT_SLOT <= pattern {
      assert forall i :: 0 < i < |ACCOUNT_SLOT| ==> pattern[i] != '{';
      assert pattern[at] == '{';
      assert pattern[at + 1] == 'c' && pattern[1] == 'a';
      assert pattern[|ACCOUNT_SLOT|..][at - |ACCOUNT_SLOT|..] == pattern[at..];
      OccurrenceIsSlot(pattern[|ACCOUNT_SLOT|..], at - |ACCOUNT_SLOT|);
    } else if !(CLUSTER_SLOT <= pattern) {
      assert pattern[0..] == pattern;
      assert pattern[1..][at - 1..] == pattern[at..];
      OccurrenceIsSlot(pattern[1..], at - 1);
    }
  }

  lemma {:induction false} FilledLength(pattern: string, account: string, c: string, d: string)
    ensures |FillSlots(pattern, account, c)| - |FillSlots(pattern, account, d)| == Slots(pattern) * (|c| - |d|)
    decreases |pattern|
  {
    if pattern == [] {
    } else if ACCOUNT_SLOT <= pattern {
      FilledLength(pattern[|ACCOUNT_SLOT|..], account, c, d);
    } else if CLUSTER_SLOT <= pattern {
      FilledLength(pattern[|CLUSTER_SLOT|..], account, c, d);
      OneMore(Slots(pattern[|CLUSTER_SLOT|..]), |c| - |d|);
    } else {
      FilledLength(pattern[1..], account, c, d);
    }
  }

  lemma OneMore(k: nat, x: int)
    ensures (k + 1) * x == k * x + x
  {
  }

  lemma {:induction false} EqualFillsEqualNames(pattern: string, account: string, c: string, d: string)
    requires |c| == |d| && Slots(pattern) >= 1
    requires FillSlots(pattern, account, c) == FillSlots(pattern, account, d)
    ensures c == d
    decreases |pattern|
  {
    var l, r := FillSlots(pattern, account, c), FillSlots(pattern, account, d);
    if ACCOUNT_SLOT <= pattern {
      assert l[|account|..] == r[|account|..];
      EqualFillsEqualNames(pattern[|ACCOUNT_SLOT|..], account, c, d);
    } else if CLUSTER_SLOT <= pattern {
      assert c == l[..|c|] && d == r[..|d|];
    } else {
      assert l[1..] == r[1..];
      EqualFillsEqualNames(pattern[1..], account, c, d);
    }
  }

  /** Two clusters never share a bucket name when the pattern mentions the cluster at all. */
  lemma NamesAreInjective(pattern: string, at: nat, account: string, c: string, d: string)
    requires IsAccountId(account)
    requires at <= |pattern| && CLUSTER_SLOT <= pattern[at..]
    requires BucketName(pattern, account, c) == BucketName(pattern, account, d)
    ensures c == d
  {
    TwoStepsAreOne(pattern, account, c);
    TwoStepsAreOne(pattern, account, d);
    OccurrenceIsSlot(pattern, at);
    FilledLength(pattern, account, c, d);
    ScaledZero(Slots(pattern), |c| - |d|);
    EqualFillsEqualNames(pattern, account, c, d);
  }

  lemma ScaledZero(k: nat, x: int)
    requires k >= 1 && k * x == 0
    ensures x == 0
  {
  }
}
