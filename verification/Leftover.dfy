/** Placeholders that a run of the component rewriting leaves behind, and what its leftover check
    gets to see of them (airgap/scripts/substitute-components.sh). */
module Leftover {
  import opened Template

  function Opening(name: string): string { "${" + name + ":=" }

  /** `s` starts with the opening of a placeholder. */
  ghost predicate Opens(s: string) {
    exists name :: IsName(name) && Opening(name) <= s
  }

  /** A placeholder starts where there is an opening and any closing brace after it. */
  lemma MatchIffOpens(s: string)
    ensures MatchAtStart(s).Match? <==> Opens(s) && '}' in s
  {
    var m := MatchAtStart(s);
    if m.Match? {
      var name, value := MatchIsSound(s);
      assert s[..m.end] == Opening(name) + (value + "}");
      assert s[m.end - 1] == s[..m.end][m.end - 1] == '}';
    }
    if Opens(s) && '}' in s {
      var name :| IsName(name) && Opening(name) <= s;
      var value := FirstClosing(s, Opening(name));
      var n := |Opening(name)| + |value| + 1;
      assert s == s[..n] + s[n..] && s[..n] == Placeholder(name, value);
      MatchIsComplete(name, value, s[n..]);
    }
  }

  /** What lies between the opening and the first closing brace. */
  lemma FirstClosing(s: string, opening: string) returns (value: string)
    requires opening <= s && '}' !in opening && '}' in s
    ensures IsDefault(value) && opening + value + "}" <= s
  {
    var b := BraceAt(s, |opening|);
    var i :| 0 <= i < |s| && s[i] == '}';
    assert opening == s[..|opening|] && i >= |opening|;
    value := s[|opening|..b];
    assert s[..b + 1] == opening + value + "}";
  }

  // ── Defaults that are placeholders themselves ──────────────────────────────

  lemma SubstOne(name: string, value: string, rest: string)
    requires IsName(name) && IsDefault(value)
    ensures Subst(Placeholder(name, value) + rest) == value + Subst(rest)
  {
    var m := Match(|name| + 4, |name| + |value| + 5);
    MatchIsComplete(name, value, rest);
    PlaceholderSlices(name, value, rest, m.start, m.end);
    SubstMatch(Placeholder(name, value) + rest, m, value, rest);
  }

  lemma PlaceholderSlices(name: string, value: string, rest: string, start: nat, end: nat)
    requires start == |name| + 4 && end == start + |value| + 1
    ensures var s := Placeholder(name, value) + rest;
            start < end <= |s| && s[start..end - 1] == value && s[end..] == rest
  {
  }

  lemma SubstBrace(rest: string)
    ensures Subst("}" + rest) == "}" + Subst(rest)
  {
    assert ("}" + rest)[1..] == rest;
  }

  function Nested(outer: string, inner: string, value: string): string {
    Placeholder(outer, Placeholder(inner, value))
  }

  lemma PlaceholderShows(before: string, name: string, value: string, after: string)
    requires IsName(name) && IsDefault(value)
    ensures HasPlaceholder(before + (Opening(name) + value) + ("}" + after))
  {
    var s := before + (Opening(name) + value) + ("}" + after);
    assert s[|before|..] == Placeholder(name, value) + after;
    MatchIsComplete(name, value, after);
  }

  lemma RestShows(s: string)
    requires s != "" && HasPlaceholder(Subst(s[Consumed(s)..]))
    ensures HasPlaceholder(Subst(s))
  {
    ShowsAfter(Subst(s), Output(s), Subst(s[Consumed(s)..]));
  }

  /** Substitution leaves a placeholder wherever the text had a nested one: the scan either
      reaches the outer one and turns it into the inner one, or it comes along with a match that
      starts earlier and turns that into the outer one. */
  lemma {:induction false} NestedLeavesPlaceholder(
    before: string, outer: string, inner: string, value: string, after: string)
    requires IsName(outer) && IsName(inner) && IsDefault(value)
    ensures HasPlaceholder(Subst(before + Nested(outer, inner, value) + after))
    decreases |before|
  {
    var nested := Nested(outer, inner, value);
    var s := before + nested + after;
    if before == "" {
      assert before + nested == nested;
      NestedFirst(outer, inner, value, after);
    } else if Consumed(s) <= |before| {
      DropFront(before, nested, after, Consumed(s));
      NestedLeavesPlaceholder(before[Consumed(s)..], outer, inner, value, after);
      RestShows(s);
    } else {
      NestedPieces(outer, inner, value, before, after);
      NestedInMatch(s, before, outer, Opening(inner) + value, after);
    }
  }

  lemma DropFront(a: string, b: string, c: string, n: nat)
    requires n <= |a|
    ensures (a + b + c)[n..] == a[n..] + b + c
  {
  }

  lemma NestedPieces(outer: string, inner: string, value: string, before: string, after: string)
    ensures before + Nested(outer, inner, value) + after ==
            before + (Opening(outer) + (Opening(inner) + value)) + ("}" + ("}" + after))
  {
  }

  lemma NestedFirst(outer: string, inner: string, value: string, after: string)
    requires IsName(outer) && IsName(inner) && IsDefault(value)
    ensures HasPlaceholder(Subst(Nested(outer, inner, value) + after))
  {
    var cut := Opening(inner) + value;
    assert Nested(outer, inner, value) + after == Placeholder(outer, cut) + ("}" + after);
    SubstOne(outer, cut, "}" + after);
    SubstBrace(after);
    PlaceholderShows("", inner, value, Subst(after));
    assert "" + cut == cut;
  }

  lemma NestedInMatch(s: string, before: string, outer: string, cut: string, after: string)
    requires IsName(outer) && IsDefault(cut) && before != ""
    requires s == before + (Opening(outer) + cut) + ("}" + ("}" + after))
    requires MatchAtStart(s).Match? && MatchAtStart(s).end > |before|
    ensures HasPlaceholder(Subst(s))
  {
    var rest := "}" + after;
    var head := OverlapResult(s, before, Opening(outer) + cut, rest);
    SubstBrace(after);
    PlaceholderShows(head, outer, cut, Subst(after));
  }

  lemma OverlapResult(s: string, before: string, body: string, rest: string) returns (head: string)
    requires before != "" && body != "" && body[0] == '$' && '}' !in body && s == before + body + ("}" + rest)
    requires MatchAtStart(s).Match? && MatchAtStart(s).end > |before|
    ensures Subst(s) == head + body + Subst(rest)
  {
    OverlapEndsAtBrace(s, before, body, rest);
    var m := MatchAtStart(s);
    head := before[m.start..];
    assert s[m.start..m.end - 1] == head + body && s[m.end..] == rest;
  }

  /** A match that starts before `body` and reaches into it ends at the brace that follows, and
      all of `body` belongs to its default. */
  lemma OverlapEndsAtBrace(s: string, before: string, body: string, rest: string)
    requires before != "" && body != "" && body[0] == '$' && '}' !in body && s == before + body + ("}" + rest)
    requires MatchAtStart(s).Match? && MatchAtStart(s).end > |before|
    ensures MatchAtStart(s).start <= |before| && MatchAtStart(s).end == |before| + |body| + 1
  {
    var p, q := |before|, |before| + |body|;
    MatchShape(s);
    assert s[p] == body[0] && s[q] == '}';
    forall i | p <= i < q ensures s[i] != '}' { assert s[i] == body[i - p]; }
  }

  /** A match holds its only dollar sign outside the default in front, its only closing brace at
      the end. */
  lemma MatchShape(s: string)
    requires MatchAtStart(s).Match?
    ensures var m := MatchAtStart(s);
            && (forall i :: 0 < i < m.start ==> s[i] != '$')
            && (forall i :: m.start <= i < m.end - 1 ==> s[i] != '}') && s[m.end - 1] == '}'
  {
    var m := MatchAtStart(s);
    var name, default := MatchIsSound(s);
    var match_ := s[..m.end];
    assert match_ == Opening(name) + (default + "}") && m.start == |Opening(name)|;
    forall i | 0 < i < m.start ensures s[i] != '$' { assert s[i] == match_[i] == Opening(name)[i]; }
    forall i | m.start <= i < m.end - 1 ensures s[i] != '}' { assert s[i] == match_[i] == default[i - m.start]; }
    assert s[m.end - 1] == match_[m.end - 1];
  }

  lemma ShowsAfter(out: string, front: string, rest: string)
    requires out == front + rest && HasPlaceholder(rest)
    ensures HasPlaceholder(out)
  {
    var i :| 0 <= i < |rest| && MatchAtStart(rest[i..]).Match?;
    assert out[|front| + i..] == rest[i..];
  }

  // ── What the override hides from the check ─────────────────────────────────

  /** Position `i` belongs to a feature-gate flag or its value: a flag starts at or before it, with
      neither a line end nor a quote in between. */
  ghost predicate Swallowed(t: string, i: nat) {
    i < |t| && exists k :: FlagReaches(t, k, i)
  }

  predicate FlagReaches(t: string, k: int, i: nat) {
    0 <= k <= i < |t| && FLAG <= t[k..] && forall m :: k <= m <= i ==> !Stops(t[m])
  }

  ghost predicate FreeClosing(t: string, b: nat) {
    b < |t| && t[b] == '}' && !Swallowed(t, b)
  }

  ghost predicate FreeOpening(t: string, i: nat) {
    i < |t| && Opens(t[i..]) && !Swallowed(t, i)
  }

  /** A closing brace at `j` or later that no feature-gate flag reaches. */
  ghost predicate ClosesInSight(t: string, j: nat) {
    exists b: nat :: j <= b && FreeClosing(t, b)
  }

  ghost predicate LeftAt(t: string, i: nat) { FreeOpening(t, i) && ClosesInSight(t, i) }

  ghost predicate LeftFrom(t: string, j: nat) {
    exists i: nat :: j <= i && LeftAt(t, i)
  }

  /** An opening and a later closing brace that no feature-gate flag reaches. */
  ghost predicate LeftInSight(t: string) { LeftFrom(t, 0) }

  lemma ReachShift(t: string, n: nat, k: nat, i: nat)
    requires n <= |t|
    ensures FlagReaches(t, n + k, n + i) <==> FlagReaches(t[n..], k, i)
  {
    var u := t[n..];
    if k <= |u| { assert t[n + k..] == u[k..]; }
    if n + i < |t| {
      if FlagReaches(u, k, i) {
        forall m | n + k <= m <= n + i ensures !Stops(t[m]) { assert t[m] == u[m - n]; }
      }
      if FlagReaches(t, n + k, n + i) {
        forall m | k <= m <= i ensures !Stops(u[m]) { assert u[m] == t[n + m]; }
      }
    }
  }

  /** No flag reaches across position `n`, so what happens behind it can be told from there. */
  ghost predicate Cut(t: string, n: nat) {
    n <= |t| && forall k: nat, i: nat :: k < n <= i ==> !FlagReaches(t, k, i)
  }

  lemma SwallowedShift(t: string, n: nat, i: nat)
    requires Cut(t, n)
    ensures Swallowed(t, n + i) <==> Swallowed(t[n..], i)
  {
    var j := n + i;
    if Swallowed(t, j) {
      var k :| FlagReaches(t, k, j);
      assert k >= n;
      ReachShift(t, n, k - n, i);
    }
    if Swallowed(t[n..], i) {
      var k :| FlagReaches(t[n..], k, i);
      ReachShift(t, n, k, i);
    }
  }

  lemma FreeShift(t: string, n: nat, i: nat)
    requires Cut(t, n)
    ensures FreeClosing(t, n + i) <==> FreeClosing(t[n..], i)
    ensures FreeOpening(t, n + i) <==> FreeOpening(t[n..], i)
  {
    SwallowedShift(t, n, i);
    if i <= |t[n..]| { assert t[n..][i..] == t[n + i..]; }
  }

  lemma ClosesShift(t: string, n: nat, i: nat)
    requires Cut(t, n)
    ensures ClosesInSight(t, n + i) <==> ClosesInSight(t[n..], i)
  {
    if ClosesInSight(t, n + i) {
      var b: nat :| n + i <= b && FreeClosing(t, b);
      FreeShift(t, n, b - n);
    }
    if ClosesInSight(t[n..], i) {
      var b: nat :| i <= b && FreeClosing(t[n..], b);
      FreeShift(t, n, b);
    }
  }

  lemma LeftAtShift(t: string, n: nat, i: nat)
    requires Cut(t, n)
    ensures LeftAt(t, n + i) <==> LeftAt(t[n..], i)
  {
    FreeShift(t, n, i);
    ClosesShift(t, n, i);
  }

  lemma LeftShift(t: string, n: nat)
    requires Cut(t, n)
    ensures LeftFrom(t, n) <==> LeftInSight(t[n..])
  {
    forall i: nat ensures LeftAt(t, n + i) <==> LeftAt(t[n..], i) { LeftAtShift(t, n, i); }
    LeftMoves(t, t[n..], n);
  }

  lemma LeftMoves(t: string, u: string, n: nat)
    requires forall i: nat :: LeftAt(t, n + i) <==> LeftAt(u, i)
    ensures LeftFrom(t, n) <==> LeftFrom(u, 0)
  {
    if LeftFrom(t, n) {
      var k: nat :| n <= k && LeftAt(t, k);
      assert LeftAt(t, n + (k - n)) <==> LeftAt(u, k - n);
    }
    if LeftFrom(u, 0) {
      var i: nat :| LeftAt(u, i);
      assert n <= n + i && LeftAt(t, n + i);
    }
  }

  lemma FirstCut(t: string)
    requires t != "" && !(FLAG <= t)
    ensures Cut(t, 1) && !Swallowed(t, 0)
  {
    assert t[0..] == t;
  }

  lemma FlagCut(t: string, n: nat)
    requires FLAG <= t && n == |FLAG| + ValueLength(t[|FLAG|..])
    ensures Cut(t, n) && forall i: nat :: i < n ==> Swallowed(t, i)
  {
    FlagShape();
    var value := t[|FLAG|..];
    forall m | 0 <= m < n ensures !Stops(t[m]) { assert m >= |FLAG| ==> t[m] == value[m - |FLAG|]; }
    assert n < |t| ==> t[n] == value[n - |FLAG|];
    assert t[0..] == t;
    forall i: nat | i < n ensures Swallowed(t, i) { assert FlagReaches(t, 0, i); }
  }

  lemma FirstInSight(t: string)
    requires t != "" && !(FLAG <= t)
    ensures ClosesInSight(t, 0) <==> t[0] == '}' || ClosesInSight(t[1..], 0)
    ensures LeftInSight(t) <==> (Opens(t) && ClosesInSight(t, 0)) || LeftInSight(t[1..])
  {
    FirstCut(t);
    ClosesShift(t, 1, 0);
    LeftShift(t, 1);
    assert t[0..] == t;
    assert FreeClosing(t, 0) <==> t[0] == '}';
    assert FreeOpening(t, 0) <==> Opens(t);
    if LeftInSight(t) {
      var i: nat :| LeftAt(t, i);
      assert i > 0 ==> LeftFrom(t, 1);
    }
    if LeftFrom(t, 1) {
      var i: nat :| 1 <= i && LeftAt(t, i);
      assert 0 <= i && LeftAt(t, i);
    }
    assert LeftAt(t, 0) ==> LeftFrom(t, 0);
  }

  lemma InSightAfterFlag(t: string, n: nat)
    requires FLAG <= t && n == |FLAG| + ValueLength(t[|FLAG|..])
    ensures ClosesInSight(t, 0) <==> ClosesInSight(t[n..], 0)
    ensures LeftInSight(t) <==> LeftInSight(t[n..])
  {
    FlagCut(t, n);
    ClosesShift(t, n, 0);
    LeftShift(t, n);
    assert forall b: nat :: FreeClosing(t, b) ==> b >= n;
    if LeftInSight(t) {
      var i: nat :| LeftAt(t, i);
      assert n <= i && LeftAt(t, i);
    }
    if LeftFrom(t, n) {
      var i: nat :| n <= i && LeftAt(t, i);
      assert 0 <= i && LeftAt(t, i);
    }
  }

  lemma NoBraceInFlag(rest: string)
    ensures '}' in FLAG + GATES + rest <==> '}' in rest
  {
    assert '}' !in FLAG + GATES;
  }

  lemma {:induction false} BraceUnderOverride(t: string)
    ensures '}' in FeatureGates(t) <==> ClosesInSight(t, 0)
    decreases |t|
  {
    if t == "" {
    } else if FLAG <= t {
      var n := |FLAG| + ValueLength(t[|FLAG|..]);
      BraceUnderOverride(t[n..]);
      InSightAfterFlag(t, n);
      NoBraceInFlag(FeatureGates(t[n..]));
    } else {
      BraceUnderOverride(t[1..]);
      FirstInSight(t);
    }
  }

  /** The override neither makes nor breaks a text that contains no dash. */
  lemma {:induction false} DashlessPrefix(w: string, x: string)
    requires '-' !in w
    ensures w <= FeatureGates(x) <==> w <= x
  {
    if w != "" && x != "" {
      if FLAG <= x {
        FlagFirst(x);
      } else {
        DashlessPrefix(w[1..], x[1..]);
        Regroup(w, "");
        Regroup(x, "");
        SameFront(w[0], w[1..], x[0], FeatureGates(x[1..]));
        SameFront(w[0], w[1..], x[0], x[1..]);
      }
    }
  }

  lemma FlagFirst(x: string)
    requires FLAG <= x
    ensures x[0] == '-' && FeatureGates(x) != "" && FeatureGates(x)[0] == '-'
  {
    FlagShape();
  }

  lemma OpensUnderOverride(t: string)
    requires t != "" && !(FLAG <= t)
    ensures Opens([t[0]] + FeatureGates(t[1..])) <==> Opens(t)
  {
    var out := [t[0]] + FeatureGates(t[1..]);
    assert t == [t[0]] + t[1..];
    forall name | IsName(name) ensures Opening(name) <= out <==> Opening(name) <= t {
      var w := Opening(name);
      assert w == ['$'] + w[1..];
      DashlessPrefix(w[1..], t[1..]);
      PrefixOfCons(w, out);
      PrefixOfCons(w, t);
    }
  }

  lemma PrefixOfCons(w: string, s: string)
    requires w != "" && s != ""
    ensures w <= s <==> w[0] == s[0] && w[1..] <= s[1..]
  {
    assert w == [w[0]] + w[1..] && s == [s[0]] + s[1..];
    SameFront(w[0], w[1..], s[0], s[1..]);
  }

  lemma HasPlaceholderStep(s: string)
    requires s != ""
    ensures HasPlaceholder(s) <==> MatchAtStart(s).Match? || HasPlaceholder(s[1..])
  {
    assert s[0..] == s;
    if !MatchAtStart(s).Match? { PlaceholderIsFurther(s); }
    if HasPlaceholder(s[1..]) { ShowsAfter(s, [s[0]], s[1..]); }
  }

  lemma DollarlessStep(s: string, c: char, tail: string)
    requires c != '$' && s == [c] + tail
    ensures HasPlaceholder(s) <==> HasPlaceholder(tail)
    ensures Subst(s) == [c] + Subst(tail)
  {
    assert s[1..] == tail;
    HasPlaceholderStep(s);
  }

  lemma {:induction false} DollarlessShows(front: string, rest: string)
    requires '$' !in front
    ensures HasPlaceholder(front + rest) <==> HasPlaceholder(rest)
  {
    if front == "" {
      assert front + rest == rest;
    } else {
      assert front + rest == [front[0]] + (front[1..] + rest);
      DollarlessStep(front + rest, front[0], front[1..] + rest);
      DollarlessShows(front[1..], rest);
    }
  }

  lemma {:induction false} DollarlessCopied(front: string, rest: string)
    requires '$' !in front
    ensures Subst(front + rest) == front + Subst(rest)
  {
    if front == "" {
      assert front + rest == rest;
    } else {
      assert front + rest == [front[0]] + (front[1..] + rest);
      DollarlessStep(front + rest, front[0], front[1..] + rest);
      DollarlessCopied(front[1..], rest);
      Regroup(front, Subst(rest));
    }
  }

  lemma Regroup(front: string, rest: string)
    requires front != ""
    ensures [front[0]] + (front[1..] + rest) == front + rest
  {
  }

  /** The override hides a leftover from the check exactly when no opening of a placeholder with
      a closing brace after it stays out of the reach of every feature-gate flag. */
  lemma {:induction false} OverrideReportsIff(t: string)
    ensures HasPlaceholder(FeatureGates(t)) <==> LeftInSight(t)
    decreases |t|
  {
    if t == "" {
    } else if FLAG <= t {
      var n := |FLAG| + ValueLength(t[|FLAG|..]);
      OverrideReportsIff(t[n..]);
      FlagReports(t, n);
    } else {
      OverrideReportsIff(t[1..]);
      CopyReports(t);
    }
  }

  lemma FlagReports(t: string, n: nat)
    requires FLAG <= t && n == |FLAG| + ValueLength(t[|FLAG|..])
    requires HasPlaceholder(FeatureGates(t[n..])) <==> LeftInSight(t[n..])
    ensures HasPlaceholder(FeatureGates(t)) <==> LeftInSight(t)
  {
    InSightAfterFlag(t, n);
    FlagShows(t, FeatureGates(t[n..]));
  }

  lemma FlagShows(t: string, rest: string)
    requires FLAG <= t && rest == FeatureGates(t[|FLAG| + ValueLength(t[|FLAG|..])..])
    ensures HasPlaceholder(FeatureGates(t)) <==> HasPlaceholder(rest)
  {
    NoDollarInFlagText();
    DollarlessShows(FLAG + GATES, rest);
    assert FeatureGates(t) == FLAG + GATES + rest by { FlagIsOverridden(t); }
  }

  lemma CopyReports(t: string)
    requires t != "" && !(FLAG <= t)
    requires HasPlaceholder(FeatureGates(t[1..])) <==> LeftInSight(t[1..])
    ensures HasPlaceholder(FeatureGates(t)) <==> LeftInSight(t)
  {
    var out := FeatureGates(t);
    assert out[1..] == FeatureGates(t[1..]);
    FirstInSight(t);
    HasPlaceholderStep(out);
    MatchIffOpens(out);
    OpensUnderOverride(t);
    BraceUnderOverride(t);
  }

  lemma NoDollarInFlagText()
    ensures '$' !in FLAG && '$' !in FLAG + GATES
  {
    assert forall k :: 0 <= k < |FLAG| ==> FLAG[k] != '$';
    assert forall k :: 0 <= k < |GATES| ==> GATES[k] != '$';
  }

  /** A default that is a placeholder itself, anywhere in any text, is reported by a run without
      the override; by a run with it exactly when no feature-gate flag hides what is left. */
  lemma NestedDefaultIsCaughtIff(
    before: string, outer: string, inner: string, value: string, after: string, gates: bool)
    requires IsName(outer) && IsName(inner) && IsDefault(value)
    ensures var text := before + Nested(outer, inner, value) + after;
            HasPlaceholder(OnePass(text, gates)) <==> (gates ==> LeftInSight(Subst(text)))
  {
    NestedLeavesPlaceholder(before, outer, inner, value, after);
    OverrideReportsIff(Subst(before + Nested(outer, inner, value) + after));
  }

  /** The override does hide one: as the value of the flag a nested default vanishes unreported. */
  lemma NestedDefaultInFlagVanishes(outer: string, inner: string, value: string)
    requires IsName(outer) && IsName(inner) && IsDefault(value) && forall i :: 0 <= i < |value| ==> !Stops(value[i])
    ensures OnePass(FLAG + Nested(outer, inner, value), true) == FLAG + GATES
    ensures !HasPlaceholder(OnePass(FLAG + Nested(outer, inner, value), true))
  {
    NoDollarInFlagText();
    NestedAlone(outer, inner, value);
    CopiedThen(FLAG, Nested(outer, inner, value), Placeholder(inner, value));
    NoStopInside(inner, value);
    FlagTakesAll(FLAG + Placeholder(inner, value), Placeholder(inner, value));
    NothingShows();
  }

  lemma CopiedThen(front: string, s: string, out: string)
    requires '$' !in front && Subst(s) == out
    ensures Subst(front + s) == front + out
  {
    DollarlessCopied(front, s);
  }

  lemma NoStopInside(name: string, value: string)
    requires IsName(name) && forall i :: 0 <= i < |value| ==> !Stops(value[i])
    ensures forall i :: 0 <= i < |Placeholder(name, value)| ==> !Stops(Placeholder(name, value)[i])
  {
  }

  lemma NothingShows()
    ensures !HasPlaceholder(FLAG + GATES)
  {
    NoDollarInFlagText();
    DollarlessShows(FLAG + GATES, "");
    assert FLAG + GATES + "" == FLAG + GATES;
  }

  lemma FlagTakesAll(s: string, value: string)
    requires s == FLAG + value && forall i :: 0 <= i < |value| ==> !Stops(value[i])
    ensures FeatureGates(s) == FLAG + GATES
  {
    assert FLAG <= s && s[|FLAG|..] == value;
    assert value + "" == value;
    ValueLengthIs(value, "");
    assert s[|FLAG| + |value|..] == "";
    FlagEnds(s);
  }

  lemma FlagEnds(s: string)
    requires FLAG <= s && s[|FLAG| + ValueLength(s[|FLAG|..])..] == ""
    ensures FeatureGates(s) == FLAG + GATES
  {
    assert FLAG + GATES + "" == FLAG + GATES;
  }

  lemma NestedAlone(outer: string, inner: string, value: string)
    requires IsName(outer) && IsName(inner) && IsDefault(value)
    ensures Subst(Nested(outer, inner, value)) == Placeholder(inner, value)
  {
    var cut := Opening(inner) + value;
    assert Nested(outer, inner, value) == Placeholder(outer, cut) + ("}" + "");
    SubstOne(outer, cut, "}" + "");
    SubstBrace("");
    assert cut + ("}" + "") == Placeholder(inner, value);
  }
}
