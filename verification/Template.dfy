/** The rewriting of the captured component manifests (airgap/scripts/substitute-components.sh):
    `${NAME:=default}` becomes its default, the feature-gate flag gets a fixed value, and what is
    still a placeholder afterwards is an error. */
module Template {

  // ── Placeholders ───────────────────────────────────────────────────────────

  predicate NameStart(c: char) { 'a' <= c <= 'z' || 'A' <= c <= 'Z' || c == '_' }

  predicate NameChar(c: char) { NameStart(c) || '0' <= c <= '9' }

  predicate IsName(s: string) {
    s != "" && NameStart(s[0]) && forall i :: 0 <= i < |s| ==> NameChar(s[i])
  }

  predicate IsDefault(s: string) { forall i :: 0 <= i < |s| ==> s[i] != '}' }

  function Placeholder(name: string, value: string): string { "${" + name + ":=" + value + "}" }

  /** How many characters of `s` from `i` on satisfy nothing but `NameChar`. */
  function NameEnd(s: string, i: nat): (j: nat)
    requires i <= |s|
    ensures i <= j <= |s| && (forall k :: i <= k < j ==> NameChar(s[k])) && (j < |s| ==> !NameChar(s[j]))
    decreases |s| - i
  {
    if i < |s| && NameChar(s[i]) then NameEnd(s, i + 1) else i
  }

  function BraceAt(s: string, i: nat): (j: nat)
    requires i <= |s|
    ensures i <= j <= |s| && (forall k :: i <= k < j ==> s[k] != '}') && (j < |s| ==> s[j] == '}')
    decreases |s| - i
  {
    if i < |s| && s[i] != '}' then BraceAt(s, i + 1) else i
  }

  /** Where the default starts and where the placeholder ends, if `s` starts with one. */
  datatype Match = NoMatch | Match(start: nat, end: nat)

  function MatchAtStart(s: string): (m: Match)
    ensures m.Match? ==> 0 < m.start < m.end <= |s| && s[0] == '$'
  {
    if |s| < 3 || s[0] != '$' || s[1] != '{' || !NameStart(s[2]) then NoMatch
    else
      var n := NameEnd(s, 3);
      if n + 2 > |s| || s[n] != ':' || s[n + 1] != '=' then NoMatch
      else
        var b := BraceAt(s, n + 2);
        if b == |s| then NoMatch else Match(n + 2, b + 1)
  }

  /** What the scanner takes for a placeholder is one. */
  lemma MatchIsSound(s: string) returns (name: string, value: string)
    requires MatchAtStart(s).Match?
    ensures IsName(name) && IsDefault(value)
    ensures var m := MatchAtStart(s); value == s[m.start..m.end - 1] && s[..m.end] == Placeholder(name, value)
  {
    var m := MatchAtStart(s);
    var n := m.start - 2;
    name, value := s[2..n], s[m.start..m.end - 1];
    assert forall i :: 0 <= i < |name| ==> name[i] == s[2 + i] && NameChar(name[i]);
    assert forall i :: 0 <= i < |value| ==> value[i] == s[m.start + i];
    assert s[n..n + 2] == ":=" && s[m.end - 1..m.end] == "}" && s[..2] == "${";
    Pieces(s, 2, n, m.start, m.end - 1, m.end);
  }

  lemma Pieces(s: string, a: nat, b: nat, c: nat, d: nat, e: nat)
    requires a <= b <= c <= d <= e <= |s|
    ensures s[..e] == s[..a] + s[a..b] + s[b..c] + s[c..d] + s[d..e]
  {
  }

  lemma NameEndsAt(s: string, i: nat, j: nat)
    requires i <= j < |s| && (forall k :: i <= k < j ==> NameChar(s[k])) && !NameChar(s[j])
    ensures NameEnd(s, i) == j
  {
  }

  lemma BraceIsAt(s: string, i: nat, j: nat)
    requires i <= j < |s| && (forall k :: i <= k < j ==> s[k] != '}') && s[j] == '}'
    ensures BraceAt(s, i) == j
  {
  }

  /** The scanner finds a placeholder wherever one starts, and reads it correctly. */
  lemma MatchIsComplete(name: string, value: string, rest: string)
    requires IsName(name) && IsDefault(value)
    ensures MatchAtStart(Placeholder(name, value) + rest) == Match(|name| + 4, |name| + |value| + 5)
  {
    var s := Placeholder(name, value) + rest;
    assert forall i :: 0 <= i < |name| ==> s[2 + i] == name[i];
    assert s[|name| + 2] == ':' && s[|name| + 3] == '=';
    NameEndsAt(s, 3, |name| + 2);
    assert forall i :: 0 <= i < |value| ==> s[|name| + 4 + i] == value[i];
    assert s[|name| + |value| + 4] == '}';
    BraceIsAt(s, |name| + 4, |name| + |value| + 4);
  }

  /** Leftmost, non-overlapping substitution. */
  function Subst(s: string): string {
    if s == "" then "" else Output(s) + Subst(s[Consumed(s)..])
  }

  /** How much of `s` the scan takes in one step. */
  function Consumed(s: string): (n: nat)
    requires s != ""
    ensures 0 < n <= |s|
  {
    if MatchAtStart(s).Match? then MatchAtStart(s).end else 1
  }

  /** What that step writes: the default of a placeholder, any other character as it is. */
  function Output(s: string): string
    requires s != ""
  {
    var m := MatchAtStart(s);
    if m.Match? then s[m.start..m.end - 1] else [s[0]]
  }

  ghost predicate HasPlaceholder(s: string) {
    exists i :: 0 <= i < |s| && MatchAtStart(s[i..]).Match?
  }

  lemma TailHasNone(s: string)
    requires s != "" && !HasPlaceholder(s)
    ensures !MatchAtStart(s).Match? && !HasPlaceholder(s[1..])
  {
    assert s[0..] == s;
    forall i | 0 <= i < |s[1..]| ensures !MatchAtStart(s[1..][i..]).Match? {
      assert s[1..][i..] == s[i + 1..];
    }
  }

  lemma {:induction false} NothingToSubstitute(s: string)
    requires !HasPlaceholder(s)
    ensures Subst(s) == s
  {
    if s != "" {
      TailHasNone(s);
      NothingToSubstitute(s[1..]);
    }
  }

  // ── The rewriting, said with the texts themselves ──────────────────────────

  /** `s` is a placeholder, written out, followed by `rest`. */
  ghost predicate StartsWith(s: string, name: string, value: string, rest: string) {
    && name != "" && !('0' <= name[0] <= '9')
    && (forall i :: 0 <= i < |name| ==>
          'a' <= name[i] <= 'z' || 'A' <= name[i] <= 'Z' || '0' <= name[i] <= '9' || name[i] == '_')
    && '}' !in value
    && s == "${" + name + ":=" + value + "}" + rest
  }

  lemma StartIsMatch(s: string, name: string, value: string, rest: string)
    requires StartsWith(s, name, value, rest)
    ensures MatchAtStart(s) == Match(|name| + 4, |name| + |value| + 5)
    ensures value == s[|name| + 4..|name| + |value| + 4] && rest == s[|name| + |value| + 5..]
  {
    assert s == Placeholder(name, value) + rest;
    MatchIsComplete(name, value, rest);
  }

  lemma MatchIsStart(s: string) returns (name: string, value: string, rest: string)
    requires MatchAtStart(s).Match?
    ensures StartsWith(s, name, value, rest)
  {
    name, value := MatchIsSound(s);
    rest := s[MatchAtStart(s).end..];
    assert s == Placeholder(name, value) + rest;
  }

  lemma SubstMatch(s: string, m: Match, value: string, rest: string)
    requires s != "" && m.Match? && MatchAtStart(s) == m && s[m.start..m.end - 1] == value && s[m.end..] == rest
    ensures Subst(s) == value + Subst(rest)
  {
    assert Output(s) == value && s[Consumed(s)..] == rest;
  }

  /** A placeholder becomes its default, whatever it holds, and the scan goes on behind it. */
  lemma PlaceholderBecomesDefault(s: string, name: string, value: string, rest: string)
    requires StartsWith(s, name, value, rest)
    ensures Subst(s) == value + Subst(rest)
  {
    StartIsMatch(s, name, value, rest);
    SubstMatch(s, Match(|name| + 4, |name| + |value| + 5), value, rest);
  }

  /** A character that starts no placeholder is copied. */
  lemma OtherTextIsCopied(s: string)
    requires s != "" && forall name, value, rest :: !StartsWith(s, name, value, rest)
    ensures Subst(s) == [s[0]] + Subst(s[1..])
  {
    if MatchAtStart(s).Match? { var name, value, rest := MatchIsStart(s); }
  }

  /** The leftover check reports a text exactly when a placeholder is written somewhere in it. */
  lemma LeftoverIff(s: string)
    ensures HasPlaceholder(s) <==>
            exists i, name, value, rest :: 0 <= i < |s| && StartsWith(s[i..], name, value, rest)
  {
    if HasPlaceholder(s) {
      var i :| 0 <= i < |s| && MatchAtStart(s[i..]).Match?;
      var name, value, rest := MatchIsStart(s[i..]);
    }
    if i, name, value, rest :| 0 <= i < |s| && StartsWith(s[i..], name, value, rest) {
      StartIsMatch(s[i..], name, value, rest);
    }
  }

  function Dollars(s: string): nat {
    if s == "" then 0 else (if s[0] == '$' then 1 else 0) + Dollars(s[1..])
  }

  lemma {:induction false} DollarsAdd(a: string, b: string)
    ensures Dollars(a + b) == Dollars(a) + Dollars(b)
  {
    if a == "" {
      assert a + b == b;
    } else {
      assert (a + b)[1..] == a[1..] + b;
      DollarsAdd(a[1..], b);
    }
  }

  lemma MatchDropsDollar(s: string)
    requires MatchAtStart(s).Match?
    ensures var m := MatchAtStart(s); Dollars(s[m.start..m.end - 1]) + Dollars(s[m.end..]) < Dollars(s)
  {
    var m := MatchAtStart(s);
    assert s == s[..m.start] + (s[m.start..m.end - 1] + (s[m.end - 1..m.end] + s[m.end..]));
    DollarsAdd(s[..m.start], s[m.start..m.end - 1] + (s[m.end - 1..m.end] + s[m.end..]));
    DollarsAdd(s[m.start..m.end - 1], s[m.end - 1..m.end] + s[m.end..]);
    DollarsAdd(s[m.end - 1..m.end], s[m.end..]);
    assert s[..m.start][0] == '$';
  }

  /** Each substituted placeholder costs a dollar sign. */
  lemma {:induction false} SubstDropsDollars(s: string)
    ensures Dollars(Subst(s)) <= Dollars(s)
    ensures HasPlaceholder(s) ==> Dollars(Subst(s)) < Dollars(s)
  {
    if s != "" {
      var m := MatchAtStart(s);
      if m.Match? {
        MatchDropsDollar(s);
        SubstDropsDollars(s[m.end..]);
        DollarsAdd(s[m.start..m.end - 1], Subst(s[m.end..]));
      } else {
        SubstDropsDollars(s[1..]);
        PlaceholderIsFurther(s);
      }
    }
  }

  lemma PlaceholderIsFurther(s: string)
    requires s != "" && !MatchAtStart(s).Match?
    ensures HasPlaceholder(s) ==> HasPlaceholder(s[1..])
  {
    if HasPlaceholder(s) {
      var i :| 0 <= i < |s| && MatchAtStart(s[i..]).Match?;
      assert s[0..] == s;
      assert s[1..][i - 1..] == s[i..];
    }
  }

  // ── The feature-gate flag ──────────────────────────────────────────────────

  const FLAG: string := "--feature-gates="
  const GATES: string := "ClusterTopology=true"

  predicate Stops(c: char) { c == '\n' || c == '"' || c == '\'' }

  /** The length of the flag's value: up to the end of the line or a quote. */
  function ValueLength(s: string): (n: nat)
    ensures n <= |s| && (forall i :: 0 <= i < n ==> !Stops(s[i])) && (n < |s| ==> Stops(s[n]))
  {
    if s == "" || Stops(s[0]) then 0 else 1 + ValueLength(s[1..])
  }

  function FeatureGates(s: string): string {
    if s == "" then ""
    else if FLAG <= s then FLAG + GATES + FeatureGates(s[|FLAG| + ValueLength(s[|FLAG|..])..])
    else [s[0]] + FeatureGates(s[1..])
  }

  lemma FlagShape()
    ensures |FLAG| == 16 && FLAG[15] == '=' && FLAG[0] == '-'
    ensures forall k :: 0 <= k < 15 ==> FLAG[k] != '='
    ensures forall k :: 0 <= k < |GATES| ==> !Stops(GATES[k])
  {
  }

  /** The flag does not overlap itself. */
  lemma FlagHasNoBorder(k: nat, t: string)
    requires 0 < k < |FLAG|
    ensures !(FLAG[k..] <= FLAG + t)
  {
    FlagShape();
    var end := |FLAG| - k - 1;
    assert FLAG[k..][end] == '=';
    assert (FLAG + t)[end] != '=';
  }

  lemma SameFront(c: char, w: string, d: char, s: string)
    ensures [c] + w <= [d] + s <==> c == d && w <= s
  {
    var a, b := [c] + w, [d] + s;
    assert a[0] == c && b[0] == d && a[1..] == w && b[1..] == s;
    if a <= b {
      assert a == b[..|a|] && w == s[..|w|];
    }
  }

  /** The override does not create a rest of the flag that was not there. */
  lemma {:induction false} NoNewFlagTail(k: nat, t: string)
    requires 0 < k <= |FLAG| && FLAG[k..] <= FeatureGates(t)
    ensures FLAG[k..] <= t
    decreases |FLAG| - k
  {
    if k < |FLAG| {
      if t != "" && FLAG <= t {
        var rest := FeatureGates(t[|FLAG| + ValueLength(t[|FLAG|..])..]);
        assert FeatureGates(t) == FLAG + (GATES + rest);
        FlagHasNoBorder(k, GATES + rest);
      } else if t != "" {
        var c, tail := FLAG[k], FLAG[k + 1..];
        assert FLAG[k..] == [c] + tail && t == [t[0]] + t[1..];
        SameFront(c, tail, t[0], FeatureGates(t[1..]));
        NoNewFlagTail(k + 1, t[1..]);
        SameFront(c, tail, t[0], t[1..]);
      }
    }
  }

  lemma FlagWasThere(c: char, t: string)
    requires FLAG <= [c] + FeatureGates(t)
    ensures FLAG <= [c] + t
  {
    FlagShape();
    var after := [c] + FeatureGates(t);
    assert after[1..] == FeatureGates(t) && FLAG == [FLAG[0]] + FLAG[1..];
    assert FLAG[0] == after[0];
    assert FLAG[1..] <= after[1..] by {
      assert forall i :: 0 <= i < |FLAG[1..]| ==> FLAG[1..][i] == FLAG[i + 1] == after[i + 1] == after[1..][i];
    }
    NoNewFlagTail(1, t);
  }

  lemma {:induction false} ValueLengthIs(a: string, b: string)
    requires (forall i :: 0 <= i < |a| ==> !Stops(a[i])) && (b == "" || Stops(b[0]))
    ensures ValueLength(a + b) == |a|
  {
    if a == "" {
      assert a + b == b;
    } else {
      assert (a + b)[1..] == a[1..] + b;
      ValueLengthIs(a[1..], b);
    }
  }

  lemma FlagIsSet(rest: string)
    requires rest == "" || Stops(rest[0])
    ensures FeatureGates(FLAG + GATES + rest) == FLAG + GATES + FeatureGates(rest)
  {
    FlagShape();
    var s := FLAG + GATES + rest;
    assert s[|FLAG|..] == GATES + rest;
    ValueLengthIs(GATES, rest);
    assert s[|FLAG| + |GATES|..] == rest;
  }

  /** What follows the first flag and its value. */
  function AfterFlag(s: string): string
    requires FLAG <= s
  {
    s[|FLAG| + ValueLength(s[|FLAG|..])..]
  }

  lemma FlagStaysSet(s: string)
    requires FLAG <= s && FeatureGates(FeatureGates(AfterFlag(s))) == FeatureGates(AfterFlag(s))
    ensures FeatureGates(FeatureGates(s)) == FeatureGates(s)
  {
    var tail := AfterFlag(s);
    assert tail == "" || Stops(tail[0]);
    FlagShape();
    var rest := FeatureGates(tail);
    assert rest == "" || Stops(rest[0]) by { assert tail != "" ==> !(FLAG <= tail); }
    FlagIsSet(rest);
  }

  lemma PlainIsCopied(s: string)
    requires s != "" && !(FLAG <= s)
    ensures FeatureGates(s) == [s[0]] + FeatureGates(s[1..])
  {
  }

  lemma PlainStays(s: string, rest: string)
    requires s != "" && !(FLAG <= s) && rest == FeatureGates(s[1..]) && FeatureGates(rest) == rest
    ensures FeatureGates([s[0]] + rest) == [s[0]] + rest
  {
    var out := [s[0]] + rest;
    assert s == [s[0]] + s[1..] && out[1..] == rest;
    if FLAG <= out { FlagWasThere(s[0], s[1..]); }
    PlainIsCopied(out);
  }

  /** The override changes nothing where it has been applied. */
  lemma {:induction false} FeatureGatesIdempotent(s: string)
    ensures FeatureGates(FeatureGates(s)) == FeatureGates(s)
    decreases |s|
  {
    if s == "" {
    } else if FLAG <= s {
      FeatureGatesIdempotent(AfterFlag(s));
      FlagStaysSet(s);
    } else {
      FeatureGatesIdempotent(s[1..]);
      PlainIsCopied(s);
      PlainStays(s, FeatureGates(s[1..]));
    }
  }

  /** The flag gets the one value the operator would set, up to the end of the line or a quote. */
  lemma FlagGetsItsValue(value: string, rest: string)
    requires '\n' !in value && '"' !in value && '\'' !in value
    requires rest == "" || rest[0] == '\n' || rest[0] == '"' || rest[0] == '\''
    ensures FeatureGates("--feature-gates=" + (value + rest)) ==
            "--feature-gates=ClusterTopology=true" + FeatureGates(rest)
  {
    var s := FLAG + (value + rest);
    assert s[|FLAG|..] == value + rest;
    ValueLengthIs(value, rest);
    assert s[|FLAG| + |value|..] == rest;
    assert FLAG + GATES == "--feature-gates=ClusterTopology=true";
  }

  /** The override touches nothing else. */
  lemma RestOfFileStays(s: string)
    requires s != "" && !("--feature-gates=" <= s)
    ensures FeatureGates(s) == [s[0]] + FeatureGates(s[1..]) && FeatureGates("") == ""
  {
    PlainIsCopied(s);
  }

  lemma FlagIsOverridden(s: string)
    requires FLAG <= s
    ensures FeatureGates(s) == FLAG + GATES + FeatureGates(AfterFlag(s))
  {
  }

  lemma {:induction false} FeatureGatesAddNoDollar(s: string)
    ensures Dollars(FeatureGates(s)) <= Dollars(s)
    decreases |s|
  {
    if s == "" {
    } else if FLAG <= s {
      FeatureGatesAddNoDollar(AfterFlag(s));
      FlagIsOverridden(s);
      NoDollarInFlag();
      DollarsAdd(FLAG + GATES, FeatureGates(AfterFlag(s)));
      DropNoDollar(s, |s| - |AfterFlag(s)|);
    } else {
      FeatureGatesAddNoDollar(s[1..]);
      PlainIsCopied(s);
      assert ([s[0]] + FeatureGates(s[1..]))[1..] == FeatureGates(s[1..]);
    }
  }

  lemma DropNoDollar(s: string, n: nat)
    requires n <= |s|
    ensures Dollars(s[n..]) <= Dollars(s)
  {
    assert s == s[..n] + s[n..];
    DollarsAdd(s[..n], s[n..]);
  }

  lemma NoDollarInFlag()
    ensures Dollars(FLAG + GATES) == 0
  {
    NoDollar(FLAG + GATES);
  }

  lemma {:induction false} NoDollar(s: string)
    requires forall i :: 0 <= i < |s| ==> s[i] != '$'
    ensures Dollars(s) == 0
  {
    if s != "" { NoDollar(s[1..]); }
  }

  // ── One run over a file ────────────────────────────────────────────────────

  function OnePass(s: string, gates: bool): string {
    if gates then FeatureGates(Subst(s)) else Subst(s)
  }

  /** A run over the outcome of a run changes nothing, exactly when the first one left no
      placeholder behind: success means that the file is final. */
  lemma SecondPassIsIdleIff(s: string, gates: bool)
    ensures var out := OnePass(s, gates); OnePass(out, gates) == out <==> !HasPlaceholder(out)
  {
    var out := OnePass(s, gates);
    if HasPlaceholder(out) {
      SubstDropsDollars(out);
      FeatureGatesAddNoDollar(Subst(out));
      assert Dollars(OnePass(out, gates)) < Dollars(out);
    } else {
      NothingToSubstitute(out);
      FeatureGatesIdempotent(Subst(s));
    }
  }

  function Passes(s: string, gates: bool, n: nat): string {
    if n == 0 then s else OnePass(Passes(s, gates, n - 1), gates)
  }

  lemma {:induction false} PassesDropDollars(s: string, gates: bool, n: nat)
    requires forall k :: 1 <= k <= n ==> HasPlaceholder(Passes(s, gates, k))
    ensures Dollars(Passes(s, gates, n + 1)) + n <= Dollars(s)
  {
    if n > 0 { PassesDropDollars(s, gates, n - 1); }
    var before := Passes(s, gates, n);
    SubstDropsDollars(before);
    FeatureGatesAddNoDollar(Subst(before));
  }

  /** Running it again after a failure gets there in the end. */
  lemma RepeatedRunsSettle(s: string, gates: bool)
    ensures exists n :: 1 <= n <= Dollars(s) + 1 && !HasPlaceholder(Passes(s, gates, n))
  {
    if forall n :: 1 <= n <= Dollars(s) + 1 ==> HasPlaceholder(Passes(s, gates, n)) {
      PassesDropDollars(s, gates, Dollars(s) + 1);
    }
  }

  /** A file after a run that found nothing left in it, or something. */
  ghost predicate Written(text: string, was: string, gates: bool, leftover: bool) {
    text == (if gates then FeatureGates(Subst(was)) else Subst(was)) && leftover == HasPlaceholder(text)
  }

  /** The loop over the files: every file is written back, and the first that still has a
      placeholder ends the run after it was written. */
  method SubstituteAll(texts: array<string>, gates: seq<bool>) returns (done: nat)
    requires texts.Length == |gates|
    modifies texts
    ensures done <= texts.Length
    ensures forall i :: 0 <= i < done ==> Written(texts[i], old(texts[i]), gates[i], false)
    ensures done < texts.Length ==> Written(texts[done], old(texts[done]), gates[done], true)
    ensures forall i :: done < i < texts.Length ==> texts[i] == old(texts[i])
  {
    done := 0;
    while done < texts.Length
      invariant done <= texts.Length
      invariant forall i :: 0 <= i < done ==> Written(texts[i], old(texts[i]), gates[i], false)
      invariant forall i :: done <= i < texts.Length ==> texts[i] == old(texts[i])
    {
      var txt, leftover := RewriteText(texts[done], gates[done]);
      texts[done] := txt;
      if leftover { return; }
      done := done + 1;
    }
  }

  /** Both steps on one text, then the leftover check. */
  method RewriteText(text: string, gates: bool) returns (txt: string, leftover: bool)
    ensures Written(txt, text, gates, leftover)
  {
    txt := Subst(text);
    if gates { txt := FeatureGates(txt); }
    leftover := FindPlaceholder(txt);
  }

  /** The leftover check. */
  method FindPlaceholder(s: string) returns (found: bool)
    ensures found == HasPlaceholder(s)
  {
    for i := 0 to |s|
      invariant forall k :: 0 <= k < i ==> !MatchAtStart(s[k..]).Match?
    {
      if MatchAtStart(s[i..]).Match? { return true; }
    }
    found := false;
  }
}
