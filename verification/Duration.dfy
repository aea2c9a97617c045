/** `parse_duration_seconds` (bootstrap-rs/src/main.rs): `40m`, `2h`, `90s` or bare seconds, with
    a 64-bit result and an unchecked multiplication. */
module Duration {
  import opened Basics

  datatype Parsed = Seconds(value: nat) | Rejected

  const LIMIT: nat := 0x1_0000_0000_0000_0000

  predicate Digit(c: char) { '0' <= c <= '9' }

  predicate Blanks(s: string) { forall i :: 0 <= i < |s| ==> Blank(s[i]) }

  predicate Digits(s: string) { s != "" && forall i :: 0 <= i < |s| ==> Digit(s[i]) }

  function TrimStart(s: string): string {
    if s != "" && Blank(s[0]) then TrimStart(s[1..]) else s
  }

  function TrimEnd(s: string): string {
    if s != "" && Blank(s[|s| - 1]) then TrimEnd(s[..|s| - 1]) else s
  }

  function Value(digits: string): nat
    requires forall i :: 0 <= i < |digits| ==> Digit(digits[i])
  {
    if digits == "" then 0
    else
      assert Digit(digits[|digits| - 1]);
      Value(digits[..|digits| - 1]) * 10 + (digits[|digits| - 1] - '0') as nat
  }

  /** The decimal rendering. */
  function Render(n: nat): (s: string)
    ensures Digits(s)
  {
    if n < 10 then [Numeral(n)] else Render(n / 10) + [Numeral(n % 10)]
  }

  function Numeral(d: nat): (c: char)
    requires d < 10
    ensures Digit(c) && (c - '0') as nat == d
  {
    '0' + d as char
  }

  /** The four ways to write a unit. */
  datatype Unit = Hours | Minutes | InSeconds | Bare

  function Factor(u: Unit): nat {
    match u
    case Hours => 3600
    case Minutes => 60
    case _ => 1
  }

  function Suffix(u: Unit): string {
    match u
    case Hours => "h"
    case Minutes => "m"
    case InSeconds => "s"
    case Bare => ""
  }

  function UnitOf(s: string): Unit {
    if s == "" then Bare
    else match s[|s| - 1]
      case 'h' => Hours
      case 'm' => Minutes
      case 's' => InSeconds
      case _ => Bare
  }

  /** The parser; the product wraps around, as it does in a release build. */
  function Parse(input: string): Parsed {
    var s := TrimEnd(TrimStart(input));
    var unit := UnitOf(s);
    var digits := s[..|s| - |Suffix(unit)|];
    if !Digits(digits) || Value(digits) >= LIMIT then Rejected
    else Seconds(Value(digits) * Factor(unit) % LIMIT)
  }

  lemma {:induction false} RenderInverts(n: nat)
    ensures Value(Render(n)) == n
  {
    if n >= 10 {
      RenderInverts(n / 10);
      assert Render(n)[..|Render(n)| - 1] == Render(n / 10);
    } else {
      assert Render(n)[..0] == "";
    }
  }

  lemma {:induction false} TrimStartDrops(left: string, core: string)
    requires Blanks(left) && core != "" && !Blank(core[0])
    ensures TrimStart(left + core) == core
  {
    if left == "" {
      assert left + core == core;
    } else {
      assert (left + core)[1..] == left[1..] + core;
      TrimStartDrops(left[1..], core);
    }
  }

  lemma {:induction false} TrimEndDrops(core: string, right: string)
    requires Blanks(right) && core != "" && !Blank(core[|core| - 1])
    ensures TrimEnd(core + right) == core
  {
    if right == "" {
      assert core + right == core;
    } else {
      assert (core + right)[..|core + right| - 1] == core + right[..|right| - 1];
      TrimEndDrops(core, right[..|right| - 1]);
    }
  }

  lemma UnitReads(digits: string, unit: Unit)
    requires Digits(digits)
    ensures var core := digits + Suffix(unit);
            && !Blank(core[0]) && !Blank(core[|core| - 1])
            && UnitOf(core) == unit && core[..|core| - |Suffix(unit)|] == digits
  {
    var core := digits + Suffix(unit);
    assert core[0] == digits[0] && Digit(digits[0]);
    assert core[|core| - 1] == if unit == Bare then digits[|digits| - 1] else Suffix(unit)[0];
    assert Digit(digits[|digits| - 1]);
  }

  lemma ParseTrimmed(input: string, s: string, unit: Unit, digits: string)
    requires s == TrimEnd(TrimStart(input)) && unit == UnitOf(s) && digits == s[..|s| - |Suffix(unit)|]
    ensures Parse(input).Seconds? <==> Digits(digits) && Value(digits) < LIMIT
    ensures Digits(digits) ==>
              Parse(input) == if Value(digits) >= LIMIT then Rejected else Seconds(Value(digits) * Factor(unit) % LIMIT)
  {
  }

  /** Parsing reads digits, unit and blanks exactly as written. */
  lemma ParseReads(left: string, digits: string, unit: Unit, right: string)
    requires Blanks(left) && Blanks(right) && Digits(digits)
    ensures Parse(left + digits + Suffix(unit) + right) ==
            if Value(digits) >= LIMIT then Rejected else Seconds(Value(digits) * Factor(unit) % LIMIT)
  {
    var core := digits + Suffix(unit);
    assert left + digits + Suffix(unit) + right == left + (core + right);
    UnitReads(digits, unit);
    assert (core + right)[0] == core[0];
    TrimStartDrops(left, core + right);
    TrimEndDrops(core, right);
    ParseTrimmed(left + digits + Suffix(unit) + right, core, unit, digits);
  }

  lemma Unscaled(v: nat, unit: Unit)
    requires unit == InSeconds || unit == Bare
    ensures v < LIMIT ==> v * Factor(unit) % LIMIT == v
  {
    assert v * 1 == v;
  }

  lemma ReadsAs(n: nat, left: string, unit: Unit, suffix: string, right: string)
    requires Blanks(left) && Blanks(right) && Suffix(unit) == suffix
    ensures Parse(left + Render(n) + suffix + right) ==
            if n >= LIMIT then Rejected else Seconds(n * Factor(unit) % LIMIT)
  {
    RenderInverts(n);
    ParseReads(left, Render(n), unit, right);
  }

  /** Too long a number is rejected, too large a product wraps around: this is what a printed
      number of hours reads as, and below of minutes, of seconds and without a unit. */
  lemma HoursReadAs(n: nat, left: string, right: string)
    requires Blanks(left) && Blanks(right)
    ensures Parse(left + Render(n) + "h" + right) ==
            if n >= 18446744073709551616 then Rejected else Seconds(n * 3600 % 18446744073709551616)
  {
    ReadsAs(n, left, Hours, "h", right);
  }

  lemma MinutesReadAs(n: nat, left: string, right: string)
    requires Blanks(left) && Blanks(right)
    ensures Parse(left + Render(n) + "m" + right) ==
            if n >= 18446744073709551616 then Rejected else Seconds(n * 60 % 18446744073709551616)
  {
    ReadsAs(n, left, Minutes, "m", right);
  }

  lemma SecondsReadAs(n: nat, left: string, right: string)
    requires Blanks(left) && Blanks(right)
    ensures Parse(left + Render(n) + "s" + right) ==
            if n >= 18446744073709551616 then Rejected else Seconds(n)
  {
    ReadsAs(n, left, InSeconds, "s", right);
    Unscaled(n, InSeconds);
  }

  lemma BareReadsAs(n: nat, left: string, right: string)
    requires Blanks(left) && Blanks(right)
    ensures Parse(left + Render(n) + right) ==
            if n >= 18446744073709551616 then Rejected else Seconds(n)
  {
    ReadsAs(n, left, Bare, "", right);
    Unscaled(n, Bare);
    assert left + Render(n) + "" == left + Render(n);
  }

  /** Parsing inverts printing exactly as long as the product fits into 64 bits. */
  lemma ParseInvertsRenderIff(n: nat, left: string, right: string)
    requires Blanks(left) && Blanks(right)
    ensures Parse(left + Render(n) + "h" + right) == Seconds(n * 3600) <==> n * 3600 < 18446744073709551616
    ensures Parse(left + Render(n) + "m" + right) == Seconds(n * 60) <==> n * 60 < 18446744073709551616
    ensures Parse(left + Render(n) + "s" + right) == Seconds(n) <==> n < 18446744073709551616
    ensures Parse(left + Render(n) + right) == Seconds(n) <==> n < 18446744073709551616
  {
    HoursReadAs(n, left, right);
    MinutesReadAs(n, left, right);
    SecondsReadAs(n, left, right);
    BareReadsAs(n, left, right);
    WrapsIff(n, 3600, LIMIT);
    WrapsIff(n, 60, LIMIT);
  }

  /** Numbers are read in decimal: one more digit multiplies by ten and adds the digit. */
  lemma ReadsDecimal(digits: string, c: char, v: nat)
    requires '0' <= c <= '9'
    requires (digits == "" && v == 0) || (Digits(digits) && Parse(digits) == Seconds(v))
    ensures var next := 10 * v + (c as int - 48);
            Parse(digits + [c]) == if next < 18446744073709551616 then Seconds(next) else Rejected
  {
    var longer := digits + [c];
    assert longer[..|longer| - 1] == digits;
    assert forall i :: 0 <= i < |digits| ==> longer[i] == digits[i];
    PlainReads(longer);
    if digits != "" { PlainReads(digits); }
  }

  lemma PlainReads(digits: string)
    requires Digits(digits)
    ensures Parse(digits) == if Value(digits) >= LIMIT then Rejected else Seconds(Value(digits))
  {
    PlainIsTrimmed(digits);
    ParseTrimmed(digits, digits, Bare, digits);
    Unscaled(Value(digits), Bare);
  }

  lemma PlainIsTrimmed(digits: string)
    requires Digits(digits)
    ensures TrimEnd(TrimStart(digits)) == digits && UnitOf(digits) == Bare
    ensures digits[..|digits| - |Suffix(Bare)|] == digits
  {
    assert Digit(digits[0]) && Digit(digits[|digits| - 1]);
  }

  lemma WrapsIff(n: nat, factor: nat, limit: nat)
    requires factor > 0 && limit > 0
    ensures n * factor < limit ==> n < limit
    ensures n * factor % limit == n * factor <==> n * factor < limit
  {
    assert n * factor == n + n * (factor - 1);
  }

  lemma {:induction false} TrimStartSplits(s: string) returns (left: string)
    ensures Blanks(left) && s == left + TrimStart(s)
    ensures TrimStart(s) != "" ==> !Blank(TrimStart(s)[0])
  {
    if s != "" && Blank(s[0]) {
      var rest := TrimStartSplits(s[1..]);
      left := [s[0]] + rest;
      assert left + TrimStart(s[1..]) == [s[0]] + (rest + TrimStart(s[1..])) == [s[0]] + s[1..];
    } else {
      left := "";
    }
  }

  lemma {:induction false} TrimEndSplits(s: string) returns (right: string)
    ensures Blanks(right) && s == TrimEnd(s) + right
  {
    if s != "" && Blank(s[|s| - 1]) {
      right := TrimEndSplits(s[..|s| - 1]);
      right := right + [s[|s| - 1]];
      assert s == s[..|s| - 1] + [s[|s| - 1]];
    } else {
      right := "";
    }
  }

  /** Decimal digits that fit into 64 bits, a unit or none, and blanks around them. */
  ghost predicate Shaped(input: string, left: string, digits: string, unit: string, right: string) {
    && Blanks(left) && Blanks(right)
    && digits != "" && (forall i :: 0 <= i < |digits| ==> '0' <= digits[i] <= '9')
    && Value(digits) < 18446744073709551616
    && (unit == "h" || unit == "m" || unit == "s" || unit == "")
    && input == left + digits + unit + right
  }

  lemma AcceptedIsShaped(input: string)
    requires Parse(input).Seconds?
    ensures exists left, digits, unit, right :: Shaped(input, left, digits, unit, right)
  {
    var left := TrimStartSplits(input);
    var right := TrimEndSplits(TrimStart(input));
    var s := TrimEnd(TrimStart(input));
    var unit := UnitOf(s);
    var digits := s[..|s| - |Suffix(unit)|];
    ParseTrimmed(input, s, unit, digits);
    UnitSplits(s);
    Reassociate(input, left, digits, Suffix(unit), right);
    assert Shaped(input, left, digits, Suffix(unit), right);
  }

  lemma UnitSplits(s: string)
    ensures var unit := UnitOf(s); s == s[..|s| - |Suffix(unit)|] + Suffix(unit)
  {
  }

  lemma Reassociate(input: string, left: string, digits: string, suffix: string, right: string)
    requires input == left + ((digits + suffix) + right)
    ensures input == left + digits + suffix + right
  {
  }

  /** Only inputs of this shape are accepted. */
  lemma AcceptedIff(input: string)
    ensures Parse(input).Seconds? <==> exists left, digits, unit, right :: Shaped(input, left, digits, unit, right)
  {
    if Parse(input).Seconds? { AcceptedIsShaped(input); }
    if left, digits, unit, right :| Shaped(input, left, digits, unit, right) {
      ShapedIsAccepted(input, left, digits, unit, right);
    }
  }

  lemma ShapedIsAccepted(input: string, left: string, digits: string, suffix: string, right: string)
    requires Shaped(input, left, digits, suffix, right)
    ensures Parse(input).Seconds?
  {
    var unit :=
      if suffix == "h" then Hours else if suffix == "m" then Minutes else if suffix == "s" then InSeconds else Bare;
    assert Suffix(unit) == suffix && Digits(digits);
    ParseReads(left, digits, unit, right);
  }

  /** The characters that are trimmed are those with Unicode's White_Space property; a zero does
      not change the number, and any other character before it makes the parser reject it. */
  lemma TrimmedIff(c: char)
    ensures Parse([c] + "7m") == Seconds(420) <==>
            || c == '0' || 9 <= c as int <= 13 || c as int == 32 || c as int == 0x85 || c as int == 0xA0
            || c as int == 0x1680 || 0x2000 <= c as int <= 0x200A || c as int == 0x2028 || c as int == 0x2029
            || c as int == 0x202F || c as int == 0x205F || c as int == 0x3000
  {
    if Blank(c) { BlankIsTrimmed(c); } else { OthersAreRead(c); }
  }

  lemma BlankIsTrimmed(c: char)
    requires Blank(c)
    ensures Parse([c] + "7m") == Seconds(420)
  {
    assert Value("7") == 7 by { assert "7"[..0] == ""; }
    ParseReads([c], "7", Minutes, "");
    assert [c] + "7m" == [c] + "7" + Suffix(Minutes) + "";
    assert 7 * Factor(Minutes) % LIMIT == 420;
  }

  lemma OthersAreRead(c: char)
    requires !Blank(c)
    ensures Parse([c] + "7m") == Seconds(420) <==> c == '0'
  {
    var s := [c] + "7m";
    assert TrimStart(s) == s && TrimEnd(s) == s && s[..2] == [c, '7'];
    ParseTrimmed(s, s, Minutes, [c, '7']);
    if Digit(c) {
      TwoDigits(c);
    } else {
      assert !Digits([c, '7']) by { assert [c, '7'][0] == c; }
    }
  }

  lemma TwoDigits(c: char)
    requires Digit(c)
    ensures Digits([c, '7']) && Value([c, '7']) == (c - '0') as nat * 10 + 7
  {
    assert [c, '7'][..1] == [c] && [c][..0] == "";
    assert Value([c]) == (c - '0') as nat;
  }
}
