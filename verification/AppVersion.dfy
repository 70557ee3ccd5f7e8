// The version gate (internal/appversion/appversion.go): dotted numbers compared from the left, missing
// ones counting as zero.

module AppVersion {
  import opened Core
  import opened Text

  newtype int64 = x: int | -0x8000_0000_0000_0000 <= x <= 0x7FFF_FFFF_FFFF_FFFF

  // strconv.Atoi: an optional sign and at least one digit, within 64 bits.
  function Atoi(s: string): Option<int64> {
    var signed := s != "" && (s[0] == '-' || s[0] == '+');
    var digits := if signed then s[1..] else s;
    if digits == "" || !AllDigits(digits) then None
    else
      var m: int := DigitsValue(digits);
      var n := if signed && s[0] == '-' then -m else m;
      if -0x8000_0000_0000_0000 <= n <= 0x7FFF_FFFF_FFFF_FFFF then Some(n as int64) else None
  }

  predicate Reads(s: string, n: int) {
    Atoi(s).Some? && Atoi(s).value as int == n
  }

  lemma DecimalIsUnsigned(n: nat)
    ensures var s := Decimal(n); s != "" && AllDigits(s) && s[0] != '-' && s[0] != '+' && DigitsValue(s) == n
  {
    assert Decimal(n)[0] in Decimal(n);
    DecimalRoundTrip(n);
    hide Decimal;
  }

  // What Atoi reads, without a sign and with one, and up to which sizes.
  lemma AtoiReadsDecimal(n: nat)
    ensures if n < 0x8000_0000_0000_0000 then Reads(Decimal(n), n) else Atoi(Decimal(n)) == None
  {
    DecimalIsUnsigned(n);
    hide Decimal, DigitsValue, AllDigits;
  }

  lemma AtoiReadsSigned(n: nat)
    ensures if n < 0x8000_0000_0000_0000 then Reads("+" + Decimal(n), n) else Atoi("+" + Decimal(n)) == None
    ensures if n <= 0x8000_0000_0000_0000 then Reads("-" + Decimal(n), 0 - n) else Atoi("-" + Decimal(n)) == None
    ensures Atoi("") == None && Atoi("+") == None && Atoi("-") == None
  {
    DecimalIsUnsigned(n);
    hide Decimal, DigitsValue, AllDigits;
    assert ("+" + Decimal(n))[1..] == Decimal(n) && ("-" + Decimal(n))[1..] == Decimal(n);
  }

  // value[:strings.IndexAny(value, "-+")]
  function BeforeSuffix(s: string): string {
    if s == "" || s[0] == '-' || s[0] == '+' then "" else [s[0]] + BeforeSuffix(s[1..])
  }

  function Component(parts: seq<string>, i: nat): int64 {
    if i >= |parts| then 0
    else
      var n := Atoi(TrimSpace(BeforeSuffix(parts[i])));
      if n.None? then 0 else n.value
  }

  // ----- No component is negative -----

  lemma {:induction false} NoSign(s: string)
    ensures '-' !in BeforeSuffix(s) && '+' !in BeforeSuffix(s)
  {
    if s != "" && s[0] != '-' && s[0] != '+' {
      NoSign(s[1..]);
    }
  }

  lemma {:induction false} TrimOnlyDrops(s: string, c: char)
    requires c !in s
    ensures c !in TrimLeft(s) && c !in TrimRight(s)
    decreases |s|
  {
    if s != "" {
      TrimOnlyDrops(s[1..], c);
      TrimOnlyDrops(s[..|s| - 1], c);
    }
  }

  // The cut removes every sign before the number is parsed, so the difference of two components
  // never leaves 64 bits.
  lemma ComponentIsNonNegative(parts: seq<string>, i: nat)
    ensures Component(parts, i) >= 0
  {
    if i < |parts| {
      var cut := BeforeSuffix(parts[i]);
      NoSign(parts[i]);
      TrimOnlyDrops(cut, '-');
      TrimOnlyDrops(TrimLeft(cut), '-');
    }
  }

  // ----- What a component is -----

  lemma {:induction false} CutAtSign(digits: string, suffix: string)
    requires '-' !in digits && '+' !in digits && (suffix == "" || suffix[0] == '-' || suffix[0] == '+')
    ensures BeforeSuffix(digits + suffix) == digits
  {
    if digits == "" {
      assert digits + suffix == suffix;
    } else {
      assert digits[0] in digits;
      assert (digits + suffix)[1..] == digits[1..] + suffix;
      CutAtSign(digits[1..], suffix);
      assert digits == [digits[0]] + digits[1..];
    }
  }

  lemma {:induction false} TrimKeepsText(s: string)
    requires s != "" && !Blank(s[0]) && !Blank(s[|s| - 1])
    ensures TrimSpace(s) == s
  {
  }

  // Of a part of a version that is a number in decimal, blanks around it and a suffix that starts with a
  // sign are ignored, and a number beyond 63 bits counts as zero ...
  lemma ComponentOfDecimal(parts: seq<string>, i: nat, n: nat, before: string, after: string, suffix: string)
    requires i < |parts| && parts[i] == before + Decimal(n) + after + suffix && AllBlank(before) && AllBlank(after)
    requires suffix == "" || suffix[0] == '-' || suffix[0] == '+'
    ensures Component(parts, i) as int == if n < 0x8000_0000_0000_0000 then n else 0
  {
    var padded := before + Decimal(n) + after;
    assert forall c <- Decimal(n) :: IsDigit(c);
    assert '-' !in padded && '+' !in padded;
    CutAtSign(padded, suffix);
    TrimOfPadded(before, Decimal(n), after);
    assert Decimal(n)[0] in Decimal(n) && Decimal(n)[|Decimal(n)| - 1] in Decimal(n);
    TrimKeepsText(Decimal(n));
    AtoiReadsDecimal(n);
    hide Decimal, TrimSpace, BeforeSuffix, Atoi;
  }

  lemma ComponentIsUnsigned(part: string)
    ensures '-' !in TrimSpace(BeforeSuffix(part)) && '+' !in TrimSpace(BeforeSuffix(part))
  {
    var cut := BeforeSuffix(part);
    NoSign(part);
    TrimOnlyDrops(cut, '-');
    TrimOnlyDrops(TrimLeft(cut), '-');
    TrimOnlyDrops(cut, '+');
    TrimOnlyDrops(TrimLeft(cut), '+');
  }

  // ... while a part whose text up to the suffix is not a number, and a part that is not there, are zero.
  lemma ComponentOfAnythingElse(parts: seq<string>, i: nat)
    ensures i >= |parts| ==> Component(parts, i) == 0
    ensures i < |parts| && (exists c <- TrimSpace(BeforeSuffix(parts[i])) :: !('0' <= c <= '9')) ==>
              Component(parts, i) == 0
    ensures i < |parts| && TrimSpace(BeforeSuffix(parts[i])) == "" ==> Component(parts, i) == 0
  {
    if i < |parts| {
      ComponentIsUnsigned(parts[i]);
    }
  }

  // The i-th number of a version; every version has infinitely many, nearly all of them zero.
  function Number(v: string, i: nat): nat {
    ComponentIsNonNegative(Split(v, '.'), i);
    Component(Split(v, '.'), i) as nat
  }

  lemma PartHasNoDot(n: nat, suffix: string)
    requires '.' !in suffix
    ensures '.' !in Decimal(n) + suffix && "" + Decimal(n) + "" + suffix == Decimal(n) + suffix
  {
    assert forall c <- Decimal(n) :: IsDigit(c);
    hide Decimal;
  }

  // A version is a number, a dot, and a version ...
  lemma NumbersAreDotted(n: nat, suffix: string, rest: string, i: nat)
    requires (suffix == "" || suffix[0] == '-' || suffix[0] == '+') && '.' !in suffix
    ensures Number(Decimal(n) + suffix + "." + rest, 0) == if n < 0x8000_0000_0000_0000 then n else 0
    ensures Number(Decimal(n) + suffix + "." + rest, i + 1) == Number(rest, i)
  {
    var part := Decimal(n) + suffix;
    PartHasNoDot(n, suffix);
    hide Decimal, Split, BeforeSuffix, TrimSpace, Atoi;
    assert part + "." + rest == part + ['.'] + rest;
    SplitFirst(part, '.', rest);
    ComponentOfDecimal(Split(part + "." + rest, '.'), 0, n, "", "", suffix);
  }

  // ... or a number, with zeroes behind it.
  lemma LastNumber(n: nat, suffix: string, i: nat)
    requires (suffix == "" || suffix[0] == '-' || suffix[0] == '+') && '.' !in suffix
    ensures Number(Decimal(n) + suffix, 0) == if n < 0x8000_0000_0000_0000 then n else 0
    ensures Number(Decimal(n) + suffix, i + 1) == 0
  {
    PartHasNoDot(n, suffix);
    hide Decimal, Split, BeforeSuffix, TrimSpace, Atoi;
    SplitOne(Decimal(n) + suffix, '.');
    ComponentOfDecimal(Split(Decimal(n) + suffix, '.'), 0, n, "", "", suffix);
  }

  // ----- Compare -----

  function Max(a: nat, b: nat): nat {
    if a >= b then a else b
  }

  // The order Compare computes, read from position i on.
  function OrderFrom(a: string, b: string, i: nat): int
    decreases Max(|Split(a, '.')|, |Split(b, '.')|) - i
  {
    if i >= Max(|Split(a, '.')|, |Split(b, '.')|) then 0
    else if Number(a, i) < Number(b, i) then -1
    else if Number(a, i) > Number(b, i) then 1
    else OrderFrom(a, b, i + 1)
  }

  function Order(a: string, b: string): int {
    OrderFrom(a, b, 0)
  }

  method Compare(a: string, b: string) returns (r: int)
    ensures r == Order(a, b)
  {
    var left, right := Split(a, '.'), Split(b, '.');
    for i := 0 to Max(|left|, |right|)
      invariant Order(a, b) == OrderFrom(a, b, i)
    {
      ComponentIsNonNegative(left, i);
      ComponentIsNonNegative(right, i);
      var d: int64 := Component(left, i) - Component(right, i);
      if d != 0 {
        if d < 0 {
          return -1;
        }
        return 1;
      }
    }
    return 0;
  }

  // ----- What the order means -----

  // a comes before b: at the first position where their numbers differ, a's is smaller.
  ghost predicate LessAt(a: string, b: string, i: nat) {
    Number(a, i) < Number(b, i) && forall j: nat | j < i :: Number(a, j) == Number(b, j)
  }

  ghost predicate Less(a: string, b: string) {
    exists i: nat :: LessAt(a, b, i)
  }

  ghost predicate SameBuild(a: string, b: string) {
    forall i: nat :: Number(a, i) == Number(b, i)
  }

  lemma BeyondIsZero(v: string, i: nat)
    requires i >= |Split(v, '.')|
    ensures Number(v, i) == 0
  {
  }

  lemma {:induction false} OrderFromIsLexicographic(a: string, b: string, i: nat)
    requires forall j: nat | j < i :: Number(a, j) == Number(b, j)
    ensures OrderFrom(a, b, i) == -1 ==> Less(a, b)
    ensures OrderFrom(a, b, i) == 1 ==> Less(b, a)
    ensures OrderFrom(a, b, i) == 0 ==> SameBuild(a, b)
    ensures OrderFrom(a, b, i) in {-1, 0, 1}
    decreases Max(|Split(a, '.')|, |Split(b, '.')|) - i
  {
    hide Number, Split;
    if i >= Max(|Split(a, '.')|, |Split(b, '.')|) {
      forall j: nat ensures Number(a, j) == Number(b, j) {
        if j >= i {
          BeyondIsZero(a, j);
          BeyondIsZero(b, j);
        }
      }
    } else if Number(a, i) < Number(b, i) {
      assert LessAt(a, b, i);
    } else if Number(a, i) > Number(b, i) {
      assert LessAt(b, a, i);
    } else {
      OrderFromIsLexicographic(a, b, i + 1);
    }
  }

  lemma LessExcludes(a: string, b: string)
    ensures !(Less(a, b) && Less(b, a))
    ensures Less(a, b) ==> !SameBuild(a, b)
  {
    if i: nat, j: nat :| LessAt(a, b, i) && LessAt(b, a, j) {
      if i < j {
      } else {
      }
    }
  }

  // Compare is exactly the lexicographic order on zero-padded number sequences.
  lemma OrderIsLexicographic(a: string, b: string)
    ensures Order(a, b) == -1 <==> Less(a, b)
    ensures Order(a, b) == 1 <==> Less(b, a)
    ensures Order(a, b) == 0 <==> SameBuild(a, b)
    ensures Order(a, b) in {-1, 0, 1}
  {
    OrderFromIsLexicographic(a, b, 0);
    LessExcludes(a, b);
    LessExcludes(b, a);
  }

  lemma LessIsTransitive(a: string, b: string, c: string)
    requires (Less(a, b) || SameBuild(a, b)) && (Less(b, c) || SameBuild(b, c))
    ensures Less(a, c) || (SameBuild(a, b) && SameBuild(b, c))
  {
    if i: nat, j: nat :| LessAt(a, b, i) && LessAt(b, c, j) {
      assert LessAt(a, c, if i <= j then i else j);
    } else if i: nat :| LessAt(a, b, i) {
      assert LessAt(a, c, i);
    } else if j: nat :| LessAt(b, c, j) {
      assert LessAt(a, c, j);
    }
  }

  lemma OrderIsTotalPreorder(a: string, b: string, c: string)
    ensures Order(a, a) == 0
    ensures Order(a, b) == -Order(b, a)
    ensures Order(a, b) <= 0 && Order(b, c) <= 0 ==> Order(a, c) <= 0
    ensures Order(a, b) <= 0 && Order(b, c) <= 0 && Order(a, c) == 0 ==> Order(a, b) == 0 && Order(b, c) == 0
  {
    OrderIsLexicographic(a, a);
    OrderIsLexicographic(a, b);
    OrderIsLexicographic(b, a);
    OrderIsLexicographic(b, c);
    OrderIsLexicographic(a, c);
    if Order(a, b) <= 0 && Order(b, c) <= 0 {
      LessIsTransitive(a, b, c);
      LessExcludes(a, c);
    }
  }

  // "1.2" and "1.2.0" are the same build.
  lemma TrailingZeroIsSameBuild(v: string)
    ensures Order(v + ".0", v) == 0
  {
    SplitLast(v, '.', "0");
    assert v + ['.'] + "0" == v + ".0";
    assert DigitsValue("0") == 0 by { assert "0"[..0] == ""; }
    assert BeforeSuffix("0") == "0" by { assert BeforeSuffix("0"[1..]) == ""; }
    assert TrimSpace("0") == "0";
    forall i: nat ensures Number(v + ".0", i) == Number(v, i) {
    }
    OrderIsLexicographic(v + ".0", v);
  }

  // ----- The gate -----

  datatype Gate = Gate(minIOS: string, minAndroid: string, upgradeMessage: string)

  datatype Decision = Decision(minSupportedVersion: string, forceUpgrade: bool, upgradeMessage: string)

  function MinimumFor(g: Gate, platform: string): string {
    var p := ToLower(platform);
    if p == "ios" then g.minIOS else if p == "android" then g.minAndroid else ""
  }

  function Decide(g: Gate, platform: string, version: string): Decision {
    var minimum := MinimumFor(g, platform);
    if minimum == "" || version == "" then Decision(minimum, false, "")
    else if Order(version, minimum) < 0 then Decision(minimum, true, g.upgradeMessage)
    else Decision(minimum, false, "")
  }

  // The gate never forces a version at or above one it lets through.
  lemma DecideIsMonotone(g: Gate, platform: string, allowed: string, newer: string)
    requires allowed != "" && newer != "" && Order(allowed, newer) <= 0
    requires !Decide(g, platform, allowed).forceUpgrade
    ensures !Decide(g, platform, newer).forceUpgrade
  {
    var minimum := MinimumFor(g, platform);
    if minimum != "" {
      OrderIsTotalPreorder(minimum, allowed, newer);
      OrderIsTotalPreorder(allowed, minimum, newer);
      OrderIsTotalPreorder(newer, minimum, newer);
    }
  }

  // Every number of the version reads as zero, because it is zero or because it cannot be read.
  ghost predicate ReadsAsZero(v: string) {
    forall i: nat :: Number(v, i) == 0
  }

  // Atoi accepts no part of the version.
  ghost predicate Unparseable(v: string) {
    forall part <- Split(v, '.') :: Atoi(TrimSpace(BeforeSuffix(part))).None?
  }

  lemma UnparseableReadsAsZero(v: string)
    requires Unparseable(v)
    ensures ReadsAsZero(v)
  {
    forall i: nat ensures Number(v, i) == 0 {
      assert i < |Split(v, '.')| ==> Split(v, '.')[i] in Split(v, '.');
    }
  }

  lemma ReadsAsZeroIsForcedExactlyWhen(g: Gate, platform: string, version: string)
    requires ReadsAsZero(version)
    ensures Decide(g, platform, version).forceUpgrade
            <==> version != "" && MinimumFor(g, platform) != "" && !ReadsAsZero(MinimumFor(g, platform))
  {
    OrderIsLexicographic(version, MinimumFor(g, platform));
  }

  // The comment on Decide says an unparseable version is never forced to upgrade.  The code reads it
  // as zero, so it is forced exactly when its platform is gated, it is not empty, and the minimum
  // has a number above zero.
  lemma UnparseableIsForcedExactlyWhen(g: Gate, platform: string, version: string)
    requires Unparseable(version)
    ensures Decide(g, platform, version).forceUpgrade
            <==> version != "" && MinimumFor(g, platform) != "" && !ReadsAsZero(MinimumFor(g, platform))
  {
    UnparseableReadsAsZero(version);
    ReadsAsZeroIsForcedExactlyWhen(g, platform, version);
  }

  lemma GarbageIsForced()
    ensures Unparseable("x") && Decide(Gate("2", "", "Update"), "ios", "x").forceUpgrade
  {
    SplitOne("x", '.');
    SplitOne("2", '.');
    assert BeforeSuffix("x") == "x" by { assert BeforeSuffix("x"[1..]) == ""; }
    assert BeforeSuffix("2") == "2" by { assert BeforeSuffix("2"[1..]) == ""; }
    assert DigitsValue("2") == 2 by { assert "2"[..0] == ""; }
    assert TrimSpace("2") == "2" && TrimSpace("x") == "x";
    assert !AllDigits("x") by { assert "x"[0] in "x"; }
    assert Number("2", 0) == 2 && Number("x", 0) == 0;
    assert ToLower("ios") == "ios";
  }

  // ----- What a client is told -----

  // The minimum of its platform, however the platform is capitalised, and none for any other platform.
  lemma EachPlatformHasItsMinimum(g: Gate, platform: string, version: string)
    ensures SameLetters(platform, "ios") ==> Decide(g, platform, version).minSupportedVersion == g.minIOS
    ensures SameLetters(platform, "android") ==> Decide(g, platform, version).minSupportedVersion == g.minAndroid
    ensures !SameLetters(platform, "ios") && !SameLetters(platform, "android") ==>
              Decide(g, platform, version) == Decision("", false, "")
  {
    ToLowerDecides(platform, "ios");
    ToLowerDecides(platform, "android");
    assert ToLower("ios") == "ios" && ToLower("android") == "android";
  }

  // The message comes with a forced upgrade and never otherwise, and an upgrade is forced exactly below
  // the minimum.
  lemma MessageComesWithUpgrade(g: Gate, platform: string, version: string)
    ensures var d := Decide(g, platform, version);
            && d.upgradeMessage == (if d.forceUpgrade then g.upgradeMessage else "")
            && (d.forceUpgrade
                <==> version != "" && d.minSupportedVersion != "" && Less(version, d.minSupportedVersion))
  {
    OrderIsLexicographic(version, MinimumFor(g, platform));
  }
}
