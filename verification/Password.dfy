// Password hashes as PHC strings (internal/auth/password.go): the printer, the parser that reads the
// stored parameters back, and why verification survives a change of cost.  The texts are base64 per
// sections 3.5 and 4 of RFC 4648, without padding.

module Password {
  import opened Core
  import opened Text

  type Byte = x: int | 0 <= x < 256
  type Bytes = seq<Byte>

  // ----- Unpadded base64 -----

  function Char64(v: nat): char
    requires v < 64
  {
    if v < 26 then 'A' + v as char
    else if v < 52 then 'a' + (v - 26) as char
    else if v < 62 then '0' + (v - 52) as char
    else if v == 62 then '+' else '/'
  }

  function Value64(c: char): Option<nat> {
    var n := c as int;
    if 'A' <= c <= 'Z' then Some(n - 65)
    else if 'a' <= c <= 'z' then Some(n - 97 + 26)
    else if '0' <= c <= '9' then Some(n - 48 + 52)
    else if c == '+' then Some(62)
    else if c == '/' then Some(63)
    else None
  }

  lemma Value64Inverse(v: nat)
    requires v < 64
    ensures Value64(Char64(v)) == Some(v)
    ensures Char64(v) != '$' && Char64(v) != '\r' && Char64(v) != '\n'
  {
  }

  lemma Char64Inverse(c: char)
    requires Value64(c).Some?
    ensures Value64(c).value < 64 && Char64(Value64(c).value) == c
  {
  }

  function EncodeThree(x: Byte, y: Byte, z: Byte): string {
    [Char64(x / 4), Char64(x % 4 * 16 + y / 16), Char64(y % 16 * 4 + z / 64), Char64(z % 64)]
  }

  function Encode(b: Bytes): string {
    if |b| == 0 then ""
    else if |b| == 1 then [Char64(b[0] / 4), Char64(b[0] % 4 * 16)]
    else if |b| == 2 then [Char64(b[0] / 4), Char64(b[0] % 4 * 16 + b[1] / 16), Char64(b[1] % 16 * 4)]
    else EncodeThree(b[0], b[1], b[2]) + Encode(b[3..])
  }

  function WithoutBreaks(s: string): string {
    if s == "" then "" else (if s[0] == '\r' || s[0] == '\n' then "" else [s[0]]) + WithoutBreaks(s[1..])
  }

  function DecodeThree(v0: nat, v1: nat, v2: nat, v3: nat): Bytes
    requires v0 < 64 && v1 < 64 && v2 < 64 && v3 < 64
  {
    [v0 * 4 + v1 / 16, v1 % 16 * 16 + v2 / 4, v2 % 4 * 64 + v3]
  }

  function DecodeDense(s: string): Option<Bytes> {
    if |s| == 0 then Some([])
    else if |s| == 1 then None
    else
      var v0, v1 := Value64(s[0]), Value64(s[1]);
      if v0.None? || v1.None? then None
      else if |s| == 2 then
        if v1.value % 16 == 0 then Some([v0.value * 4 + v1.value / 16]) else None
      else
        var v2 := Value64(s[2]);
        if v2.None? then None
        else if |s| == 3 then
          if v2.value % 4 == 0 then Some([v0.value * 4 + v1.value / 16, v1.value % 16 * 16 + v2.value / 4]) else None
        else
          var v3 := Value64(s[3]);
          var rest := DecodeDense(s[4..]);
          if v3.None? || rest.None? then None
          else Some(DecodeThree(v0.value, v1.value, v2.value, v3.value) + rest.value)
  }

  // RawStdEncoding.Strict(): leftover bits must be zero; line breaks are skipped.
  function Decode(s: string): Option<Bytes> {
    DecodeDense(WithoutBreaks(s))
  }

  lemma ThreeRoundTrip(x: Byte, y: Byte, z: Byte)
    ensures DecodeThree(x / 4, x % 4 * 16 + y / 16, y % 16 * 4 + z / 64, z % 64) == [x, y, z]
  {
  }

  lemma Unpack16(q: nat, r: nat)
    requires r < 16
    ensures (q * 16 + r) / 16 == q && (q * 16 + r) % 16 == r
  {
  }

  lemma OneRoundTrip(x: Byte)
    ensures DecodeDense(Encode([x])) == Some([x])
  {
    hide Value64, Char64;
    Value64Inverse(x / 4);
    Value64Inverse(x % 4 * 16);
    Unpack16(x % 4, 0);
  }

  lemma Unpack4(q: nat, r: nat)
    requires r < 4
    ensures (q * 4 + r) / 4 == q && (q * 4 + r) % 4 == r
  {
  }

  lemma TwoRoundTrip(x: Byte, y: Byte)
    ensures DecodeDense(Encode([x, y])) == Some([x, y])
  {
    hide Value64, Char64;
    var v0, v1, v2 := x / 4, x % 4 * 16 + y / 16, y % 16 * 4;
    Value64Inverse(v0);
    Value64Inverse(v1);
    Value64Inverse(v2);
    Unpack16(x % 4, y / 16);
    Unpack4(y % 16, 0);
    assert v0 * 4 + v1 / 16 == x && v1 % 16 * 16 + v2 / 4 == y && v2 % 4 == 0;
    assert Encode([x, y]) == [Char64(v0), Char64(v1), Char64(v2)];
    hide Encode;
  }

  // How a text of at least four characters is decoded.
  lemma DecodeStep(s: string, v0: nat, v1: nat, v2: nat, v3: nat, rest: Bytes)
    requires |s| >= 4 && v0 < 64 && v1 < 64 && v2 < 64 && v3 < 64
    requires Value64(s[0]) == Some(v0) && Value64(s[1]) == Some(v1)
    requires Value64(s[2]) == Some(v2) && Value64(s[3]) == Some(v3)
    requires DecodeDense(s[4..]) == Some(rest)
    ensures DecodeDense(s) == Some(DecodeThree(v0, v1, v2, v3) + rest)
  {
    hide Value64, DecodeThree;
  }

  lemma ThreeThenRest(x: Byte, y: Byte, z: Byte, rest: string)
    ensures var s := EncodeThree(x, y, z) + rest;
            && |s| == 4 + |rest| && s[4..] == rest
            && Value64(s[0]) == Some(x / 4) && Value64(s[1]) == Some(x % 4 * 16 + y / 16)
            && Value64(s[2]) == Some(y % 16 * 4 + z / 64) && Value64(s[3]) == Some(z % 64)
  {
    hide Value64, Char64;
    Value64Inverse(x / 4);
    Value64Inverse(x % 4 * 16 + y / 16);
    Value64Inverse(y % 16 * 4 + z / 64);
    Value64Inverse(z % 64);
  }

  lemma PrependedRoundTrip(x: Byte, y: Byte, z: Byte, text: string, rest: Bytes)
    requires DecodeDense(text) == Some(rest)
    ensures DecodeDense(EncodeThree(x, y, z) + text) == Some([x, y, z] + rest)
  {
    hide Value64, DecodeThree, EncodeThree, DecodeDense;
    ThreeRoundTrip(x, y, z);
    ThreeThenRest(x, y, z, text);
    DecodeStep(EncodeThree(x, y, z) + text, x / 4, x % 4 * 16 + y / 16, y % 16 * 4 + z / 64, z % 64, rest);
  }

  lemma {:induction false} DenseRoundTrip(b: Bytes)
    ensures DecodeDense(Encode(b)) == Some(b)
  {
    if |b| == 0 {
    } else if |b| == 1 {
      OneRoundTrip(b[0]);
      assert b == [b[0]];
    } else if |b| == 2 {
      TwoRoundTrip(b[0], b[1]);
      assert b == [b[0], b[1]];
    } else {
      hide EncodeThree, DecodeDense, Char64;
      DenseRoundTrip(b[3..]);
      PrependedRoundTrip(b[0], b[1], b[2], Encode(b[3..]), b[3..]);
      assert [b[0], b[1], b[2]] + b[3..] == b;
    }
  }

  lemma {:induction false} DenseHasNoBreaks(s: string)
    requires '\r' !in s && '\n' !in s
    ensures WithoutBreaks(s) == s
  {
    if s != "" {
      DenseHasNoBreaks(s[1..]);
      assert [s[0]] + s[1..] == s;
    }
  }

  lemma {:induction false} EncodedAlphabet(b: Bytes, c: char)
    requires c in {'$', '\r', '\n'}
    ensures c !in Encode(b)
  {
    if |b| >= 3 {
      EncodedAlphabet(b[3..], c);
    }
  }

  lemma Base64RoundTrip(b: Bytes)
    ensures Decode(Encode(b)) == Some(b)
  {
    EncodedAlphabet(b, '\r');
    EncodedAlphabet(b, '\n');
    DenseHasNoBreaks(Encode(b));
    DenseRoundTrip(b);
  }

  lemma TwoCharsAreCanonical(v0: nat, v1: nat)
    requires v0 < 64 && v1 < 64 && v1 % 16 == 0
    ensures Encode([v0 * 4 + v1 / 16]) == [Char64(v0), Char64(v1)]
  {
    hide Char64;
    Unpack4(v0, v1 / 16);
  }

  lemma ThreeCharsAreCanonical(v0: nat, v1: nat, v2: nat)
    requires v0 < 64 && v1 < 64 && v2 < 64 && v2 % 4 == 0
    ensures Encode([v0 * 4 + v1 / 16, v1 % 16 * 16 + v2 / 4]) == [Char64(v0), Char64(v1), Char64(v2)]
  {
    hide Char64;
    Unpack4(v0, v1 / 16);
    Unpack16(v1 % 16, v2 / 4);
    var x, y := v0 * 4 + v1 / 16, v1 % 16 * 16 + v2 / 4;
    assert x / 4 == v0 && x % 4 * 16 + y / 16 == v1 && y % 16 * 4 == v2;
  }

  lemma ShortDecodingIsCanonical(s: string)
    requires |s| < 4 && DecodeDense(s).Some?
    ensures Encode(DecodeDense(s).value) == s
  {
    hide Value64, Char64;
    if |s| >= 2 {
      var v0, v1 := Value64(s[0]).value, Value64(s[1]).value;
      Char64Inverse(s[0]);
      Char64Inverse(s[1]);
      if |s| == 2 {
        TwoCharsAreCanonical(v0, v1);
        assert s == [s[0], s[1]];
      } else {
        Char64Inverse(s[2]);
        ThreeCharsAreCanonical(v0, v1, Value64(s[2]).value);
        assert s == [s[0], s[1], s[2]];
      }
      hide Encode;
    }
  }

  lemma Unpack64(q: nat, r: nat)
    requires r < 64
    ensures (q * 64 + r) / 64 == q && (q * 64 + r) % 64 == r
  {
  }

  lemma FourRoundTrip(v0: nat, v1: nat, v2: nat, v3: nat)
    requires v0 < 64 && v1 < 64 && v2 < 64 && v3 < 64
    ensures var b := DecodeThree(v0, v1, v2, v3);
            EncodeThree(b[0], b[1], b[2]) == [Char64(v0), Char64(v1), Char64(v2), Char64(v3)]
  {
    hide Char64;
    Unpack4(v0, v1 / 16);
    Unpack16(v1 % 16, v2 / 4);
    Unpack64(v2 % 4, v3);
    var b := DecodeThree(v0, v1, v2, v3);
    assert b[0] / 4 == v0 && b[0] % 4 * 16 + b[1] / 16 == v1;
    assert b[1] % 16 * 4 + b[2] / 64 == v2 && b[2] % 64 == v3;
  }

  // A line break anywhere in a text is skipped.
  lemma {:induction false} BreaksAreSkipped(a: string, c: char, b: string)
    requires c == '\r' || c == '\n'
    ensures WithoutBreaks(a + [c] + b) == WithoutBreaks(a + b)
    ensures Decode(a + [c] + b) == Decode(a + b)
  {
    if a == "" {
      assert ([c] + b)[1..] == b && a + [c] + b == [c] + b && a + b == b;
    } else {
      assert (a + [c] + b)[1..] == a[1..] + [c] + b && (a + b)[1..] == a[1..] + b;
      BreaksAreSkipped(a[1..], c, b);
    }
  }

  // What has been decoded when four characters or more have.
  lemma DecodedParts(s: string)
    requires |s| >= 4 && DecodeDense(s).Some?
    ensures Value64(s[0]).Some? && Value64(s[1]).Some? && Value64(s[2]).Some? && Value64(s[3]).Some?
    ensures DecodeDense(s[4..]).Some?
    ensures forall i | 0 <= i < 4 :: Value64(s[i]).value < 64 && Char64(Value64(s[i]).value) == s[i]
    ensures var three := DecodeThree(Value64(s[0]).value, Value64(s[1]).value,
                                     Value64(s[2]).value, Value64(s[3]).value);
            DecodeDense(s).value == three + DecodeDense(s[4..]).value
  {
    Char64Inverse(s[0]);
    Char64Inverse(s[1]);
    Char64Inverse(s[2]);
    Char64Inverse(s[3]);
    hide Value64, Char64, DecodeThree;
  }

  lemma EncodedParts(three: Bytes, rest: Bytes)
    requires |three| == 3
    ensures Encode(three + rest) == EncodeThree(three[0], three[1], three[2]) + Encode(rest)
  {
    assert (three + rest)[3..] == rest;
    hide EncodeThree;
  }

  // Strictness: a text without line breaks that decodes is the one text its bytes are printed as.
  lemma {:induction false} DecodingIsCanonical(s: string)
    requires DecodeDense(s).Some?
    ensures Encode(DecodeDense(s).value) == s
  {
    if |s| < 4 {
      ShortDecodingIsCanonical(s);
    } else {
      DecodedParts(s);
      hide Value64, Char64, EncodeThree, DecodeDense, Encode;
      var v0, v1, v2, v3 := Value64(s[0]).value, Value64(s[1]).value, Value64(s[2]).value, Value64(s[3]).value;
      DecodingIsCanonical(s[4..]);
      FourRoundTrip(v0, v1, v2, v3);
      EncodedParts(DecodeThree(v0, v1, v2, v3), DecodeDense(s[4..]).value);
      hide DecodeThree;
      assert s == [s[0], s[1], s[2], s[3]] + s[4..];
    }
  }

  // ----- The PHC string -----

  datatype Params = Params(memory: nat, iterations: nat, parallelism: nat)

  datatype Phc = Phc(params: Params, salt: Bytes, key: Bytes)

  const ARGON_VERSION: nat := 19
  const CURRENT: Params := Params(19456, 2, 1)
  const ARGON_KEY_LEN: nat := 32
  const MIN_KEY_LEN: nat := 16
  const MAX_KEY_LEN: nat := 64

  // argon2.IDKey(password, salt, time, memory, threads, keyLen): any function.
  type Argon = (string, Bytes, nat, nat, nat, nat) -> Bytes

  function PrintParams(p: Params): string {
    "m=" + Decimal(p.memory) + (",t=" + Decimal(p.iterations) + (",p=" + Decimal(p.parallelism) + ""))
  }

  // One field, a dollar sign, and the rest.
  function Dollar(field: string, rest: string): string {
    field + ['$'] + rest
  }

  function PrintVersion(): string {
    "v=" + Decimal(ARGON_VERSION) + ""
  }

  // $argon2id$v=19$m=..,t=..,p=..$salt$key
  function Print(h: Phc): string {
    var parameters := Dollar(PrintParams(h.params), Dollar(Encode(h.salt), Encode(h.key)));
    Dollar("", Dollar("argon2id", Dollar(PrintVersion(), parameters)))
  }

  // fmt.Sscanf on a literal, then on %d into an unsigned integer of the given size; what follows the
  // last verb is ignored.
  function ScanLiteral(s: string, literal: string): Option<string> {
    if literal <= s then Some(s[|literal|..]) else None
  }

  function DigitPrefix(s: string): (n: nat)
    ensures n <= |s| && AllDigits(s[..n])
  {
    if s == "" || !IsDigit(s[0]) then 0 else 1 + DigitPrefix(s[1..])
  }

  function ScanNumber(s: string, limit: nat): Option<(nat, string)> {
    var n := DigitPrefix(s);
    if n == 0 then None
    else
      var value := DigitsValue(s[..n]);
      if value < limit then Some((value, s[n..])) else None
  }

  function ScanField(s: string, literal: string, limit: nat): Option<(nat, string)> {
    var rest := ScanLiteral(s, literal);
    if rest.None? then None else ScanNumber(rest.value, limit)
  }

  const UINT32: nat := 0x1_0000_0000
  const UINT8: nat := 0x100
  const INT64: nat := 0x8000_0000_0000_0000

  function ScanParams(s: string): Option<Params> {
    var m := ScanField(s, "m=", UINT32);
    if m.None? then None
    else
      var t := ScanField(m.value.1, ",t=", UINT32);
      if t.None? then None
      else
        var p := ScanField(t.value.1, ",p=", UINT8);
        if p.None? then None else Some(Params(m.value.0, t.value.0, p.value.0))
  }

  function Parse(encoded: string): (r: Result<Phc>)
    ensures r.Err? ==> r.error == MalformedHash
  {
    var parts := Split(encoded, '$');
    if |parts| != 6 || parts[1] != "argon2id" then Err(MalformedHash)
    else
      var version := ScanField(parts[2], "v=", INT64);
      if version.None? || version.value.0 != ARGON_VERSION then Err(MalformedHash)
      else
        var params, salt, key := ScanParams(parts[3]), Decode(parts[4]), Decode(parts[5]);
        if params.None? || salt.None? || key.None? then Err(MalformedHash)
        else if |key.value| < MIN_KEY_LEN || |key.value| > MAX_KEY_LEN then Err(MalformedHash)
        else Ok(Phc(params.value, salt.value, key.value))
  }

  // ----- Printing, then parsing -----

  lemma {:induction false} DigitPrefixStops(digits: string, rest: string)
    requires AllDigits(digits) && (rest == "" || !IsDigit(rest[0]))
    ensures DigitPrefix(digits + rest) == |digits|
  {
    if digits == "" {
      assert digits + rest == rest;
    } else {
      assert (digits + rest)[1..] == digits[1..] + rest;
      assert AllDigits(digits[1..]) && IsDigit(digits[0]);
      DigitPrefixStops(digits[1..], rest);
    }
  }

  lemma ScanPrintedField(literal: string, n: nat, limit: nat, rest: string)
    requires n < limit && (rest == "" || !IsDigit(rest[0]))
    ensures ScanField(literal + Decimal(n) + rest, literal, limit) == Some((n, rest))
  {
    var s := literal + Decimal(n) + rest;
    assert s[|literal|..] == Decimal(n) + rest;
    DigitPrefixStops(Decimal(n), rest);
    assert (Decimal(n) + rest)[..|Decimal(n)|] == Decimal(n);
    DecimalRoundTrip(n);
  }

  predicate InRange(p: Params) {
    p.memory < UINT32 && p.iterations < UINT32 && p.parallelism < UINT8
  }

  lemma ParamsRoundTrip(p: Params)
    requires InRange(p)
    ensures ScanParams(PrintParams(p)) == Some(p)
  {
    hide Decimal, DigitPrefix;
    var threads := ",p=" + Decimal(p.parallelism) + "";
    var times := ",t=" + Decimal(p.iterations) + threads;
    ScanPrintedField("m=", p.memory, UINT32, times);
    ScanPrintedField(",t=", p.iterations, UINT32, threads);
    ScanPrintedField(",p=", p.parallelism, UINT8, "");
    hide ScanField;
  }

  lemma DecimalHasNoDollar(n: nat)
    ensures '$' !in Decimal(n)
  {
    assert '$' in Decimal(n) ==> IsDigit('$');
  }

  lemma SplitDollar(field: string, rest: string)
    requires '$' !in field
    ensures Split(Dollar(field, rest), '$') == [field] + Split(rest, '$')
  {
    SplitFirst(field, '$', rest);
  }

  lemma FieldsHaveNoDollar(h: Phc)
    ensures '$' !in PrintVersion() && '$' !in PrintParams(h.params)
    ensures '$' !in Encode(h.salt) && '$' !in Encode(h.key)
  {
    DecimalHasNoDollar(ARGON_VERSION);
    DecimalHasNoDollar(h.params.memory);
    DecimalHasNoDollar(h.params.iterations);
    DecimalHasNoDollar(h.params.parallelism);
    EncodedAlphabet(h.salt, '$');
    EncodedAlphabet(h.key, '$');
    hide Decimal, Encode;
  }

  lemma PrintedParts(h: Phc)
    ensures Split(Print(h), '$')
            == ["", "argon2id", PrintVersion(), PrintParams(h.params), Encode(h.salt), Encode(h.key)]
  {
    FieldsHaveNoDollar(h);
    hide Encode, PrintParams, PrintVersion, Split, Dollar;
    var tail3 := Dollar(Encode(h.salt), Encode(h.key));
    var tail2 := Dollar(PrintParams(h.params), tail3);
    var tail1 := Dollar(PrintVersion(), tail2);
    SplitDollar("", Dollar("argon2id", tail1));
    SplitDollar("argon2id", tail1);
    SplitDollar(PrintVersion(), tail2);
    SplitDollar(PrintParams(h.params), tail3);
    SplitDollar(Encode(h.salt), Encode(h.key));
    SplitOne(Encode(h.key), '$');
  }

  // Whatever is printed is read back exactly, if and only if the key is long and short enough to be
  // trusted as a length.
  lemma PhcRoundTrip(h: Phc)
    requires InRange(h.params)
    ensures Parse(Print(h)) == if 16 <= |h.key| <= 64 then Ok(h) else Err(MalformedHash)
  {
    hide Print, PrintParams, Decimal, Encode, Decode, ScanField, ScanParams, Split;
    PrintedParts(h);
    ScanPrintedField("v=", ARGON_VERSION, INT64, "");
    ParamsRoundTrip(h.params);
    Base64RoundTrip(h.salt);
    Base64RoundTrip(h.key);
  }

  // ----- Hashing and verifying -----

  // What Argon2 computes for a password hashed today.
  function CurrentKey(argon: Argon, plain: string, salt: Bytes): Bytes {
    argon(plain, salt, CURRENT.iterations, CURRENT.memory, CURRENT.parallelism, ARGON_KEY_LEN)
  }

  function HashPassword(argon: Argon, plain: string, salt: Bytes): string {
    Print(Phc(CURRENT, salt, CurrentKey(argon, plain, salt)))
  }

  // argon2.IDKey panics when asked for no pass or no thread.
  predicate Computable(p: Params) {
    p.iterations >= 1 && p.parallelism >= 1
  }

  function VerifyPassword(argon: Argon, plain: string, encoded: string): (r: Result<bool>)
    ensures r.Err? ==> r.error == MalformedHash || r.error == Panicked
  {
    var h := Parse(encoded);
    if h.Err? then Err(h.error)
    else
      var p := h.value.params;
      if !Computable(p) then Err(Panicked)
      else Ok(argon(plain, h.value.salt, p.iterations, p.memory, p.parallelism, |h.value.key|) == h.value.key)
  }

  // A hash stored under any cost verifies under that cost: the answer is key equality under the
  // stored parameters, wherever Argon2 accepts them.
  lemma StoredCostDecides(argon: Argon, plain: string, h: Phc)
    requires InRange(h.params) && 16 <= |h.key| <= 64
    ensures var p := h.params;
            VerifyPassword(argon, plain, Print(h))
            == if p.iterations >= 1 && p.parallelism >= 1 then
                 Ok(argon(plain, h.salt, p.iterations, p.memory, p.parallelism, |h.key|) == h.key)
               else Err(Panicked)
  {
    PhcRoundTrip(h);
  }

  // A fresh hash accepts exactly the passwords Argon2 cannot tell from the original.
  lemma HashThenVerify(argon: Argon, plain: string, attempt: string, salt: Bytes)
    requires |CurrentKey(argon, plain, salt)| == ARGON_KEY_LEN
    ensures VerifyPassword(argon, plain, HashPassword(argon, plain, salt)) == Ok(true)
    ensures VerifyPassword(argon, attempt, HashPassword(argon, plain, salt))
            == Ok(CurrentKey(argon, attempt, salt) == CurrentKey(argon, plain, salt))
    ensures HashPassword(argon, plain, salt) != ""
  {
    var h := Phc(CURRENT, salt, CurrentKey(argon, plain, salt));
    StoredCostDecides(argon, plain, h);
    StoredCostDecides(argon, attempt, h);
  }

  // ----- The stored text -----

  // Table 1 of RFC 4648, by character code.
  lemma AlphabetIsStandard(v: nat)
    requires v < 64
    ensures v < 26 ==> Char64(v) as int == 65 + v
    ensures 26 <= v < 52 ==> Char64(v) as int == 97 + (v - 26)
    ensures 52 <= v < 62 ==> Char64(v) as int == 48 + (v - 52)
    ensures Char64(62) as int == 43 && Char64(63) as int == 47
  {
  }

  // Three bytes are four digits of one 24-bit number, most significant first ...
  lemma ThreeAreBigEndian(x: Byte, y: Byte, z: Byte, v0: nat, v1: nat, v2: nat, v3: nat)
    requires v0 < 64 && v1 < 64 && v2 < 64 && v3 < 64
    requires 65536 * x + 256 * y + z == 262144 * v0 + 4096 * v1 + 64 * v2 + v3
    ensures Encode([x, y, z]) == [Char64(v0), Char64(v1), Char64(v2), Char64(v3)]
  {
    hide Char64;
    assert v0 == x / 4 && v1 == x % 4 * 16 + y / 16 && v2 == y % 16 * 4 + z / 64 && v3 == z % 64;
    assert [x, y, z][3..] == [];
  }

  // ... and one or two bytes are the leading digits of the number they make with zero bits behind them.
  lemma TwoAreBigEndian(x: Byte, y: Byte, v0: nat, v1: nat, v2: nat)
    requires v0 < 64 && v1 < 64 && v2 < 64 && 256 * x + y == 1024 * v0 + 16 * v1 + v2 / 4 && v2 % 4 == 0
    ensures Encode([x, y]) == [Char64(v0), Char64(v1), Char64(v2)]
  {
    hide Char64;
    assert v0 == x / 4 && v1 == x % 4 * 16 + y / 16 && v2 == y % 16 * 4;
  }

  lemma OneIsBigEndian(x: Byte, v0: nat, v1: nat)
    requires v0 < 64 && v1 < 64 && x == 4 * v0 + v1 / 16 && v1 % 16 == 0
    ensures Encode([x]) == [Char64(v0), Char64(v1)]
  {
    hide Char64;
    assert v0 == x / 4 && v1 == x % 4 * 16;
  }

  // Longer texts are encoded group by group.
  lemma GroupsFollowEachOther(x: Byte, y: Byte, z: Byte, rest: Bytes)
    ensures Encode([x, y, z] + rest) == Encode([x, y, z]) + Encode(rest)
  {
    assert ([x, y, z] + rest)[3..] == rest && [x, y, z][3..] == [];
    hide EncodeThree;
  }

  lemma CurrentIsPrinted()
    ensures Decimal(19) == "19"
    ensures PrintVersion() == "v=19" && PrintParams(CURRENT) == "m=19456,t=2,p=1"
  {
    assert Decimal(19) == "19";
    assert Decimal(194) == Decimal(19) + "4";
    assert Decimal(1945) == Decimal(194) + "5";
    assert Decimal(19456) == Decimal(1945) + "6";
  }

  lemma DollarJoins(head: string, field: string, rest: string)
    ensures head + Dollar(field, rest) == head + field + "$" + rest
  {
  }

  // Every fresh hash says which algorithm, version and cost it was made with.
  lemma FreshHashIsMarked(argon: Argon, plain: string, salt: Bytes)
    ensures var key := argon(plain, salt, 2, 19456, 1, 32);
            HashPassword(argon, plain, salt)
            == "$" + "argon2id" + "$" + "v=19" + "$" + "m=19456,t=2,p=1" + "$" + Encode(salt) + "$" + Encode(key)
  {
    CurrentIsPrinted();
    hide Encode, Decimal, PrintParams, PrintVersion;
    var key := argon(plain, salt, 2, 19456, 1, 32);
    var tail := Dollar(Encode(salt), Encode(key));
    var costs := Dollar("m=19456,t=2,p=1", tail);
    var version := Dollar("v=19", costs);
    assert Dollar("", Dollar("argon2id", version)) == "$" + Dollar("argon2id", version);
    hide Dollar;
    DollarJoins("$", "argon2id", version);
    DollarJoins("$" + "argon2id" + "$", "v=19", costs);
    DollarJoins("$" + "argon2id" + "$" + "v=19" + "$", "m=19456,t=2,p=1", tail);
    DollarJoins("$" + "argon2id" + "$" + "v=19" + "$" + "m=19456,t=2,p=1" + "$", Encode(salt), Encode(key));
  }

  // ----- What is refused -----

  // A text that does not have the six parts of this algorithm and version is malformed.
  lemma OtherTextsAreMalformed(encoded: string)
    ensures Parse(encoded).Ok? ==>
              && |Split(encoded, '$')| == 6 && Split(encoded, '$')[1] == "argon2id"
              && ScanField(Split(encoded, '$')[2], "v=", INT64).Some?
              && ScanField(Split(encoded, '$')[2], "v=", INT64).value.0 == 19
              && 16 <= |Parse(encoded).value.key| <= 64
  {
  }

  lemma {:induction false} ScanRefusesLarge(literal: string, n: nat, limit: nat, rest: string)
    requires n >= limit && (rest == "" || !IsDigit(rest[0]))
    ensures ScanField(literal + Decimal(n) + rest, literal, limit) == None
  {
    var s := literal + Decimal(n) + rest;
    assert s[|literal|..] == Decimal(n) + rest;
    DigitPrefixStops(Decimal(n), rest);
    assert (Decimal(n) + rest)[..|Decimal(n)|] == Decimal(n);
    DecimalRoundTrip(n);
  }

  lemma OversizedParamsAreRefused(p: Params)
    requires p.memory >= 0x1_0000_0000 || p.iterations >= 0x1_0000_0000 || p.parallelism >= 0x100
    ensures ScanParams(PrintParams(p)) == None
  {
    hide Decimal, DigitPrefix;
    var threads := ",p=" + Decimal(p.parallelism) + "";
    var times := ",t=" + Decimal(p.iterations) + threads;
    if p.memory >= UINT32 {
      ScanRefusesLarge("m=", p.memory, UINT32, times);
    } else {
      ScanPrintedField("m=", p.memory, UINT32, times);
      if p.iterations >= UINT32 {
        ScanRefusesLarge(",t=", p.iterations, UINT32, threads);
      } else {
        ScanPrintedField(",t=", p.iterations, UINT32, threads);
        ScanRefusesLarge(",p=", p.parallelism, UINT8, "");
      }
    }
    hide ScanField;
  }

  // A cost that does not fit 32 bits, or 8 for the threads, is malformed however it is printed.
  lemma OversizedCostIsMalformed(h: Phc)
    requires h.params.memory >= 0x1_0000_0000 || h.params.iterations >= 0x1_0000_0000 || h.params.parallelism >= 0x100
    ensures Parse(Print(h)) == Err(MalformedHash)
  {
    hide Print, Decimal, Encode, Decode, Split, DigitPrefix;
    PrintedParts(h);
    OversizedParamsAreRefused(h.params);
    hide ScanParams, ScanField, PrintParams;
  }
}
