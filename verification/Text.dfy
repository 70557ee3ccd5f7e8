// The few string operations the models share, over ASCII text.

module Text {

  predicate IsSpace(c: char) {
    9 <= c as int <= 13 || c == ' '
  }

  // strings.TrimSpace
  function TrimLeft(s: string): string {
    if s != "" && IsSpace(s[0]) then TrimLeft(s[1..]) else s
  }

  function TrimRight(s: string): string {
    if s != "" && IsSpace(s[|s| - 1]) then TrimRight(s[..|s| - 1]) else s
  }

  function TrimSpace(s: string): string {
    TrimRight(TrimLeft(s))
  }

  // strings.ToLower
  function LowerChar(c: char): char {
    if 'A' <= c <= 'Z' then c + ('a' - 'A') else c
  }

  function ToLower(s: string): string {
    seq(|s|, i requires 0 <= i < |s| => LowerChar(s[i]))
  }

  // strings.Split on a one-character separator.
  function Split(s: string, sep: char): (parts: seq<string>)
    ensures parts != []
  {
    if s == "" then [""]
    else
      var rest := Split(s[1..], sep);
      if s[0] == sep then [""] + rest else [[s[0]] + rest[0]] + rest[1..]
  }

  lemma {:induction false} SplitOne(a: string, sep: char)
    requires sep !in a
    ensures Split(a, sep) == [a]
  {
    if a != "" {
      SplitOne(a[1..], sep);
      assert a == [a[0]] + a[1..];
    }
  }

  lemma {:induction false} SplitFirst(a: string, sep: char, b: string)
    requires sep !in a
    ensures Split(a + [sep] + b, sep) == [a] + Split(b, sep)
  {
    var s := a + [sep] + b;
    if a == "" {
      assert s[1..] == b;
    } else {
      assert s[1..] == a[1..] + [sep] + b;
      SplitFirst(a[1..], sep, b);
      assert a == [a[0]] + a[1..];
    }
  }

  lemma {:induction false} SplitLast(a: string, sep: char, b: string)
    requires sep !in b
    ensures Split(a + [sep] + b, sep) == Split(a, sep) + [b]
  {
    var s := a + [sep] + b;
    if a == "" {
      SplitFirst("", sep, b);
      SplitOne(b, sep);
    } else {
      assert s[1..] == a[1..] + [sep] + b;
      SplitLast(a[1..], sep, b);
    }
  }

  // normalizeEmail (internal/auth/register.go)
  function NormalizeEmail(email: string): string {
    ToLower(TrimSpace(email))
  }

  lemma {:induction false} TrimLeftLower(s: string)
    ensures TrimLeft(ToLower(s)) == ToLower(TrimLeft(s))
  {
    if s != "" {
      assert IsSpace(ToLower(s)[0]) <==> IsSpace(s[0]);
      assert ToLower(s)[1..] == ToLower(s[1..]);
      TrimLeftLower(s[1..]);
    }
  }

  lemma {:induction false} TrimRightLower(s: string)
    ensures TrimRight(ToLower(s)) == ToLower(TrimRight(s))
  {
    if s != "" {
      assert IsSpace(ToLower(s)[|s| - 1]) <==> IsSpace(s[|s| - 1]);
      assert ToLower(s)[..|s| - 1] == ToLower(s[..|s| - 1]);
      TrimRightLower(s[..|s| - 1]);
    }
  }

  lemma {:induction false} TrimmedStaysTrimmed(s: string)
    ensures TrimRight(TrimRight(s)) == TrimRight(s)
    ensures (s == "" || !IsSpace(s[0])) ==> TrimRight(s) == "" || TrimRight(s)[0] == s[0]
  {
    if s != "" && IsSpace(s[|s| - 1]) {
      TrimmedStaysTrimmed(s[..|s| - 1]);
      if |s| == 1 {
        assert s[..0] == "";
      }
    }
  }

  lemma {:induction false} TrimLeftTrims(s: string)
    ensures TrimLeft(s) == "" || !IsSpace(TrimLeft(s)[0])
  {
    if s != "" && IsSpace(s[0]) {
      TrimLeftTrims(s[1..]);
    }
  }

  // An address is normalised once and for all: looking it up by any spelling that normalises alike
  // finds the same row.
  lemma NormalizeEmailIsIdempotent(email: string)
    ensures NormalizeEmail(NormalizeEmail(email)) == NormalizeEmail(email)
    ensures ToLower(NormalizeEmail(email)) == NormalizeEmail(email)
  {
    var t := TrimSpace(email);
    TrimLeftTrims(email);
    TrimmedStaysTrimmed(TrimLeft(email));
    assert TrimLeft(t) == t && TrimRight(t) == t;
    TrimLeftLower(t);
    TrimRightLower(t);
    assert forall s :: ToLower(ToLower(s)) == ToLower(s);
  }

  // ----- What normalising means, character by character -----

  predicate Blank(c: char) {
    c as int in {9, 10, 11, 12, 13, 32}
  }

  predicate AllBlank(s: string) {
    forall c <- s :: Blank(c)
  }

  // The same letter up to case.
  predicate SameLetter(a: char, b: char) {
    || a == b
    || ('A' <= a <= 'Z' && b as int == a as int + 32)
    || ('A' <= b <= 'Z' && a as int == b as int + 32)
  }

  predicate SameLetters(a: string, b: string) {
    |a| == |b| && forall i | 0 <= i < |a| :: SameLetter(a[i], b[i])
  }

  // No capital letter, and no blank at either end.
  predicate Clean(s: string) {
    && (forall c <- s :: !('A' <= c <= 'Z'))
    && (s != "" ==> !Blank(s[0]) && !Blank(s[|s| - 1]))
  }

  // e is x with blanks around it.
  ghost predicate Padded(e: string, x: string) {
    exists p, q :: AllBlank(p) && AllBlank(q) && e == p + x + q
  }

  // Two spellings of one address: equal up to case and blanks around them.
  ghost predicate Respelled(a: string, b: string) {
    exists x, y :: Padded(a, x) && Padded(b, y) && SameLetters(x, y)
  }

  lemma {:induction false} TrimLeftDropsBlanks(s: string) returns (p: string)
    ensures AllBlank(p) && s == p + TrimLeft(s)
  {
    if s != "" && IsSpace(s[0]) {
      var q := TrimLeftDropsBlanks(s[1..]);
      p := [s[0]] + q;
      assert TrimLeft(s) == TrimLeft(s[1..]);
      hide TrimLeft;
      calc {
        s;
        [s[0]] + s[1..];
        [s[0]] + (q + TrimLeft(s[1..]));
        p + TrimLeft(s);
      }
    } else {
      p := "";
    }
  }

  lemma {:induction false} TrimRightDropsBlanks(s: string) returns (q: string)
    ensures AllBlank(q) && s == TrimRight(s) + q
  {
    if s != "" && IsSpace(s[|s| - 1]) {
      var r := TrimRightDropsBlanks(s[..|s| - 1]);
      q := r + [s[|s| - 1]];
      assert s == s[..|s| - 1] + [s[|s| - 1]];
    } else {
      q := "";
    }
  }

  lemma {:induction false} TrimRightTrims(s: string)
    ensures TrimRight(s) == "" || !IsSpace(TrimRight(s)[|TrimRight(s)| - 1])
  {
    if s != "" && IsSpace(s[|s| - 1]) {
      TrimRightTrims(s[..|s| - 1]);
    }
  }

  lemma {:induction false} TrimLeftOfPadded(p: string, x: string)
    requires AllBlank(p)
    ensures TrimLeft(p + x) == TrimLeft(x)
  {
    if p == "" {
      assert p + x == x;
    } else {
      assert p[0] in p;
      assert (p + x)[1..] == p[1..] + x;
      assert forall c <- p[1..] :: c in p;
      TrimLeftOfPadded(p[1..], x);
    }
  }

  lemma {:induction false} TrimRightOfPadded(x: string, q: string)
    requires AllBlank(q)
    ensures TrimRight(x + q) == TrimRight(x)
  {
    if q == "" {
      assert x + q == x;
    } else {
      assert q[|q| - 1] in q;
      assert (x + q)[..|x + q| - 1] == x + q[..|q| - 1];
      assert forall c <- q[..|q| - 1] :: c in q;
      TrimRightOfPadded(x, q[..|q| - 1]);
    }
  }

  lemma {:induction false} TrimLeftOfBlank(q: string)
    requires AllBlank(q)
    ensures TrimLeft(q) == ""
  {
    if q != "" {
      assert q[0] in q;
      assert forall c <- q[1..] :: c in q;
      TrimLeftOfBlank(q[1..]);
    }
  }

  // Trimming forgets the blanks around a text.
  lemma {:induction false} TrimLeftBefore(x: string, q: string)
    requires AllBlank(q)
    ensures TrimRight(TrimLeft(x + q)) == TrimRight(TrimLeft(x))
    decreases |x|
  {
    if x == "" {
      assert x + q == q;
      TrimLeftOfBlank(q);
    } else if IsSpace(x[0]) {
      assert (x + q)[1..] == x[1..] + q;
      TrimLeftBefore(x[1..], q);
    } else {
      TrimRightOfPadded(x, q);
    }
  }

  lemma TrimOfPadded(p: string, x: string, q: string)
    requires AllBlank(p) && AllBlank(q)
    ensures TrimSpace(p + x + q) == TrimSpace(x)
  {
    assert p + x + q == p + (x + q);
    TrimLeftOfPadded(p, x + q);
    TrimLeftBefore(x, q);
  }

  lemma ToLowerDecides(a: string, b: string)
    ensures ToLower(a) == ToLower(b) <==> SameLetters(a, b)
  {
    if ToLower(a) == ToLower(b) {
      assert |a| == |b|;
      forall i | 0 <= i < |a| ensures SameLetter(a[i], b[i]) {
        assert ToLower(a)[i] == ToLower(b)[i];
      }
    }
  }

  lemma TrimmedCore(e: string)
    ensures Padded(e, TrimSpace(e))
  {
    var p := TrimLeftDropsBlanks(e);
    var q := TrimRightDropsBlanks(TrimLeft(e));
    assert e == p + TrimSpace(e) + q;
  }

  lemma LowerIsClean(t: string)
    requires t != "" ==> !IsSpace(t[0]) && !IsSpace(t[|t| - 1])
    ensures Clean(ToLower(t)) && SameLetters(ToLower(t), t)
  {
    var n := ToLower(t);
    forall c <- n ensures !('A' <= c <= 'Z') {
      var i :| 0 <= i < |n| && n[i] == c;
    }
  }

  lemma TrimmedEnds(e: string)
    ensures var t := TrimSpace(e); t != "" ==> !IsSpace(t[0]) && !IsSpace(t[|t| - 1])
  {
    TrimLeftTrims(e);
    TrimRightTrims(TrimLeft(e));
    TrimmedStaysTrimmed(TrimLeft(e));
  }

  lemma PaddedBySelf(s: string)
    ensures Padded(s, s)
  {
    assert s == "" + s + "" && AllBlank("");
  }

  // What is left of a text has no capital letter and no blank around it ...
  lemma NormalizedIsClean(e: string)
    ensures Clean(NormalizeEmail(e)) && Respelled(NormalizeEmail(e), e)
  {
    TrimmedEnds(e);
    TrimmedCore(e);
    LowerIsClean(TrimSpace(e));
    PaddedBySelf(NormalizeEmail(e));
    hide TrimSpace, ToLower, Clean, Padded, SameLetters;
  }

  // ... a clean text is left as it is ...
  lemma CleanIsUnchanged(s: string)
    requires Clean(s)
    ensures NormalizeEmail(s) == s && ToLower(s) == s
  {
    assert forall i | 0 <= i < |s| :: s[i] in s;
    assert ToLower(s) == s;
  }

  lemma CoreTrims(e: string, x: string)
    requires Padded(e, x)
    ensures TrimSpace(e) == TrimSpace(x)
  {
    var p, q :| AllBlank(p) && AllBlank(q) && e == p + x + q;
    TrimOfPadded(p, x, q);
  }

  lemma TrimLower(s: string)
    ensures TrimSpace(ToLower(s)) == ToLower(TrimSpace(s))
  {
    TrimLeftLower(s);
    TrimRightLower(TrimLeft(s));
  }

  lemma NormalizeSameLetters(x: string, y: string)
    requires SameLetters(x, y)
    ensures NormalizeEmail(x) == NormalizeEmail(y)
  {
    ToLowerDecides(x, y);
    TrimLower(x);
    TrimLower(y);
  }

  lemma SameLettersCompose(x: string, y: string, z: string)
    requires SameLetters(x, y) && SameLetters(y, z)
    ensures SameLetters(x, z)
  {
    ToLowerDecides(x, y);
    ToLowerDecides(y, z);
    ToLowerDecides(x, z);
  }

  // ... and two texts are normalised alike exactly when they are spellings of one another.
  lemma NormalizedAlikeExactlyWhenRespelled(a: string, b: string)
    ensures NormalizeEmail(a) == NormalizeEmail(b) <==> Respelled(a, b)
  {
    if Respelled(a, b) {
      var x, y :| Padded(a, x) && Padded(b, y) && SameLetters(x, y);
      CoreTrims(a, x);
      CoreTrims(b, y);
      NormalizeSameLetters(x, y);
    }
    if NormalizeEmail(a) == NormalizeEmail(b) {
      TrimmedCore(a);
      TrimmedCore(b);
      ToLowerDecides(TrimSpace(a), TrimSpace(b));
    }
  }

  // ----- Decimal digits -----

  predicate IsDigit(c: char) {
    '0' <= c <= '9'
  }

  predicate AllDigits(s: string) {
    forall c <- s :: IsDigit(c)
  }

  function Digit(n: nat): char
    requires n < 10
  {
    '0' + n as char
  }

  // The value of a string of digits, most significant first.
  function DigitsValue(s: string): nat
    requires AllDigits(s)
  {
    if s == "" then 0
    else
      assert IsDigit(s[|s| - 1]);
      10 * DigitsValue(s[..|s| - 1]) + (s[|s| - 1] as int - '0' as int)
  }

  // %d
  function Decimal(n: nat): (s: string)
    ensures s != "" && AllDigits(s)
  {
    if n < 10 then [Digit(n)] else Decimal(n / 10) + [Digit(n % 10)]
  }

  lemma {:induction false} DecimalRoundTrip(n: nat)
    ensures DigitsValue(Decimal(n)) == n
  {
    if n < 10 {
      assert Decimal(n)[..0] == "";
    } else {
      DecimalRoundTrip(n / 10);
      assert Decimal(n)[..|Decimal(n)| - 1] == Decimal(n / 10);
    }
  }
}
