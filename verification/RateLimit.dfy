// The in-memory rate limiter: token buckets by key, swept when idle (internal/ratelimit/memory.go).
// A rate.Limiter is the exact token bucket over reals: it starts full, refills at `rate` up to
// `burst`, admits when at least one token is there, and is unchanged by a denial.

module RateLimit {

  type Key = string

  datatype Config = Config(rate: real, burst: nat, idleTtl: real)

  predicate Valid(c: Config) {
    c.rate >= 0.0 && c.idleTtl >= 0.0
  }

  datatype Limiter = Limiter(tokens: real, last: real)

  datatype Bucket = Bucket(limiter: Limiter, seen: real)

  type Buckets = map<Key, Bucket>

  datatype State = State(buckets: Buckets, lastSweep: real)

  // Seconds between sweeps.
  const SWEEP_INTERVAL: real := 60.0

  datatype Call = Call(key: Key, at: real)

  // ----- One token bucket -----

  function NewLimiter(c: Config, now: real): Limiter {
    Limiter(c.burst as real, now)
  }

  // Tokens gained in d seconds.
  function Refill(c: Config, d: real): real {
    c.rate * d
  }

  function Available(c: Config, l: Limiter, now: real): real {
    var refilled := if now <= l.last then l.tokens else l.tokens + Refill(c, now - l.last);
    if refilled <= c.burst as real then refilled else c.burst as real
  }

  function AllowOne(c: Config, l: Limiter, now: real): (bool, Limiter) {
    var a := Available(c, l, now);
    if a >= 1.0 then (true, Limiter(a - 1.0, now)) else (false, l)
  }

  // ----- The limiter with eviction, and the one that never evicts -----

  function Sweep(c: Config, s: State, now: real): State {
    if now - s.lastSweep < SWEEP_INTERVAL then s
    else State(map k | k in s.buckets && now - s.buckets[k].seen <= c.idleTtl :: s.buckets[k], now)
  }

  function LimiterFor(c: Config, b: Buckets, key: Key, now: real): Limiter {
    if key in b then b[key].limiter else NewLimiter(c, now)
  }

  function Admit(c: Config, b: Buckets, key: Key, now: real): (bool, Buckets) {
    var (allowed, l) := AllowOne(c, LimiterFor(c, b, key, now), now);
    (allowed, b[key := Bucket(l, now)])
  }

  function AllowCall(c: Config, s: State, call: Call): (bool, State) {
    var swept := Sweep(c, s, call.at);
    var (allowed, b) := Admit(c, swept.buckets, call.key, call.at);
    (allowed, swept.(buckets := b))
  }

  predicate Ordered(from: real, calls: seq<Call>)
    decreases |calls|
  {
    calls == [] || (from <= calls[0].at && Ordered(calls[0].at, calls[1..]))
  }

  function Answers(c: Config, s: State, calls: seq<Call>): seq<bool>
    decreases |calls|
  {
    if calls == [] then []
    else var (allowed, next) := AllowCall(c, s, calls[0]); [allowed] + Answers(c, next, calls[1..])
  }

  function After(c: Config, s: State, calls: seq<Call>): State
    decreases |calls|
  {
    if calls == [] then s else After(c, AllowCall(c, s, calls[0]).1, calls[1..])
  }

  function AnswersForever(c: Config, b: Buckets, calls: seq<Call>): seq<bool>
    decreases |calls|
  {
    if calls == [] then []
    else var (allowed, next) := Admit(c, b, calls[0].key, calls[0].at); [allowed] + AnswersForever(c, next, calls[1..])
  }

  function AfterForever(c: Config, b: Buckets, calls: seq<Call>): Buckets
    decreases |calls|
  {
    if calls == [] then b else AfterForever(c, Admit(c, b, calls[0].key, calls[0].at).1, calls[1..])
  }

  function Start(now: real): State {
    State(map[], now)
  }

  // ----- Arithmetic of a bucket -----

  predicate Full(c: Config, l: Limiter, now: real) {
    Available(c, l, now) == c.burst as real
  }

  predicate BucketOk(c: Config, b: Bucket, now: real) {
    0.0 <= b.limiter.tokens <= c.burst as real && b.limiter.last <= b.seen <= now
  }

  lemma RefillMonotone(c: Config, a: real, b: real)
    requires Valid(c) && a <= b
    ensures Refill(c, a) <= Refill(c, b)
  {
    assert c.rate * (b - a) >= 0.0;
  }

  lemma RefillAdds(c: Config, a: real, b: real)
    ensures Refill(c, a + b) == Refill(c, a) + Refill(c, b)
    ensures Refill(c, 0.0) == 0.0
  {
  }

  lemma RefillGrows(c: Config, from: real, now: real, later: real)
    requires Valid(c) && from <= now <= later
    ensures Refill(c, later - from) == Refill(c, now - from) + Refill(c, later - now)
    ensures 0.0 <= Refill(c, later - now) && 0.0 <= Refill(c, now - from)
  {
    RefillAdds(c, now - from, later - now);
    RefillMonotone(c, 0.0, later - now);
    RefillMonotone(c, 0.0, now - from);
    assert later - from == (now - from) + (later - now);
  }

  lemma AvailableGrows(c: Config, l: Limiter, now: real, later: real)
    requires Valid(c) && now <= later && l.last <= now
    ensures Available(c, l, now) <= Available(c, l, later) <= Available(c, l, now) + Refill(c, later - now)
    ensures Full(c, l, now) ==> Full(c, l, later)
  {
    hide Refill;
    RefillGrows(c, l.last, now, later);
    RefillAdds(c, 0.0, 0.0);
  }

  lemma AvailableInRange(c: Config, l: Limiter, now: real)
    requires Valid(c) && 0.0 <= l.tokens <= c.burst as real && l.last <= now
    ensures l.tokens <= Available(c, l, now) <= c.burst as real
  {
    hide Refill;
    RefillGrows(c, l.last, l.last, now);
  }

  // A bucket left alone for longer than idleTtl has refilled.
  lemma IdleIsFull(c: Config, b: Bucket, now: real)
    requires Valid(c) && c.burst as real <= Refill(c, c.idleTtl)
    requires BucketOk(c, b, b.seen) && now - b.seen > c.idleTtl
    ensures Full(c, b.limiter, now)
  {
    hide Refill;
    RefillMonotone(c, c.idleTtl, now - b.limiter.last);
  }

  lemma AllowOneKeepsOk(c: Config, l: Limiter, now: real)
    requires Valid(c) && 0.0 <= l.tokens <= c.burst as real && l.last <= now
    ensures BucketOk(c, Bucket(AllowOne(c, l, now).1, now), now)
    ensures var (allowed, next) := AllowOne(c, l, now);
            Available(c, next, now) == Available(c, l, now) - if allowed then 1.0 else 0.0
  {
    AvailableInRange(c, l, now);
    hide Refill;
    RefillAdds(c, 0.0, 0.0);
  }

  // ----- Eviction is invisible -----

  // Two limiters nobody can tell apart from `now` on.
  predicate Alike(c: Config, l: Limiter, m: Limiter, now: real) {
    l == m || (Full(c, l, now) && Full(c, m, now))
  }

  predicate AllOk(c: Config, b: Buckets, now: real) {
    forall k <- b :: BucketOk(c, b[k], now)
  }

  // `all` never evicted; a key that `some` has lost is full there.
  predicate Mirrors(c: Config, some: Buckets, all: Buckets, now: real) {
    && AllOk(c, some, now) && AllOk(c, all, now)
    && (forall k <- some :: k in all && Alike(c, some[k].limiter, all[k].limiter, now) && some[k].seen == all[k].seen)
    && (forall k <- all :: k in some || Full(c, all[k].limiter, now))
  }

  lemma TimePasses(c: Config, some: Buckets, all: Buckets, now: real, later: real)
    requires Valid(c) && Mirrors(c, some, all, now) && now <= later
    ensures Mirrors(c, some, all, later)
  {
    forall k <- all ensures Full(c, all[k].limiter, now) ==> Full(c, all[k].limiter, later) {
      AvailableGrows(c, all[k].limiter, now, later);
    }
    forall k <- some ensures Full(c, some[k].limiter, now) ==> Full(c, some[k].limiter, later) {
      AvailableGrows(c, some[k].limiter, now, later);
    }
  }

  lemma SweepMirrors(c: Config, s: State, all: Buckets, now: real)
    requires Valid(c) && c.burst as real <= Refill(c, c.idleTtl)
    requires Mirrors(c, s.buckets, all, now)
    ensures Mirrors(c, Sweep(c, s, now).buckets, all, now)
  {
    forall k <- all | k !in Sweep(c, s, now).buckets ensures Full(c, all[k].limiter, now) {
      if k in s.buckets {
        IdleIsFull(c, all[k], now);
      }
    }
  }

  lemma AlikeAnswerAlike(c: Config, l: Limiter, m: Limiter, now: real)
    requires Alike(c, l, m, now)
    ensures AllowOne(c, l, now).0 == AllowOne(c, m, now).0
    ensures Alike(c, AllowOne(c, l, now).1, AllowOne(c, m, now).1, now)
  {
  }

  lemma AdmitMirrors(c: Config, some: Buckets, all: Buckets, key: Key, now: real)
    requires Valid(c) && Mirrors(c, some, all, now)
    ensures Admit(c, some, key, now).0 == Admit(c, all, key, now).0
    ensures Mirrors(c, Admit(c, some, key, now).1, Admit(c, all, key, now).1, now)
  {
    var l, m := LimiterFor(c, some, key, now), LimiterFor(c, all, key, now);
    assert Alike(c, l, m, now);
    AlikeAnswerAlike(c, l, m, now);
    AllowOneKeepsOk(c, l, now);
    AllowOneKeepsOk(c, m, now);
    hide Alike, AllowOne, Full;
  }

  lemma {:induction false} SweepingMirrors(c: Config, s: State, all: Buckets, from: real, calls: seq<Call>)
    requires Valid(c) && c.burst as real <= Refill(c, c.idleTtl)
    requires Mirrors(c, s.buckets, all, from) && Ordered(from, calls)
    ensures Answers(c, s, calls) == AnswersForever(c, all, calls)
    decreases |calls|
  {
    if calls != [] {
      var now, key := calls[0].at, calls[0].key;
      TimePasses(c, s.buckets, all, from, now);
      SweepMirrors(c, s, all, now);
      AdmitMirrors(c, Sweep(c, s, now).buckets, all, key, now);
      SweepingMirrors(c, AllowCall(c, s, calls[0]).1, Admit(c, all, key, now).1, now, calls[1..]);
    }
  }

  // When a bucket refills within idleTtl, sweeping changes no answer on any sequence of calls.
  lemma EvictionIsInvisible(c: Config, start: real, calls: seq<Call>)
    requires Valid(c) && c.burst as real <= c.rate * c.idleTtl && Ordered(start, calls)
    ensures Answers(c, Start(start), calls) == AnswersForever(c, map[], calls)
  {
    assert Refill(c, c.idleTtl) == c.rate * c.idleTtl;
    SweepingMirrors(c, Start(start), map[], start, calls);
  }

  const HOUR: real := 3600.0

  // The limiters the server builds from its default settings, in tokens per second: one per client
  // address, one per login address and one per resend address.
  const IP_LIMITER := Config(20.0, 40, HOUR)
  const LOGIN_LIMITER := Config(5.0 / 60.0, 5, HOUR)
  const RESEND_LIMITER := Config(3.0 / 3600.0, 3, 24.0 * HOUR)

  lemma DefaultLimitersHideEviction(start: real, calls: seq<Call>)
    requires Ordered(start, calls)
    ensures Answers(IP_LIMITER, Start(start), calls) == AnswersForever(IP_LIMITER, map[], calls)
    ensures Answers(LOGIN_LIMITER, Start(start), calls) == AnswersForever(LOGIN_LIMITER, map[], calls)
    ensures Answers(RESEND_LIMITER, Start(start), calls) == AnswersForever(RESEND_LIMITER, map[], calls)
  {
    EvictionIsInvisible(IP_LIMITER, start, calls);
    EvictionIsInvisible(LOGIN_LIMITER, start, calls);
    EvictionIsInvisible(RESEND_LIMITER, start, calls);
  }

  // ----- ... and only then -----

  function Repeat(key: Key, at: real, n: nat): seq<Call> {
    if n == 0 then [] else [Call(key, at)] + Repeat(key, at, n - 1)
  }

  function Trues(n: nat): seq<bool> {
    if n == 0 then [] else [true] + Trues(n - 1)
  }

  function TokensFor(c: Config, b: Buckets, key: Key, now: real): real {
    Available(c, LimiterFor(c, b, key, now), now)
  }

  lemma {:induction false} RepeatLength(key: Key, at: real, n: nat)
    ensures |Repeat(key, at, n)| == n
  {
    if n > 0 {
      RepeatLength(key, at, n - 1);
    }
  }

  // n calls in the same instant are all admitted exactly when n tokens are there.
  lemma {:induction false} BurstForever(c: Config, b: Buckets, key: Key, at: real, n: nat)
    requires Valid(c) && AllOk(c, b, at)
    ensures AnswersForever(c, b, Repeat(key, at, n)) == Trues(n) <==> n as real <= TokensFor(c, b, key, at)
    ensures AllOk(c, AfterForever(c, b, Repeat(key, at, n)), at)
    ensures n as real <= TokensFor(c, b, key, at) ==>
              TokensFor(c, AfterForever(c, b, Repeat(key, at, n)), key, at) == TokensFor(c, b, key, at) - n as real
    ensures var after := AfterForever(c, b, Repeat(key, at, n));
            n > 0 ==> key in after && after[key].seen == at
    ensures key in b ==> key in AfterForever(c, b, Repeat(key, at, n))
    ensures key in b && b[key].seen == at ==> AfterForever(c, b, Repeat(key, at, n))[key].seen == at
    decreases n
  {
    hide Refill;
    AllowOneKeepsOk(c, LimiterFor(c, b, key, at), at);
    AvailableInRange(c, LimiterFor(c, b, key, at), at);
    if n > 0 {
      var (allowed, next) := Admit(c, b, key, at);
      assert Repeat(key, at, n)[1..] == Repeat(key, at, n - 1);
      BurstForever(c, next, key, at, n - 1);
      var rest := AnswersForever(c, next, Repeat(key, at, n - 1));
      assert ([allowed] + rest)[1..] == rest && ([allowed] + rest)[0] == allowed;
      assert Trues(n)[1..] == Trues(n - 1) && Trues(n)[0];
      assert AnswersForever(c, b, Repeat(key, at, n)) == [allowed] + rest;
      hide Available, AllowOne;
    }
  }

  // Inside one sweep interval the limiter is the one that never evicts.
  lemma {:induction false} BurstWithoutSweep(c: Config, s: State, key: Key, at: real, n: nat)
    requires at - s.lastSweep < SWEEP_INTERVAL
    ensures Answers(c, s, Repeat(key, at, n)) == AnswersForever(c, s.buckets, Repeat(key, at, n))
    ensures After(c, s, Repeat(key, at, n)) == State(AfterForever(c, s.buckets, Repeat(key, at, n)), s.lastSweep)
    decreases n
  {
    if n > 0 {
      assert Repeat(key, at, n)[1..] == Repeat(key, at, n - 1);
      BurstWithoutSweep(c, AllowCall(c, s, Call(key, at)).1, key, at, n - 1);
    }
  }

  lemma {:induction false} AnswersSplit(c: Config, s: State, xs: seq<Call>, ys: seq<Call>)
    ensures Answers(c, s, xs + ys) == Answers(c, s, xs) + Answers(c, After(c, s, xs), ys)
    ensures |Answers(c, s, xs)| == |xs|
    decreases |xs|
  {
    hide AllowCall;
    if xs == [] {
      assert xs + ys == ys;
    } else {
      assert (xs + ys)[1..] == xs[1..] + ys;
      AnswersSplit(c, AllowCall(c, s, xs[0]).1, xs[1..], ys);
    }
  }

  lemma {:induction false} AnswersForeverSplit(c: Config, b: Buckets, xs: seq<Call>, ys: seq<Call>)
    ensures AnswersForever(c, b, xs + ys) == AnswersForever(c, b, xs) + AnswersForever(c, AfterForever(c, b, xs), ys)
    ensures |AnswersForever(c, b, xs)| == |xs|
    decreases |xs|
  {
    hide Admit;
    if xs == [] {
      assert xs + ys == ys;
    } else {
      assert (xs + ys)[1..] == xs[1..] + ys;
      AnswersForeverSplit(c, Admit(c, b, xs[0].key, xs[0].at).1, xs[1..], ys);
    }
  }

  lemma {:induction false} RepeatOrdered(key: Key, from: real, at: real, n: nat, later: real, m: nat)
    requires from <= at <= later
    ensures Ordered(from, Repeat(key, at, n) + Repeat(key, later, m))
    decreases n, m
  {
    if n > 0 {
      assert (Repeat(key, at, n) + Repeat(key, later, m))[1..] == Repeat(key, at, n - 1) + Repeat(key, later, m);
      RepeatOrdered(key, at, at, n - 1, later, m);
    } else if m > 0 {
      assert Repeat(key, at, 0) + Repeat(key, later, m) == Repeat(key, later, m);
      assert Repeat(key, later, m)[1..] == Repeat(key, later, 0) + Repeat(key, later, m - 1);
      RepeatOrdered(key, later, later, 0, later, m - 1);
    }
  }

  // How long to wait so that the key is idle but its bucket has not refilled.
  ghost function Gap(c: Config): real
    requires Valid(c)
  {
    if c.rate == 0.0 then c.idleTtl + 1.0 else (c.idleTtl + c.burst as real / c.rate) / 2.0
  }

  lemma GapIsIdleAndShort(c: Config)
    requires Valid(c) && c.burst as real > Refill(c, c.idleTtl)
    ensures Gap(c) > c.idleTtl && Refill(c, Gap(c)) < c.burst as real
  {
    if c.rate > 0.0 {
      var full := c.burst as real / c.rate;
      assert c.rate * full == c.burst as real;
      if full <= c.idleTtl {
        RefillMonotone(c, full, c.idleTtl);
      }
      assert c.rate * Gap(c) == (c.rate * c.idleTtl + c.rate * full) / 2.0;
    }
  }

  ghost function DrainAt(c: Config): real
    requires Valid(c)
  {
    if Gap(c) < SWEEP_INTERVAL then SWEEP_INTERVAL - Gap(c) else 0.0
  }

  // Drain a key, wait Gap, drain it again: the first drain is timed so that a sweep falls in between.
  ghost function DrainTwice(c: Config): seq<Call>
    requires Valid(c)
  {
    Repeat("k", DrainAt(c), c.burst) + Repeat("k", DrainAt(c) + Gap(c), c.burst)
  }

  lemma SecondDrainForever(c: Config, drained: Buckets, at: real, again: real)
    requires Valid(c) && at <= again && Refill(c, again - at) < c.burst as real
    requires AllOk(c, drained, at) && "k" in drained && TokensFor(c, drained, "k", at) == 0.0
    ensures AnswersForever(c, drained, Repeat("k", again, c.burst)) != Trues(c.burst)
  {
    hide Refill;
    AvailableGrows(c, drained["k"].limiter, at, again);
    BurstForever(c, drained, "k", again, c.burst);
  }

  lemma SecondDrainSwept(c: Config, drained: Buckets, at: real, again: real)
    requires Valid(c) && again >= SWEEP_INTERVAL && c.burst > 0
    requires AllOk(c, drained, at) && "k" in drained && drained["k"].seen == at && again - at > c.idleTtl
    ensures Answers(c, State(drained, 0.0), Repeat("k", again, c.burst)) == Trues(c.burst)
  {
    var swept := Sweep(c, State(drained, 0.0), again);
    assert "k" !in swept.buckets && Sweep(c, swept, again) == swept;
    assert AllowCall(c, State(drained, 0.0), Call("k", again)) == AllowCall(c, swept, Call("k", again));
    var drain := Repeat("k", again, c.burst);
    assert Answers(c, State(drained, 0.0), drain) == Answers(c, swept, drain);
    BurstWithoutSweep(c, swept, "k", again, c.burst);
    BurstForever(c, swept.buckets, "k", again, c.burst);
  }

  lemma DrainTwiceTellsApart(c: Config)
    requires Valid(c) && c.burst as real > Refill(c, c.idleTtl)
    ensures Ordered(0.0, DrainTwice(c))
    ensures Answers(c, Start(0.0), DrainTwice(c)) != AnswersForever(c, map[], DrainTwice(c))
  {
    hide Refill;
    GapIsIdleAndShort(c);
    RefillMonotone(c, 0.0, c.idleTtl);
    RefillAdds(c, 0.0, 0.0);
    hide Gap, Available, Ordered;
    var at, n := DrainAt(c), c.burst;
    var again := at + Gap(c);
    var first, second := Repeat("k", at, n), Repeat("k", again, n);
    RepeatOrdered("k", 0.0, at, n, again, n);
    RepeatLength("k", at, n);
    AnswersSplit(c, Start(0.0), first, second);
    AnswersForeverSplit(c, map[], first, second);
    BurstWithoutSweep(c, Start(0.0), "k", at, n);
    BurstForever(c, map[], "k", at, n);
    var drained := AfterForever(c, map[], first);
    assert After(c, Start(0.0), first) == State(drained, 0.0);
    SecondDrainForever(c, drained, at, again);
    SecondDrainSwept(c, drained, at, again);
    var answers, forever := Answers(c, Start(0.0), DrainTwice(c)), AnswersForever(c, map[], DrainTwice(c));
    assert answers[n..] == Answers(c, State(drained, 0.0), second);
    assert forever[n..] == AnswersForever(c, drained, second);
  }

  // Eviction is invisible exactly when an idle bucket always refills before it may be evicted.
  lemma EvictionIsInvisibleExactlyWhen(c: Config)
    requires Valid(c)
    ensures c.burst as real <= c.rate * c.idleTtl
            <==> forall start, calls | Ordered(start, calls) ::
                   Answers(c, Start(start), calls) == AnswersForever(c, map[], calls)
  {
    assert Refill(c, c.idleTtl) == c.rate * c.idleTtl;
    if c.burst as real <= c.rate * c.idleTtl {
      forall start, calls | Ordered(start, calls)
        ensures Answers(c, Start(start), calls) == AnswersForever(c, map[], calls)
      {
        EvictionIsInvisible(c, start, calls);
      }
    } else {
      DrainTwiceTellsApart(c);
    }
  }

  // ----- Bounded memory -----

  predicate RecentlySeen(c: Config, s: State, now: real) {
    && s.lastSweep <= now && now - s.lastSweep < SWEEP_INTERVAL
    && forall k <- s.buckets :: s.buckets[k].seen <= now && s.lastSweep - s.buckets[k].seen <= c.idleTtl
  }

  // After any call every tracked key was seen within idleTtl plus one sweep interval.
  lemma {:induction false} TrackedKeysWereSeenRecently(c: Config, s: State, from: real, calls: seq<Call>)
    requires Valid(c) && RecentlySeen(c, s, from) && Ordered(from, calls) && calls != []
    ensures var now := calls[|calls| - 1].at; var s' := After(c, s, calls);
            RecentlySeen(c, s', now) && forall k <- s'.buckets :: now - s'.buckets[k].seen < c.idleTtl + 60.0
    decreases |calls|
  {
    var s1 := AllowCall(c, s, calls[0]).1;
    assert RecentlySeen(c, s1, calls[0].at);
    if calls[1..] == [] {
      assert After(c, s, calls) == s1;
    } else {
      TrackedKeysWereSeenRecently(c, s1, calls[0].at, calls[1..]);
    }
  }

  // ----- The window bound -----

  function AdmittedCount(key: Key, calls: seq<Call>, answers: seq<bool>): nat
    requires |calls| == |answers|
  {
    if calls == [] then 0
    else (if answers[0] && calls[0].key == key then 1 else 0) + AdmittedCount(key, calls[1..], answers[1..])
  }

  // A call of the key pays one token; time adds at most rate; eviction gives nothing away.
  lemma AllowPaysForItself(c: Config, s: State, key: Key, from: real, call: Call)
    requires Valid(c) && c.burst as real <= Refill(c, c.idleTtl)
    requires AllOk(c, s.buckets, from) && from <= call.at
    ensures var (allowed, s') := AllowCall(c, s, call);
            && AllOk(c, s'.buckets, call.at)
            && TokensFor(c, s'.buckets, key, call.at) + (if allowed && call.key == key then 1.0 else 0.0)
               <= TokensFor(c, s.buckets, key, from) + Refill(c, call.at - from)
  {
    var swept := Sweep(c, s, call.at).buckets;
    hide Refill;
    RefillGrows(c, from, from, call.at);
    if key in s.buckets {
      AvailableGrows(c, s.buckets[key].limiter, from, call.at);
      AvailableInRange(c, s.buckets[key].limiter, call.at);
      if key !in swept {
        IdleIsFull(c, s.buckets[key], call.at);
      }
    }
    assert TokensFor(c, swept, key, call.at) <= TokensFor(c, s.buckets, key, from) + Refill(c, call.at - from);
    AllowOneKeepsOk(c, LimiterFor(c, swept, call.key, call.at), call.at);
    hide AllowOne, Available;
  }

  lemma {:induction false} OrderedEnd(from: real, calls: seq<Call>)
    requires Ordered(from, calls) && calls != []
    ensures from <= calls[|calls| - 1].at
    decreases |calls|
  {
    if calls[1..] != [] {
      OrderedEnd(calls[0].at, calls[1..]);
    }
  }

  lemma {:induction false} RunPaysForItself(c: Config, s: State, key: Key, from: real, calls: seq<Call>)
    requires Valid(c) && c.burst as real <= Refill(c, c.idleTtl)
    requires AllOk(c, s.buckets, from) && Ordered(from, calls) && calls != []
    ensures |Answers(c, s, calls)| == |calls|
    ensures AdmittedCount(key, calls, Answers(c, s, calls)) as real
            <= TokensFor(c, s.buckets, key, from) + Refill(c, calls[|calls| - 1].at - from)
    decreases |calls|
  {
    hide Refill;
    var (allowed, s') := AllowCall(c, s, calls[0]);
    AllowPaysForItself(c, s, key, from, calls[0]);
    var rest := calls[1..];
    assert Answers(c, s, calls)[1..] == Answers(c, s', rest);
    AvailableInRange(c, LimiterFor(c, s'.buckets, key, calls[0].at), calls[0].at);
    hide AllowCall, Available, AllOk;
    if rest != [] {
      RunPaysForItself(c, s', key, calls[0].at, rest);
      assert calls[|calls| - 1] == rest[|rest| - 1];
      OrderedEnd(calls[0].at, rest);
      RefillGrows(c, from, calls[0].at, calls[|calls| - 1].at);
    }
  }

  lemma {:induction false} AfterIsOk(c: Config, s: State, from: real, calls: seq<Call>)
    requires Valid(c) && AllOk(c, s.buckets, from) && Ordered(from, calls)
    ensures AllOk(c, After(c, s, calls).buckets, if calls == [] then from else calls[|calls| - 1].at)
    decreases |calls|
  {
    if calls != [] {
      hide Refill;
      AllowOneKeepsOk(c, LimiterFor(c, Sweep(c, s, calls[0].at).buckets, calls[0].key, calls[0].at), calls[0].at);
      AfterIsOk(c, AllowCall(c, s, calls[0]).1, calls[0].at, calls[1..]);
    }
  }

  lemma {:induction false} OrderedSplit(from: real, xs: seq<Call>, ys: seq<Call>)
    requires Ordered(from, xs + ys)
    ensures Ordered(from, xs) && Ordered(if xs == [] then from else xs[|xs| - 1].at, ys)
    decreases |xs|
  {
    if xs == [] {
      assert xs + ys == ys;
    } else {
      assert (xs + ys)[1..] == xs[1..] + ys;
      OrderedSplit(xs[0].at, xs[1..], ys);
    }
  }

  lemma WindowStartsBelowBurst(c: Config, s: State, key: Key, from: real, window: seq<Call>)
    requires Valid(c) && AllOk(c, s.buckets, from) && Ordered(from, window) && window != []
    ensures TokensFor(c, s.buckets, key, window[0].at) <= c.burst as real
    ensures AllOk(c, s.buckets, window[0].at) && Ordered(window[0].at, window)
  {
  }

  lemma WindowBoundByRefill(c: Config, start: real, before: seq<Call>, window: seq<Call>, key: Key, d: real)
    requires Valid(c) && c.burst as real <= Refill(c, c.idleTtl)
    requires Ordered(start, before + window) && window != [] && window[|window| - 1].at - window[0].at <= d
    ensures Answers(c, Start(start), before + window)
            == Answers(c, Start(start), before) + Answers(c, After(c, Start(start), before), window)
    ensures |Answers(c, After(c, Start(start), before), window)| == |window|
    ensures AdmittedCount(key, window, Answers(c, After(c, Start(start), before), window)) as real
            <= c.burst as real + Refill(c, d)
  {
    hide Refill, AllowCall;
    var s, first := After(c, Start(start), before), window[0].at;
    OrderedSplit(start, before, window);
    AfterIsOk(c, Start(start), start, before);
    WindowStartsBelowBurst(c, s, key, if before == [] then start else before[|before| - 1].at, window);
    AnswersSplit(c, Start(start), before, window);
    RunPaysForItself(c, s, key, first, window);
    RefillMonotone(c, window[|window| - 1].at - first, d);
    RefillAdds(c, 0.0, 0.0);
  }

  // In any run, the calls of one key admitted during an interval of length d are at most
  // burst + rate * d, whatever the other keys do.
  lemma WindowBound(c: Config, start: real, before: seq<Call>, window: seq<Call>, key: Key, d: real)
    requires Valid(c) && c.burst as real <= c.rate * c.idleTtl
    requires Ordered(start, before + window) && window != [] && window[|window| - 1].at - window[0].at <= d
    ensures Answers(c, Start(start), before + window)
            == Answers(c, Start(start), before) + Answers(c, After(c, Start(start), before), window)
    ensures |Answers(c, After(c, Start(start), before), window)| == |window|
    ensures AdmittedCount(key, window, Answers(c, After(c, Start(start), before), window)) as real
            <= c.burst as real + c.rate * d
  {
    assert Refill(c, c.idleTtl) == c.rate * c.idleTtl && Refill(c, d) == c.rate * d;
    hide *;
    WindowBoundByRefill(c, start, before, window, key, d);
  }

  // How many calls of the key were let through in the window of a run.
  function AdmittedIn(c: Config, start: real, before: seq<Call>, window: seq<Call>, key: Key): nat {
    var answers := Answers(c, After(c, Start(start), before), window);
    AnswersSplit(c, After(c, Start(start), before), window, []);
    AdmittedCount(key, window, answers)
  }

  // With the default settings: a client address gets at most 60 requests through in a second, an e-mail
  // address at most 10 login attempts in a minute and at most 6 verification mails in an hour.
  lemma DefaultWindows(start: real, before: seq<Call>, window: seq<Call>, key: Key)
    requires Ordered(start, before + window) && window != []
    ensures window[|window| - 1].at - window[0].at <= 1.0 ==>
              AdmittedIn(IP_LIMITER, start, before, window, key) <= 60
    ensures window[|window| - 1].at - window[0].at <= 60.0 ==>
              AdmittedIn(LOGIN_LIMITER, start, before, window, key) <= 10
    ensures window[|window| - 1].at - window[0].at <= 3600.0 ==>
              AdmittedIn(RESEND_LIMITER, start, before, window, key) <= 6
  {
    var d := window[|window| - 1].at - window[0].at;
    if d <= 1.0 {
      WindowBound(IP_LIMITER, start, before, window, key, 1.0);
    }
    if d <= 60.0 {
      WindowBound(LOGIN_LIMITER, start, before, window, key, 60.0);
    }
    if d <= 3600.0 {
      WindowBound(RESEND_LIMITER, start, before, window, key, 3600.0);
    }
  }

  // A key nobody has used gets its whole burst through at once, and not one call more.
  lemma BurstOfNewKey(c: Config, s: State, key: Key, at: real, n: nat)
    requires Valid(c) && AllOk(c, s.buckets, at) && key !in s.buckets && at - s.lastSweep < 60.0
    ensures Answers(c, s, Repeat(key, at, n)) == Trues(n) <==> n <= c.burst
  {
    BurstWithoutSweep(c, s, key, at, n);
    BurstForever(c, s.buckets, key, at, n);
    hide Refill;
    RefillAdds(c, 0.0, 0.0);
  }

  // A key that was drained gets the rate times its waiting through, as long as the burst is not exceeded,
  // and not one call more.
  lemma DrainedKeyRefills(c: Config, b: Buckets, key: Key, at: real, d: real, n: nat)
    requires Valid(c) && AllOk(c, b, at) && key in b && b[key].limiter == Limiter(0.0, at) && d >= 0.0
    ensures AnswersForever(c, b, Repeat(key, at + d, n)) == Trues(n) <==> n as real <= c.rate * d && n <= c.burst
  {
    var gained := Refill(c, d);
    assert gained == c.rate * d && c.rate * 0.0 == 0.0;
    RefillAdds(c, 0.0, 0.0);
    hide Refill;
    assert (at + d) - at == d;
    assert TokensFor(c, b, key, at + d) == if gained <= c.burst as real then gained else c.burst as real;
    BurstForever(c, b, key, at + d, n);
  }

  predicate CalledIn(key: Key, calls: seq<Call>) {
    exists i :: 0 <= i < |calls| && calls[i].key == key
  }

  // When the key was last called.
  function LastCall(key: Key, calls: seq<Call>): real
    requires CalledIn(key, calls)
  {
    var before, last := calls[..|calls| - 1], calls[|calls| - 1];
    if last.key == key then last.at
    else
      assert forall i | 0 <= i < |before| :: before[i] == calls[i];
      LastCall(key, before)
  }

  // A sweep happens at the first call a minute or more after the last one, and drops exactly the keys that
  // have been idle for longer than idleTtl.
  lemma SweepsOnceAMinute(c: Config, s: State, now: real)
    ensures now - s.lastSweep < 60.0 ==> Sweep(c, s, now) == s
    ensures now - s.lastSweep >= 60.0 ==>
              && Sweep(c, s, now).lastSweep == now
              && (forall k :: k in Sweep(c, s, now).buckets <==> k in s.buckets && now - s.buckets[k].seen <= c.idleTtl)
              && (forall k <- Sweep(c, s, now).buckets :: Sweep(c, s, now).buckets[k] == s.buckets[k])
  {
  }

  lemma {:induction false} AfterLast(c: Config, s: State, calls: seq<Call>)
    requires calls != []
    ensures After(c, s, calls) == AllowCall(c, After(c, s, calls[..|calls| - 1]), calls[|calls| - 1]).1
    decreases |calls|
  {
    hide AllowCall;
    if |calls| > 1 {
      assert calls[..|calls| - 1][1..] == calls[1..][..|calls| - 2];
      AfterLast(c, AllowCall(c, s, calls[0]).1, calls[1..]);
    }
  }

  // What the limiter remembers of a key, admitted or refused, is when it was last called.
  lemma {:induction false} TrackedKeysWereCalled(c: Config, start: real, calls: seq<Call>, key: Key)
    ensures var s := After(c, Start(start), calls);
            key in s.buckets ==> CalledIn(key, calls) && s.buckets[key].seen == LastCall(key, calls)
    decreases |calls|
  {
    if calls != [] {
      var before, last := calls[..|calls| - 1], calls[|calls| - 1];
      AfterLast(c, Start(start), calls);
      TrackedKeysWereCalled(c, start, before, key);
      var s := After(c, Start(start), before);
      if last.key == key {
        assert calls[|calls| - 1].key == key;
      } else if key in s.buckets {
        var i :| 0 <= i < |before| && before[i].key == key;
        assert calls[i].key == key;
      }
      hide AllowOne;
    }
  }

  // ----- The limiter itself -----

  class Memory {
    const config: Config
    var buckets: Buckets
    var lastSweep: real

    constructor (config: Config, now: real)
      ensures this.config == config && Now() == Start(now)
    {
      this.config := config;
      buckets := map[];
      lastSweep := now;
    }

    function Now(): State
      reads this
    {
      State(buckets, lastSweep)
    }

    method Allow(key: Key, now: real) returns (allowed: bool)
      modifies this
      ensures (allowed, Now()) == AllowCall(config, old(Now()), Call(key, now))
    {
      SweepLocked(now);
      var limiter := NewLimiter(config, now);
      if key in buckets {
        limiter := buckets[key].limiter;
      }
      var (ok, next) := AllowOne(config, limiter, now);
      buckets := buckets[key := Bucket(next, now)];
      allowed := ok;
    }

    method SweepLocked(now: real)
      modifies this
      ensures Now() == Sweep(config, old(Now()), now)
    {
      if now - lastSweep < SWEEP_INTERVAL {
        return;
      }
      lastSweep := now;
      var keys := buckets.Keys;
      while keys != {}
        invariant keys <= old(buckets).Keys && lastSweep == now
        invariant buckets == map k |
                    k in old(buckets) && (k in keys || now - old(buckets)[k].seen <= config.idleTtl) :: old(buckets)[k]
        decreases |keys|
      {
        var key :| key in keys;
        if now - buckets[key].seen > config.idleTtl {
          buckets := buckets - {key};
        }
        keys := keys - {key};
      }
    }

    // How many keys are tracked.
    method Len() returns (n: nat)
      ensures n == |Now().buckets|
    {
      n := |buckets|;
    }
  }
}
