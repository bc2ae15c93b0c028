/**
 The token-bucket limiter. `float64` is modelled as `real`; instants and
 durations are whole nanoseconds, as in Go's `time`. The clock is read under
 the mutex, so a run is a sequence of calls at non-decreasing instants.
 */
module RateLimit {
  import opened Common

  type Instant = int

  const SECOND: int := 1_000_000_000
  const SWEEP_EVERY: int := 60 * SECOND

  /** `New(perSecond, burst)`. */
  datatype Limits = Limits(rate: real, burst: real) {
    ghost predicate Valid() {
      rate > 0.0 && burst >= 1.0
    }
  }

  datatype Bucket = Bucket(tokens: real, last: Instant)

  type Buckets = map<string, Bucket>

  /** `lastSweep` is None while it is Go's zero time, which is long ago for every clock reading. */
  datatype State = State(buckets: Buckets, lastSweep: Option<Instant>)

  datatype Decision = Decision(allowed: bool, wait: int)

  function Min(a: real, b: real): real {
    if a <= b then a else b
  }

  /** Tokens gained in d nanoseconds. */
  function Credit(c: Limits, d: int): real {
    d as real / 1_000_000_000.0 * c.rate
  }

  /** Truncated to whole nanoseconds, like the conversion to `time.Duration`. */
  function Wait(c: Limits, tokens: real): int
    requires c.rate != 0.0
  {
    ((1.0 - tokens) / c.rate * 1_000_000_000.0).Floor
  }

  function Refilled(c: Limits, b: Bucket, now: Instant): real {
    Min(c.burst, b.tokens + Credit(c, now - b.last))
  }

  predicate Full(c: Limits, b: Bucket, now: Instant) {
    b.tokens + Credit(c, now - b.last) >= c.burst
  }

  predicate SweepDue(st: State, now: Instant) {
    st.lastSweep.None? || now - st.lastSweep.value >= SWEEP_EVERY
  }

  function Swept(c: Limits, st: State, now: Instant): State {
    if !SweepDue(st, now) then st
    else State(map k | k in st.buckets && !Full(c, st.buckets[k], now) :: st.buckets[k], Some(now))
  }

  /** The key's bucket, refilled up to `now`; a missing bucket is a full one. */
  function Tokens(c: Limits, m: Buckets, key: string, now: Instant): real {
    Refilled(c, if key in m then m[key] else Bucket(c.burst, now), now)
  }

  /** One call, with or without the sweep in front. */
  function Allowed(c: Limits, st: State, key: string, now: Instant, sweeping: bool): (State, Decision)
    requires c.rate != 0.0
  {
    var st := if sweeping then Swept(c, st, now) else st;
    var tokens := Tokens(c, st.buckets, key, now);
    if tokens >= 1.0
    then (st.(buckets := st.buckets[key := Bucket(tokens - 1.0, now)]), Decision(true, 0))
    else (st.(buckets := st.buckets[key := Bucket(tokens, now)]), Decision(false, Wait(c, tokens)))
  }

  /** A sweep happens at most once a minute, and takes exactly the buckets that have refilled to the burst. */
  lemma SweptExact(c: Limits, st: State, now: Instant)
    ensures var st' := Swept(c, st, now);
            if st.lastSweep.Some? && now - st.lastSweep.value < 60_000_000_000 then st' == st
            else
              && st'.lastSweep == Some(now)
              && (forall k :: k in st'.buckets <==>
                    k in st.buckets &&
                    var b := st.buckets[k];
                    b.tokens + (now - b.last) as real / 1_000_000_000.0 * c.rate < c.burst)
              && (forall k :: k in st'.buckets ==> st'.buckets[k] == st.buckets[k])
  {
  }

  /** A call stamps the key's bucket with its instant and the level it leaves, and touches no other bucket. */
  lemma CallStamps(c: Limits, st: State, key: string, now: Instant, sweeping: bool)
    requires c.rate != 0.0
    ensures var (st', d) := Allowed(c, st, key, now, sweeping);
            var kept := (if sweeping then Swept(c, st, now) else st).buckets;
            var refilled :=
              if key in kept then kept[key].tokens + (now - kept[key].last) as real / 1_000_000_000.0 * c.rate
              else c.burst;
            var level := if refilled < c.burst then refilled else c.burst;
            && key in st'.buckets && st'.buckets[key] == Bucket(if d.allowed then level - 1.0 else level, now)
            && (d.allowed <==> level >= 1.0)
            && (forall k :: k != key ==> (k in st'.buckets <==> k in kept) && (k in kept ==> st'.buckets[k] == kept[k]))
  {
  }

  class Limiter {
    const limits: Limits
    var buckets: Buckets
    var lastSweep: Option<Instant>

    function Value(): State
      reads this
    {
      State(buckets, lastSweep)
    }

    constructor (perSecond: real, burst: int)
      ensures limits == Limits(perSecond, burst as real)
      ensures Value() == State(map[], None)
    {
      limits := Limits(perSecond, burst as real);
      buckets, lastSweep := map[], None;
    }

    /** Drops the buckets that have refilled completely. */
    method Sweep(now: Instant)
      modifies this
      ensures Value() == Swept(limits, old(Value()), now)
    {
      if lastSweep.Some? && now - lastSweep.value < SWEEP_EVERY {
        return;
      }
      lastSweep := Some(now);
      ghost var before := buckets;
      var todo := buckets.Keys;
      while todo != {}
        invariant todo <= buckets.Keys <= before.Keys
        invariant forall k :: k in before ==>
                    if k in todo || !Full(limits, before[k], now) then k in buckets && buckets[k] == before[k]
                    else k !in buckets
        invariant lastSweep == Some(now)
        decreases todo
      {
        var key :| key in todo;
        var b := buckets[key];
        if b.tokens + Credit(limits, now - b.last) >= limits.burst {
          buckets := buckets - {key};
        }
        todo := todo - {key};
      }
      assert buckets == map k | k in before && !Full(limits, before[k], now) :: before[k];
    }

    /** Spends one token of the key's bucket, or reports how long until one is there. */
    method Allow(key: string, now: Instant) returns (allowed: bool, wait: int)
      requires limits.rate != 0.0
      modifies this
      ensures (Value(), Decision(allowed, wait)) == Allowed(limits, old(Value()), key, now, true)
    {
      Sweep(now);
      var b := if key in buckets then buckets[key] else Bucket(limits.burst, now);
      b := Bucket(Min(limits.burst, b.tokens + Credit(limits, now - b.last)), now);
      if b.tokens >= 1.0 {
        buckets := buckets[key := Bucket(b.tokens - 1.0, now)];
        return true, 0;
      }
      buckets := buckets[key := b];
      return false, Wait(limits, b.tokens);
    }
  }

  // ------------------------------------------------------------------ runs

  datatype Call = Call(key: string, at: Instant)

  ghost predicate Ordered(calls: seq<Call>) {
    forall i, j :: 0 <= i < j < |calls| ==> calls[i].at <= calls[j].at
  }

  function Init(calls: seq<Call>): seq<Call>
    requires calls != []
  {
    calls[..|calls| - 1]
  }

  function Last(calls: seq<Call>): Call
    requires calls != []
  {
    calls[|calls| - 1]
  }

  /** The limiter after a run from its construction. */
  function After(c: Limits, calls: seq<Call>, sweeping: bool): State
    requires c.rate != 0.0
  {
    if calls == [] then State(map[], None)
    else Allowed(c, After(c, Init(calls), sweeping), Last(calls).key, Last(calls).at, sweeping).0
  }

  /** The answer to the last call of a run. */
  function Answer(c: Limits, calls: seq<Call>, sweeping: bool): Decision
    requires c.rate != 0.0 && calls != []
  {
    Allowed(c, After(c, Init(calls), sweeping), Last(calls).key, Last(calls).at, sweeping).1
  }

  /** When the allowed calls of one key happened, in order. */
  function Admitted(c: Limits, calls: seq<Call>, key: string): seq<Instant>
    requires c.rate != 0.0
  {
    if calls == [] then []
    else Admitted(c, Init(calls), key) +
         if Last(calls).key == key && Answer(c, calls, true).allowed then [Last(calls).at] else []
  }

  // ------------------------------------------------------------ arithmetic

  lemma CreditAdds(c: Limits, a: int, b: int)
    ensures Credit(c, a + b) == Credit(c, a) + Credit(c, b)
  {
    var k := c.rate / 1_000_000_000.0;
    assert forall d: int :: Credit(c, d) == d as real * k;
    assert (a + b) as real * k == a as real * k + b as real * k;
  }

  lemma CreditGrows(c: Limits, a: int, b: int)
    requires c.rate > 0.0 && a <= b
    ensures Credit(c, a) <= Credit(c, b)
    ensures a >= 0 ==> Credit(c, a) >= 0.0
  {
    var x, y := a as real / 1_000_000_000.0, b as real / 1_000_000_000.0;
    assert x <= y;
    assert x * c.rate <= y * c.rate;
    assert x >= 0.0 ==> x * c.rate >= 0.0;
  }

  lemma DivideByRate(rate: real, x: real, y: real)
    requires rate > 0.0
    ensures x < y / rate <==> x * rate < y
  {
    assert y / rate * rate == y;
    if x < y / rate {
      assert x * rate < (y / rate) * rate;
    }
    if x >= y / rate {
      assert x * rate >= (y / rate) * rate;
    }
  }

  /** The credit of d nanoseconds falls short of an amount exactly while d is below the amount's refill time. */
  lemma CreditShort(c: Limits, d: int, amount: real)
    requires c.rate > 0.0
    ensures Credit(c, d) < amount <==> d as real < amount / c.rate * 1_000_000_000.0
  {
    DivideByRate(c.rate, d as real / 1_000_000_000.0, amount);
  }

  /** Below the reported wait the missing token is not there; one nanosecond past it, it is. */
  lemma WaitIsRight(c: Limits, tokens: real, d: int)
    requires c.Valid()
    ensures d < Wait(c, tokens) ==> tokens + Credit(c, d) < 1.0
    ensures d >= Wait(c, tokens) + 1 ==> tokens + Credit(c, d) >= 1.0
  {
    CreditShort(c, d, 1.0 - tokens);
  }

  // ------------------------------------------------ the level of one bucket

  lemma SweepKeepsTokens(c: Limits, st: State, now: Instant, key: string, t: Instant)
    requires c.Valid() && now <= t
    ensures Tokens(c, Swept(c, st, now).buckets, key, t) == Tokens(c, st.buckets, key, t)
  {
    CreditGrows(c, 0, 0);
    if key in st.buckets && SweepDue(st, now) && Full(c, st.buckets[key], now) {
      CreditGrows(c, now - st.buckets[key].last, t - st.buckets[key].last);
    }
  }

  ghost predicate SameLevels(c: Limits, a: Buckets, b: Buckets, now: Instant) {
    forall key, t :: t >= now ==> Tokens(c, a, key, t) == Tokens(c, b, key, t)
  }

  /** The level of every key after a call, at any later instant. */
  lemma TokensAfter(c: Limits, st: State, key: string, now: Instant, sweeping: bool, other: string, t: Instant)
    requires c.Valid() && now <= t
    ensures var r := Allowed(c, st, key, now, sweeping);
            var spent := if r.1.allowed then 1.0 else 0.0;
            Tokens(c, r.0.buckets, other, t) ==
              if other == key then Min(c.burst, Tokens(c, st.buckets, key, now) - spent + Credit(c, t - now))
              else Tokens(c, st.buckets, other, t)
  {
    SweepKeepsTokens(c, st, now, key, now);
    SweepKeepsTokens(c, st, now, other, t);
  }

  lemma AnswerFromTokens(c: Limits, st: State, key: string, now: Instant, sweeping: bool)
    requires c.Valid()
    ensures var tokens := Tokens(c, st.buckets, key, now);
            Allowed(c, st, key, now, sweeping).1 ==
              if tokens >= 1.0 then Decision(true, 0) else Decision(false, Wait(c, tokens))
  {
    SweepKeepsTokens(c, st, now, key, now);
  }

  // ------------------------------------------------- sweeping is unobservable

  lemma {:induction false} SweepingKeepsLevels(c: Limits, calls: seq<Call>, now: Instant)
    requires c.Valid() && Ordered(calls) && (calls != [] ==> Last(calls).at <= now)
    ensures SameLevels(c, After(c, calls, true).buckets, After(c, calls, false).buckets, now)
    decreases |calls|
  {
    if calls != [] {
      var before, last := Init(calls), Last(calls);
      SweepingKeepsLevels(c, before, last.at);
      var swept, plain := After(c, before, true), After(c, before, false);
      AnswerFromTokens(c, swept, last.key, last.at, true);
      AnswerFromTokens(c, plain, last.key, last.at, false);
      forall key, t | t >= now
        ensures Tokens(c, After(c, calls, true).buckets, key, t) == Tokens(c, After(c, calls, false).buckets, key, t)
      {
        TokensAfter(c, swept, last.key, last.at, true, key, t);
        TokensAfter(c, plain, last.key, last.at, false, key, t);
      }
    }
  }

  /** On every run the limiter that sweeps and one that never does answer every call alike, wait included. */
  lemma SweepUnobservable(c: Limits, calls: seq<Call>, k: nat)
    requires c.Valid() && Ordered(calls) && k < |calls|
    ensures Answer(c, calls[..k + 1], true) == Answer(c, calls[..k + 1], false)
  {
    var run := calls[..k + 1];
    var last := Last(run);
    SweepingKeepsLevels(c, Init(run), last.at);
    AnswerFromTokens(c, After(c, Init(run), true), last.key, last.at, true);
    AnswerFromTokens(c, After(c, Init(run), false), last.key, last.at, false);
  }

  // --------------------------------------------------- the exact bucket law

  /** What is left at `now` when tokens were spent at the instants of h. */
  function Available(c: Limits, h: seq<Instant>, now: Instant): real {
    if h == [] then c.burst
    else
      var s := h[|h| - 1];
      Min(c.burst, Available(c, h[..|h| - 1], s) - 1.0 + Credit(c, now - s))
  }

  lemma AvailableRefills(c: Limits, h: seq<Instant>, now: Instant, t: Instant)
    requires c.Valid() && now <= t
    ensures Available(c, h, t) == Min(c.burst, Available(c, h, now) + Credit(c, t - now))
  {
    CreditGrows(c, 0, t - now);
    if h != [] {
      var s := h[|h| - 1];
      CreditAdds(c, now - s, t - now);
      assert now - s + (t - now) == t - s;
    }
  }

  lemma AvailableStep(c: Limits, h: seq<Instant>, s: Instant, now: Instant, spent: bool)
    requires c.Valid() && s <= now
    ensures Available(c, h + if spent then [s] else [], now) ==
            Min(c.burst, Available(c, h, s) - (if spent then 1.0 else 0.0) + Credit(c, now - s))
  {
    if spent {
      assert (h + [s])[..|h|] == h;
    } else {
      assert h + [] == h;
      AvailableRefills(c, h, s, now);
    }
  }

  lemma LevelCarries(c: Limits, st: State, call: Call, key: string, h: seq<Instant>, now: Instant)
    requires c.Valid() && call.at <= now
    requires if key == call.key then Tokens(c, st.buckets, key, call.at) == Available(c, h, call.at)
             else Tokens(c, st.buckets, key, now) == Available(c, h, now)
    ensures var r := Allowed(c, st, call.key, call.at, true);
            Tokens(c, r.0.buckets, key, now) ==
            Available(c, h + if key == call.key && r.1.allowed then [call.at] else [], now)
  {
    TokensAfter(c, st, call.key, call.at, true, key, now);
    AvailableStep(c, h, call.at, now, Allowed(c, st, call.key, call.at, true).1.allowed);
    assert h + [] == h;
  }

  /** The stored level is always the level computed from the admitted calls alone. */
  lemma {:induction false} LevelFromHistory(c: Limits, calls: seq<Call>, key: string, now: Instant)
    requires c.Valid() && Ordered(calls) && (calls != [] ==> Last(calls).at <= now)
    ensures Tokens(c, After(c, calls, true).buckets, key, now) == Available(c, Admitted(c, calls, key), now)
    decreases |calls|
  {
    if calls == [] {
      CreditGrows(c, 0, 0);
    } else {
      var before, last := Init(calls), Last(calls);
      LevelFromHistory(c, before, key, if key == last.key then last.at else now);
      LevelCarries(c, After(c, before, true), last, key, Admitted(c, before, key), now);
    }
  }

  ghost predicate Sorted(h: seq<Instant>) {
    forall i, j :: 0 <= i < j < |h| ==> h[i] <= h[j]
  }

  ghost predicate UpTo(h: seq<Instant>, now: Instant) {
    forall k :: 0 <= k < |h| ==> h[k] <= now
  }

  lemma AppendSorted(h: seq<Instant>, s: Instant, now: Instant)
    requires Sorted(h) && UpTo(h, s) && s <= now
    ensures Sorted(h + [s]) && UpTo(h + [s], now) && UpTo(h, now)
  {
  }

  lemma {:induction false} AdmittedSorted(c: Limits, calls: seq<Call>, key: string, now: Instant)
    requires c.rate != 0.0 && Ordered(calls) && (calls != [] ==> Last(calls).at <= now)
    ensures Sorted(Admitted(c, calls, key)) && UpTo(Admitted(c, calls, key), now)
    decreases |calls|
  {
    if calls != [] {
      var before, last := Init(calls), Last(calls);
      assert before != [] ==> calls[|before| - 1].at <= calls[|before|].at;
      AdmittedSorted(c, before, key, last.at);
      AppendSorted(Admitted(c, before, key), last.at, now);
      assert Admitted(c, before, key) + [] == Admitted(c, before, key);
    }
  }

  /** Every spent token bounds what is left: the entry and all later ones count against the credit since. */
  lemma {:induction false} AvailableIsTightest(c: Limits, h: seq<Instant>, now: Instant, x: real)
    requires c.Valid()
    ensures x <= Available(c, h, now) <==>
            x <= c.burst &&
            forall i :: 0 <= i < |h| ==> x <= c.burst + Credit(c, now - h[i]) - (|h| - i) as real
    decreases |h|
  {
    if h != [] {
      var h', s := h[..|h| - 1], h[|h| - 1];
      var y := x + 1.0 - Credit(c, now - s);
      AvailableIsTightest(c, h', s, y);
      forall i | 0 <= i < |h'|
        ensures Credit(c, now - h[i]) == Credit(c, now - s) + Credit(c, s - h'[i])
      {
        CreditAdds(c, now - s, s - h[i]);
        assert now - s + (s - h[i]) == now - h[i];
      }
      assert forall i :: 0 <= i < |h'| ==>
          (y <= c.burst + Credit(c, s - h'[i]) - (|h'| - i) as real <==>
           x <= c.burst + Credit(c, now - h[i]) - (|h| - i) as real);
    }
  }

  /** How many admitted calls lie in the closed window [from, to]. */
  function Count(h: seq<Instant>, from: Instant, to: Instant): nat {
    if h == [] then 0
    else Count(h[..|h| - 1], from, to) + if from <= h[|h| - 1] <= to then 1 else 0
  }

  lemma {:induction false} CountNone(h: seq<Instant>, from: Instant, to: Instant)
    requires forall i :: 0 <= i < |h| ==> h[i] < from
    ensures Count(h, from, to) == 0
  {
    if h != [] {
      CountNone(h[..|h| - 1], from, to);
    }
  }

  /** In a sorted history, the entries from the first one at or after `from` onwards are the ones counted. */
  lemma {:induction false} CountSuffix(h: seq<Instant>, from: Instant, to: Instant, i: nat)
    requires Sorted(h) && i <= |h| && UpTo(h, to)
    requires forall k :: 0 <= k < i ==> h[k] < from
    requires forall k :: i <= k < |h| ==> h[k] >= from
    ensures Count(h, from, to) == |h| - i
    decreases |h|
  {
    if |h| == i {
      CountNone(h, from, to);
    } else {
      CountSuffix(h[..|h| - 1], from, to, i);
    }
  }

  lemma {:induction false} FirstAtLeast(h: seq<Instant>, from: Instant) returns (i: nat)
    requires Sorted(h)
    ensures i <= |h|
    ensures forall k :: 0 <= k < i ==> h[k] < from
    ensures forall k :: i <= k < |h| ==> h[k] >= from
    decreases |h|
  {
    if h == [] || h[|h| - 1] < from {
      i := |h|;
    } else {
      var h' := h[..|h| - 1];
      i := FirstAtLeast(h', from);
      assert forall k :: 0 <= k < |h'| ==> h'[k] == h[k];
    }
  }

  /** Too many calls since s: with one more, the window from s to now would hold over burst + rate * (now - s). */
  ghost predicate Overdrawn(c: Limits, h: seq<Instant>, now: Instant, s: Instant) {
    s in h && Count(h, s, now) as real + 1.0 > c.burst + Credit(c, now - s)
  }

  lemma ShortOfOneToken(c: Limits, h: seq<Instant>, now: Instant)
    requires c.Valid() && Sorted(h) && UpTo(h, now)
    ensures Available(c, h, now) < 1.0 <==> exists s :: Overdrawn(c, h, now, s)
  {
    AvailableIsTightest(c, h, now, 1.0);
    if Available(c, h, now) < 1.0 {
      var i :| 0 <= i < |h| && 1.0 > c.burst + Credit(c, now - h[i]) - (|h| - i) as real;
      var j := FirstAtLeast(h, h[i]);
      CountSuffix(h, h[i], now, j);
      assert Overdrawn(c, h, now, h[i]);
    }
    if s :| Overdrawn(c, h, now, s) {
      var j := FirstAtLeast(h, s);
      CountSuffix(h, s, now, j);
      var k :| 0 <= k < |h| && h[k] == s;
      CreditGrows(c, now - h[j], now - s);
      assert 1.0 > c.burst + Credit(c, now - h[j]) - (|h| - j) as real;
    }
  }

  /**
   The exact law: a call is refused if and only if some earlier allowed call
   of its key at s would, together with it, make the calls in [s, now] exceed
   burst + rate * (now - s).
   */
  lemma ExactLaw(c: Limits, calls: seq<Call>, call: Call)
    requires c.Valid() && Ordered(calls + [call])
    ensures !Answer(c, calls + [call], true).allowed <==>
            exists s :: Overdrawn(c, Admitted(c, calls, call.key), call.at, s)
  {
    AllowedFromHistory(c, calls, call);
    OrderedPrefix(calls, [call]);
    AdmittedSorted(c, calls, call.key, call.at);
    assert calls != [] ==> Last(calls).at <= [call][0].at;
    ShortOfOneToken(c, Admitted(c, calls, call.key), call.at);
  }

  /** One admitted call more: the window that ends with it is still within bounds. */
  lemma WindowWithLast(c: Limits, h: seq<Instant>, now: Instant, from: Instant, to: Instant)
    requires c.Valid() && Sorted(h) && UpTo(h, now) && from <= now <= to
    requires Available(c, h, now) >= 1.0
    ensures (Count(h, from, to) + 1) as real <= c.burst + Credit(c, to - from)
  {
    var i := FirstAtLeast(h, from);
    CountSuffix(h, from, to, i);
    CreditGrows(c, 0, to - from);
    if i < |h| {
      AvailableIsTightest(c, h, now, 1.0);
      CreditGrows(c, now - h[i], to - from);
    }
  }

  /** No window ever admits more than burst + rate * length calls of one key. */
  lemma {:induction false} WindowBound(c: Limits, calls: seq<Call>, key: string, from: Instant, to: Instant)
    requires c.Valid() && Ordered(calls) && from <= to
    ensures Count(Admitted(c, calls, key), from, to) as real <= c.burst + Credit(c, to - from)
    decreases |calls|
  {
    CreditGrows(c, 0, to - from);
    if calls != [] {
      var before, last := Init(calls), Last(calls);
      WindowBound(c, before, key, from, to);
      var h, h' := Admitted(c, before, key), Admitted(c, calls, key);
      if h' != h {
        assert h'[..|h'| - 1] == h;
        if from <= last.at <= to {
          LevelFromHistory(c, before, key, last.at);
          AnswerFromTokens(c, After(c, before, true), key, last.at, true);
          AdmittedSorted(c, before, key, last.at);
          WindowWithLast(c, h, last.at, from, to);
        }
      }
    }
  }

  // ------------------------------------------------------------- Retry-After

  /** `retryAfterSeconds`: whole seconds, rounded up, at least one. */
  function RetryAfterSeconds(wait: int): (r: int)
    ensures r >= 1 && r * SECOND >= wait
    ensures r == 1 || (r - 1) * SECOND < wait
  {
    var ceiling := -((-(wait as real / 1_000_000_000.0)).Floor);
    if ceiling > 1 then ceiling else 1
  }

  /** A run whose last call, of `key`, was refused. */
  ghost predicate RefusedRun(c: Limits, calls: seq<Call>, key: string) {
    c.Valid() && Ordered(calls) && calls != [] && Last(calls).key == key && !Answer(c, calls, true).allowed
  }

  lemma OrderedPrefix(a: seq<Call>, b: seq<Call>)
    requires Ordered(a + b)
    ensures Ordered(a)
    ensures forall i, j :: 0 <= i < |a| && 0 <= j < |b| ==> a[i].at <= b[j].at
  {
    assert forall i :: 0 <= i < |a| ==> (a + b)[i] == a[i];
    assert forall j :: 0 <= j < |b| ==> (a + b)[|a| + j] == b[j];
  }

  lemma RefusalFacts(c: Limits, calls: seq<Call>, key: string)
    requires RefusedRun(c, calls, key)
    ensures var tokens := Tokens(c, After(c, Init(calls), true).buckets, key, Last(calls).at);
            && tokens < 1.0 && tokens == Available(c, Admitted(c, calls, key), Last(calls).at)
            && Answer(c, calls, true).wait == Wait(c, tokens)
  {
    var before, last := Init(calls), Last(calls);
    assert before != [] ==> calls[|before| - 1].at <= calls[|before|].at;
    AnswerFromTokens(c, After(c, before, true), key, last.at, true);
    LevelFromHistory(c, before, key, last.at);
    assert Admitted(c, calls, key) == Admitted(c, before, key);
  }

  /** A call is allowed exactly when the history leaves it a token. */
  lemma AllowedFromHistory(c: Limits, calls: seq<Call>, call: Call)
    requires c.Valid() && Ordered(calls + [call])
    ensures Answer(c, calls + [call], true).allowed <==> Available(c, Admitted(c, calls, call.key), call.at) >= 1.0
  {
    var run := calls + [call];
    assert Init(run) == calls && Last(run) == call;
    OrderedPrefix(calls, [call]);
    assert calls != [] ==> run[|calls| - 1].at <= run[|calls|].at;
    LevelFromHistory(c, calls, call.key, call.at);
    AnswerFromTokens(c, After(c, calls, true), call.key, call.at, true);
  }

  lemma RefusedBefore(calls: seq<Call>, more: seq<Call>, call: Call)
    requires Ordered(calls + more + [call]) && calls != []
    ensures Last(calls).at <= call.at
  {
    var run := calls + more + [call];
    assert run[|calls| - 1] == Last(calls) && run[|calls + more|] == call;
  }

  lemma RefilledEnough(c: Limits, h: seq<Instant>, s: Instant, now: Instant)
    requires c.Valid() && s <= now
    ensures Available(c, h, now) >= 1.0 <==> Available(c, h, s) + Credit(c, now - s) >= 1.0
  {
    AvailableRefills(c, h, s, now);
  }

  /**
   After a refusal at t, and as long as no call of the key was admitted, the
   level at t' only gained the credit since t.
   */
  lemma LevelSinceRefusal(c: Limits, calls: seq<Call>, more: seq<Call>, call: Call)
    requires RefusedRun(c, calls, call.key) && Ordered(calls + more + [call])
    requires Admitted(c, calls + more, call.key) == Admitted(c, calls, call.key)
    ensures Answer(c, calls + more + [call], true).allowed <==>
            Available(c, Admitted(c, calls, call.key), Last(calls).at) + Credit(c, call.at - Last(calls).at) >= 1.0
  {
    RefusedBefore(calls, more, call);
    AllowedFromHistory(c, calls + more, call);
    RefilledEnough(c, Admitted(c, calls, call.key), Last(calls).at, call.at);
  }

  lemma EarlyCallRefused(c: Limits, calls: seq<Call>, more: seq<Call>, call: Call)
    requires RefusedRun(c, calls, call.key) && Ordered(calls + more + [call])
    requires Admitted(c, calls + more, call.key) == Admitted(c, calls, call.key)
    requires call.at - Last(calls).at < Answer(c, calls, true).wait
    ensures !Answer(c, calls + more + [call], true).allowed
  {
    RefusalFacts(c, calls, call.key);
    LevelSinceRefusal(c, calls, more, call);
    WaitIsRight(c, Available(c, Admitted(c, calls, call.key), Last(calls).at), call.at - Last(calls).at);
  }

  /** Every call of the key earlier than the reported wait is refused, whatever other calls come between. */
  lemma {:induction false} EarlyCallsRefused(c: Limits, calls: seq<Call>, more: seq<Call>, key: string)
    requires RefusedRun(c, calls, key) && Ordered(calls + more)
    requires forall i :: 0 <= i < |more| ==> more[i].at - Last(calls).at < Answer(c, calls, true).wait
    ensures Admitted(c, calls + more, key) == Admitted(c, calls, key)
    decreases |more|
  {
    if more == [] {
      assert calls + more == calls;
    } else {
      var m, call := Init(more), Last(more);
      assert calls + more == calls + m + [call];
      OrderedPrefix(calls + m, [call]);
      EarlyCallsRefused(c, calls, m, key);
      assert Init(calls + more) == calls + m && Last(calls + more) == call;
      if call.key == key {
        EarlyCallRefused(c, calls, m, call);
      }
    }
  }

  /** The first call at least one nanosecond past the wait is allowed, however many refused calls came between. */
  lemma LateCallAllowed(c: Limits, calls: seq<Call>, more: seq<Call>, call: Call)
    requires RefusedRun(c, calls, call.key) && Ordered(calls + more + [call])
    requires Admitted(c, calls + more, call.key) == Admitted(c, calls, call.key)
    requires call.at - Last(calls).at >= Answer(c, calls, true).wait + 1
    ensures Answer(c, calls + more + [call], true).allowed
  {
    RefusalFacts(c, calls, call.key);
    LevelSinceRefusal(c, calls, more, call);
    WaitIsRight(c, Available(c, Admitted(c, calls, call.key), Last(calls).at), call.at - Last(calls).at);
  }

  /** How long after its last call a key's missing token arrives, in nanoseconds, before any truncation. */
  function ExactWait(c: Limits, h: seq<Instant>, now: Instant): real
    requires c.rate != 0.0
  {
    (1.0 - Available(c, h, now)) / c.rate * 1_000_000_000.0
  }

  /** Whole seconds cover the exact wait unless its truncation is a whole number of seconds already. */
  lemma SecondsCover(exact: real)
    requires exact > 0.0
    ensures var wait := exact.Floor;
            (RetryAfterSeconds(wait) * SECOND) as real < exact <==>
            wait > 0 && wait % SECOND == 0 && wait as real != exact
  {
    var wait := exact.Floor;
    var r := RetryAfterSeconds(wait);
    if wait > 0 && wait % SECOND == 0 {
      var q := wait / SECOND;
      assert wait == q * SECOND;
      assert (r - 1) * SECOND < q * SECOND <= r * SECOND;
      assert r == q;
    }
  }

  lemma BackAllowed(c: Limits, calls: seq<Call>, back: Call)
    requires RefusedRun(c, calls, back.key) && Last(calls).at <= back.at
    ensures var exact := ExactWait(c, Admitted(c, calls, back.key), Last(calls).at);
            && exact > 0.0 && Answer(c, calls, true).wait == exact.Floor
            && (Answer(c, calls + [back], true).allowed <==> (back.at - Last(calls).at) as real >= exact)
  {
    assert calls + [] == calls;
    assert Ordered(calls + [back]);
    assert calls + [] + [back] == calls + [back];
    RefusalFacts(c, calls, back.key);
    LevelSinceRefusal(c, calls, [], back);
    var missing := 1.0 - Available(c, Admitted(c, calls, back.key), Last(calls).at);
    CreditShort(c, back.at - Last(calls).at, missing);
    CreditShort(c, 0, missing);
  }

  /**
   A client that comes back after exactly the Retry-After seconds is refused
   if and only if the reported wait is a positive whole number of seconds that
   truncation to nanoseconds made too short.
   */
  lemma HeaderHonoured(c: Limits, calls: seq<Call>, key: string)
    requires RefusedRun(c, calls, key)
    ensures var wait := Answer(c, calls, true).wait;
            var back := Call(key, Last(calls).at + RetryAfterSeconds(wait) * SECOND);
            !Answer(c, calls + [back], true).allowed <==>
              wait > 0 && wait % SECOND == 0 && wait as real != ExactWait(c, Admitted(c, calls, key), Last(calls).at)
  {
    var wait := Answer(c, calls, true).wait;
    BackAllowed(c, calls, Call(key, Last(calls).at + RetryAfterSeconds(wait) * SECOND));
    SecondsCover(ExactWait(c, Admitted(c, calls, key), Last(calls).at));
  }

  /** One token every u nanoseconds, u whole, and a whole burst. */
  ghost predicate WholePeriod(c: Limits, u: int) {
    u > 0 && c.rate * u as real == 1_000_000_000.0 && c.burst == c.burst.Floor as real
  }

  lemma CreditInPeriods(c: Limits, u: int, d: int)
    requires WholePeriod(c, u)
    ensures Credit(c, d) * u as real == d as real
  {
    assert Credit(c, d) * u as real == d as real / 1_000_000_000.0 * (c.rate * u as real);
  }

  /** With a whole period every level is a whole number of nanoseconds' worth. */
  lemma {:induction false} LevelInPeriods(c: Limits, u: int, h: seq<Instant>, now: Instant) returns (k: int)
    requires WholePeriod(c, u)
    ensures Available(c, h, now) * u as real == k as real
    decreases |h|
  {
    if h == [] {
      k := c.burst.Floor * u;
    } else {
      var s := h[|h| - 1];
      var before := LevelInPeriods(c, u, h[..|h| - 1], s);
      CreditInPeriods(c, u, now - s);
      k := if Available(c, h, now) == c.burst then c.burst.Floor * u else before - u + (now - s);
    }
  }

  lemma OverRate(rate: real, u: real, x: real)
    requires rate > 0.0 && rate * u == 1_000_000_000.0
    ensures x / rate * 1_000_000_000.0 == x * u
  {
    var q := x / rate;
    assert q * rate == x;
    assert q * (rate * u) == (q * rate) * u;
  }

  lemma ExactWaitIsWhole(c: Limits, u: int, h: seq<Instant>, now: Instant)
    requires WholePeriod(c, u) && c.rate > 0.0
    ensures ExactWait(c, h, now) == ExactWait(c, h, now).Floor as real
  {
    var k := LevelInPeriods(c, u, h, now);
    OverRate(c.rate, u as real, 1.0 - Available(c, h, now));
    assert ExactWait(c, h, now) == (u - k) as real;
  }

  /**
   In exact arithmetic, if a token takes a whole number of nanoseconds and the
   burst is whole, every Retry-After is honoured on every run. The return meets
   the token at the very instant it is due, so this says nothing about a rate
   or a level that was rounded.
   */
  lemma WholePeriodHonours(c: Limits, u: int, calls: seq<Call>, key: string)
    requires RefusedRun(c, calls, key) && WholePeriod(c, u)
    ensures var back := Call(key, Last(calls).at + RetryAfterSeconds(Answer(c, calls, true).wait) * SECOND);
            Answer(c, calls + [back], true).allowed
  {
    HeaderHonoured(c, calls, key);
    ExactWaitIsWhole(c, u, Admitted(c, calls, key), Last(calls).at);
    BackAllowed(c, calls, Last(calls));
  }

  /** With any limiter, one nanosecond past the header's seconds is late enough. */
  lemma PastHeaderAllowed(c: Limits, calls: seq<Call>, back: Call)
    requires RefusedRun(c, calls, back.key)
    requires back.at - Last(calls).at > RetryAfterSeconds(Answer(c, calls, true).wait) * SECOND
    ensures Answer(c, calls + [back], true).allowed
  {
    BackAllowed(c, calls, back);
  }

  lemma LevelNotNegative(c: Limits, calls: seq<Call>, key: string)
    requires c.Valid() && Ordered(calls) && calls != []
    ensures Available(c, Admitted(c, calls, key), Last(calls).at) >= 0.0
  {
    var buckets, now := After(c, calls, true).buckets, Last(calls).at;
    RunLeavesTidy(c, calls);
    LevelFromHistory(c, calls, key, now);
    CreditGrows(c, 0, if key in buckets then now - buckets[key].last else 0);
  }

  lemma WithinOneToken(rate: real, x: real)
    requires rate > 0.0 && x <= 1.0
    ensures x / rate * 1_000_000_000.0 <= 1_000_000_000.0 / rate
  {
    var token := 1.0 / rate;
    assert token * rate == 1.0;
    DivideByRate(rate, token, x);
    assert 1_000_000_000.0 / rate == token * 1_000_000_000.0;
  }

  /** A refused key lacks at most one whole token. */
  lemma WaitAtMostOneToken(c: Limits, calls: seq<Call>, key: string)
    requires RefusedRun(c, calls, key)
    ensures ExactWait(c, Admitted(c, calls, key), Last(calls).at) <= 1_000_000_000.0 / c.rate
  {
    var tokens := Available(c, Admitted(c, calls, key), Last(calls).at);
    LevelNotNegative(c, calls, key);
    WithinOneToken(c.rate, 1.0 - tokens);
  }

  /**
   A limiter that refills faster than one token a second asks for one second
   and lets the client in after it, with time to spare.
   */
  lemma FastLimiterHonours(c: Limits, calls: seq<Call>, key: string)
    requires RefusedRun(c, calls, key) && c.rate > 1.0
    ensures RetryAfterSeconds(Answer(c, calls, true).wait) == 1
    ensures ExactWait(c, Admitted(c, calls, key), Last(calls).at) <= 1_000_000_000.0 / c.rate < SECOND as real
    ensures Answer(c, calls + [Call(key, Last(calls).at + SECOND)], true).allowed
  {
    WaitAtMostOneToken(c, calls, key);
    DivideByRate(c.rate, 1_000_000_000.0, 1_000_000_000.0);
    BackAllowed(c, calls, Call(key, Last(calls).at + SECOND));
  }

  // --------------------------------------- the sign-in limiter, one run of it

  /** `PerMinute(5, 10)`, for sign-in and registration: the float64 nearest to 5/60, and a burst of ten. */
  const AUTH_LIMITS := Limits(6_004_799_503_160_661.0 / 72_057_594_037_927_936.0, 10.0)

  /** n calls of one key at instant 0. */
  function Together(n: nat, key: string): (calls: seq<Call>)
    ensures |calls| == n && forall i :: 0 <= i < n ==> calls[i] == Call(key, 0)
    decreases n
  {
    if n == 0 then [] else Together(n - 1, key) + [Call(key, 0)]
  }

  function Zeros(n: nat): (h: seq<Instant>)
    ensures |h| == n && forall i :: 0 <= i < n ==> h[i] == 0
  {
    if n == 0 then [] else Zeros(n - 1) + [0]
  }

  lemma {:induction false} LevelAfterBurst(c: Limits, n: nat)
    requires c.Valid()
    ensures Available(c, Zeros(n), 0) == c.burst - n as real
  {
    if n > 0 {
      LevelAfterBurst(c, n - 1);
      AvailableStep(c, Zeros(n - 1), 0, 0, true);
      CreditGrows(c, 0, 0);
    }
  }

  lemma OneMoreAdmitted(c: Limits, calls: seq<Call>, call: Call)
    requires c.Valid() && Ordered(calls + [call]) && Available(c, Admitted(c, calls, call.key), call.at) >= 1.0
    ensures Admitted(c, calls + [call], call.key) == Admitted(c, calls, call.key) + [call.at]
  {
    AllowedFromHistory(c, calls, call);
    assert Init(calls + [call]) == calls && Last(calls + [call]) == call;
  }

  lemma {:induction false} BurstAdmitted(c: Limits, n: nat, key: string)
    requires c.Valid() && n as real <= c.burst
    ensures Admitted(c, Together(n, key), key) == Zeros(n)
    decreases n
  {
    if n > 0 {
      BurstAdmitted(c, n - 1, key);
      LevelAfterBurst(c, n - 1);
      OneMoreAdmitted(c, Together(n - 1, key), Call(key, 0));
    }
  }

  /** Spent down to nothing at 0, a bucket holds at t what has been credited since. */
  lemma LevelAfterSpending(c: Limits, n: nat, t: Instant)
    requires c.Valid() && n as real == c.burst && 0 <= t
    ensures Available(c, Zeros(n), t) == Min(c.burst, Credit(c, t))
  {
    LevelAfterBurst(c, n);
    AvailableRefills(c, Zeros(n), 0, t);
  }

  /** A token of the sign-in limiter takes a little more than twelve seconds. */
  lemma AuthTwoSecondsIn(rate: real)
    requires rate == AUTH_LIMITS.rate
    ensures Credit(AUTH_LIMITS, 2 * SECOND) == 2.0 * rate < 1.0
    ensures 10_000_000_000.0 < (1.0 - 2.0 * rate) / rate * 1_000_000_000.0 < 10_000_000_001.0
  {
  }

  lemma AuthRefused(c: Limits, calls: seq<Call>, key: string)
    requires c == AUTH_LIMITS && calls == Together(10, key) + [Call(key, 2 * SECOND)]
    ensures RefusedRun(c, calls, key) && Last(calls).at == 2 * SECOND
    ensures Admitted(c, calls, key) == Zeros(10)
  {
    var before := Together(10, key);
    BurstAdmitted(c, 10, key);
    LevelAfterSpending(c, 10, 2 * SECOND);
    AuthTwoSecondsIn(c.rate);
    AllowedFromHistory(c, before, Call(key, 2 * SECOND));
    assert Init(calls) == before && Last(calls) == Call(key, 2 * SECOND);
  }

  /**
   The truncation bites in the server itself: ten sign-ins use up the burst, one
   two seconds later is told to come back in ten seconds, and is refused then.
   */
  lemma HeaderTooEarly(key: string)
    ensures var calls := Together(10, key) + [Call(key, 2 * SECOND)];
            && RefusedRun(AUTH_LIMITS, calls, key)
            && Answer(AUTH_LIMITS, calls, true).wait == 10 * SECOND
            && RetryAfterSeconds(10 * SECOND) == 10
            && !Answer(AUTH_LIMITS, calls + [Call(key, 12 * SECOND)], true).allowed
  {
    var calls := Together(10, key) + [Call(key, 2 * SECOND)];
    AuthRefused(AUTH_LIMITS, calls, key);
    LevelAfterSpending(AUTH_LIMITS, 10, 2 * SECOND);
    AuthTwoSecondsIn(AUTH_LIMITS.rate);
    BackAllowed(AUTH_LIMITS, calls, Call(key, 12 * SECOND));
  }

  // ---------------------------------------------------------- bounded memory

  /**
   What every call leaves behind: levels in range, and old buckets only as far
   back as a refill before the last sweep.
   */
  ghost predicate Tidy(c: Limits, st: State, now: Instant) {
    && st.lastSweep.Some? && 0 <= now - st.lastSweep.value < SWEEP_EVERY
    && forall k :: k in st.buckets ==>
         var b := st.buckets[k];
         && 0.0 <= b.tokens <= c.burst && b.last <= now
         && (b.last < st.lastSweep.value ==> Credit(c, st.lastSweep.value - b.last) < c.burst)
  }

  lemma CallLeavesTidy(c: Limits, st: State, call: Call)
    requires c.Valid() && (st == State(map[], None) || exists t :: t <= call.at && Tidy(c, st, t))
    ensures Tidy(c, Allowed(c, st, call.key, call.at, true).0, call.at)
  {
    var swept := Swept(c, st, call.at);
    if call.key in swept.buckets {
      CreditGrows(c, 0, call.at - swept.buckets[call.key].last);
    }
    CreditGrows(c, 0, 0);
  }

  lemma {:induction false} RunLeavesTidy(c: Limits, calls: seq<Call>)
    requires c.Valid() && Ordered(calls) && calls != []
    ensures Tidy(c, After(c, calls, true), Last(calls).at)
    decreases |calls|
  {
    if Init(calls) != [] {
      RunLeavesTidy(c, Init(calls));
    }
    CallLeavesTidy(c, After(c, Init(calls), true), Last(calls));
  }

  /**
   After any call at t, every bucket still held was used within sweepEvery +
   burst/rate of t, and holds 0 to burst tokens.
   */
  lemma BoundedMemory(c: Limits, calls: seq<Call>, key: string)
    requires c.Valid() && Ordered(calls) && calls != [] && key in After(c, calls, true).buckets
    ensures var b := After(c, calls, true).buckets[key];
            && 0.0 <= b.tokens <= c.burst
            && (Last(calls).at - b.last) as real < SWEEP_EVERY as real + c.burst / c.rate * 1_000_000_000.0
  {
    RunLeavesTidy(c, calls);
    var st := After(c, calls, true);
    var b := st.buckets[key];
    if b.last < st.lastSweep.value {
      CreditShort(c, st.lastSweep.value - b.last, c.burst);
    } else {
      CreditShort(c, 0, c.burst);
    }
  }
}
