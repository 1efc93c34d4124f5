/** The redriver's token bucket (limiter in dlq/redrive.go), over exact reals. */
module Limiter {
  import opened Records

  const SECOND := 1000000000.0

  datatype Bucket = Bucket(rate: real, burst: real, rampUp: int, tokens: real, last: Time, rampStart: Time)

  function Min(a: real, b: real): real { if a <= b then a else b }

  function Seconds(d: int): real { d as real / SECOND }

  /** Tokens that accrue at a rate in time d. */
  function Accrued(rate: real, d: int): real { rate * Seconds(d) }

  /** How much of the rate a bucket that is still recovering gives. */
  function Factor(rampUp: int, rampStart: Time, now: Time): real {
    if rampUp <= 0 || rampStart == ZERO_TIME || now - rampStart >= rampUp then 1.0
    else 0.1 + 0.9 * (now - rampStart) as real / rampUp as real
  }

  function RateAt(b: Bucket, now: Time): real { b.rate * Factor(b.rampUp, b.rampStart, now) }

  function Refilled(b: Bucket, now: Time): Bucket {
    b.(tokens := if b.last == ZERO_TIME then b.tokens
                 else Min(b.burst, b.tokens + Accrued(RateAt(b, now), now - b.last)),
       last := now)
  }

  /** The most whole tokens that are there and asked for. */
  function Whole(tokens: real, max: nat): int {
    if tokens < 1.0 then 0 else if max as real <= tokens.Floor as real then max else tokens.Floor
  }

  function Reserved(b: Bucket, now: Time, max: nat): (Bucket, int) {
    if b.rate <= 0.0 then (b, max)
    else
      var r := Refilled(b, now);
      var n := Whole(r.tokens, max);
      (r.(tokens := r.tokens - n as real), n)
  }

  /** Nanoseconds, cut to whole ones, in which need accrues. */
  function TimeFor(need: real, rate: real): int
    requires 0.0 < rate
  {
    (need / rate * SECOND).Floor
  }

  function Wait(b: Bucket, now: Time): int {
    var rate := RateAt(b, now);
    if rate <= 0.0 || b.tokens >= 1.0 then 0 else TimeFor(1.0 - b.tokens, rate)
  }

  function Given(b: Bucket, n: int): Bucket {
    if n <= 0 || b.rate <= 0.0 then b else b.(tokens := Min(b.burst, b.tokens + n as real))
  }

  function RecoveredAt(b: Bucket, now: Time): Bucket { b.(rampStart := now, tokens := 0.0) }

  predicate Good(b: Bucket) { 0.0 <= b.tokens <= b.burst }

  // ---- runs ----

  datatype Op = Reserve(now: Time, max: nat) | Give(n: int) | Recovered(now: Time)

  /** The bucket has seen no time after t. */
  predicate Before(b: Bucket, t: Time) { b.last <= t && b.rampStart <= t }

  function Do(b: Bucket, op: Op): Bucket {
    match op
    case Reserve(now, max) => Reserved(b, now, max).0
    case Give(n) => Given(b, n)
    case Recovered(now) => RecoveredAt(b, now)
  }

  function Net(b: Bucket, op: Op): int {
    match op
    case Reserve(now, max) => Reserved(b, now, max).1
    case Give(n) => if n <= 0 then 0 else -n
    case Recovered(_) => 0
  }

  /** The time of the last of ops, which started at t. */
  function Clock(t: Time, ops: seq<Op>): Time {
    if ops == [] then t
    else
      var op := ops[|ops| - 1];
      if op.Give? then Clock(t, ops[..|ops| - 1]) else op.now
  }

  /** Times never go back. */
  predicate Ordered(t: Time, ops: seq<Op>) {
    ops != [] ==>
      && Ordered(t, ops[..|ops| - 1])
      && Clock(t, ops[..|ops| - 1]) <= Clock(t, ops)
  }

  function After(b: Bucket, ops: seq<Op>): Bucket {
    if ops == [] then b else Do(After(b, ops[..|ops| - 1]), ops[|ops| - 1])
  }

  /** Tokens granted by ops less tokens given back. */
  function NetAll(b: Bucket, ops: seq<Op>): int {
    if ops == [] then 0
    else NetAll(b, ops[..|ops| - 1]) + Net(After(b, ops[..|ops| - 1]), ops[|ops| - 1])
  }

  // ---- the ramp ----

  lemma RampRange(b: Bucket, now: Time)
    requires b.rampStart <= now
    ensures 0.1 <= Factor(b.rampUp, b.rampStart, now) <= 1.0
  {
    if Factor(b.rampUp, b.rampStart, now) != 1.0 {
      var e, u := (now - b.rampStart) as real, b.rampUp as real;
      assert 0.0 <= e / u <= 1.0;
      assert 0.9 * e / u == 0.9 * (e / u);
    }
  }

  /** The ramp only goes up. */
  lemma RampRises(b: Bucket, s: Time, t: Time)
    requires b.rampStart <= s <= t
    ensures Factor(b.rampUp, b.rampStart, s) <= Factor(b.rampUp, b.rampStart, t)
  {
    RampRange(b, s);
    if Factor(b.rampUp, b.rampStart, t) != 1.0 {
      var e, f, u := (s - b.rampStart) as real, (t - b.rampStart) as real, b.rampUp as real;
      assert e / u <= f / u;
      assert 0.9 * e / u == 0.9 * (e / u) && 0.9 * f / u == 0.9 * (f / u);
    }
  }

  lemma TimesGrow(a: real, b: real, c: real)
    requires a <= b && 0.0 <= c
    ensures a * c <= b * c
  {
  }

  // ---- the bound ----

  /** What the bucket could hand out at t at most. */
  function Level(b: Bucket, t: Time): real {
    if b.last == ZERO_TIME then b.tokens else Min(b.burst, b.tokens + Accrued(b.rate, t - b.last))
  }

  lemma AccruedSum(rate: real, c: int, d: int)
    ensures Accrued(rate, c + d) == Accrued(rate, c) + Accrued(rate, d)
  {
    assert Seconds(c + d) == Seconds(c) + Seconds(d);
  }

  lemma AccruedSign(rate: real, d: int)
    requires 0.0 <= rate && 0 <= d
    ensures 0.0 <= Accrued(rate, d)
  {
    TimesGrow(0.0, rate, Seconds(d));
  }

  lemma AccruedGrows(r: real, s: real, d: int)
    requires r <= s && 0 <= d
    ensures Accrued(r, d) <= Accrued(s, d)
  {
    TimesGrow(r, s, Seconds(d));
  }

  lemma LevelGrows(b: Bucket, s: Time, t: Time)
    requires 0.0 < b.rate && s <= t
    ensures Level(b, t) <= Level(b, s) + Accrued(b.rate, t - s)
  {
    hide Accrued;
    AccruedSum(b.rate, s - b.last, t - s);
    AccruedSign(b.rate, t - s);
    assert s - b.last + (t - s) == t - b.last;
  }

  /** A ramping rate is positive and no more than the full one. */
  lemma RampedRate(b: Bucket, now: Time)
    requires 0.0 < b.rate && b.rampStart <= now
    ensures 0.0 < RateAt(b, now) <= b.rate
  {
    hide Factor;
    RampRange(b, now);
    TimesGrow(0.1, Factor(b.rampUp, b.rampStart, now), b.rate);
    TimesGrow(Factor(b.rampUp, b.rampStart, now), 1.0, b.rate);
  }

  lemma RefillWithin(b: Bucket, now: Time)
    requires Good(b) && 0.0 < b.rate && Before(b, now)
    ensures Good(Refilled(b, now)) && Refilled(b, now).tokens <= Level(b, now)
  {
    hide Factor, Accrued;
    RampedRate(b, now);
    AccruedSign(RateAt(b, now), now - b.last);
    AccruedGrows(RateAt(b, now), b.rate, now - b.last);
  }

  /** One operation: what it grants comes out of the level. */
  lemma StepWithin(b: Bucket, op: Op, t: Time)
    requires Good(b) && 0.0 < b.rate && Before(b, t) && (!op.Give? ==> op.now == t)
    ensures var c := Do(b, op);
            && Good(c) && Before(c, t) && c.rate == b.rate && c.burst == b.burst
            && Net(b, op) as real + Level(c, t) <= Level(b, t)
  {
    hide Factor, Accrued;
    match op
    case Reserve(now, max) =>
      RefillWithin(b, now);
      AccruedSum(b.rate, 0, 0);
    case Give(n) =>
    case Recovered(now) =>
  }

  /** The state after any ordered run, and the tokens it granted. */
  lemma {:induction false} RunWithin(b: Bucket, ops: seq<Op>, t: Time)
    requires Good(b) && 0.0 < b.rate && Before(b, t) && Ordered(t, ops)
    ensures var c, u := After(b, ops), Clock(t, ops);
            && t <= u && Good(c) && Before(c, u) && c.rate == b.rate && c.burst == b.burst
            && NetAll(b, ops) as real + Level(c, u) <= Level(b, t) + Accrued(b.rate, u - t)
  {
    hide Level, Do, Net, Accrued;
    if ops == [] {
      AccruedSign(b.rate, 0);
    } else {
      var n := |ops| - 1;
      RunWithin(b, ops[..n], t);
      var c, s, u := After(b, ops[..n]), Clock(t, ops[..n]), Clock(t, ops);
      StepWithin(c, ops[n], u);
      LevelGrows(c, s, u);
      AccruedSum(b.rate, s - t, u - s);
      assert s - t + (u - s) == u - t;
    }
  }

  /** The rate bound: between any two moments of a run, the tokens granted, less those
      given back, are at most the burst plus the rate times the time between; the bucket
      never holds less than nothing or more than the burst. */
  lemma RateBound(b: Bucket, before: seq<Op>, ops: seq<Op>, start: Time)
    requires Good(b) && 0.0 < b.rate && Before(b, start) && Ordered(start, before)
    requires Ordered(Clock(start, before), ops)
    ensures var c, t := After(b, before), Clock(start, before);
            && NetAll(c, ops) as real <= b.burst + Accrued(b.rate, Clock(t, ops) - t)
            && Good(After(c, ops))
  {
    hide Level, After, NetAll, Clock, Ordered, Accrued;
    RunWithin(b, before, start);
    RunWithin(After(b, before), ops, Clock(start, before));
    LevelRange(After(b, before), Clock(start, before));
    LevelRange(After(After(b, before), ops), Clock(Clock(start, before), ops));
  }

  lemma LevelRange(b: Bucket, t: Time)
    requires Good(b) && 0.0 < b.rate && Before(b, t)
    ensures 0.0 <= Level(b, t) <= b.burst
  {
    hide Accrued;
    AccruedSign(b.rate, t - b.last);
  }

  // ---- the advice to wait ----

  lemma Covers(rate: real, need: real, d: int)
    requires 0.0 < rate && d > TimeFor(need, rate)
    ensures need <= Accrued(rate, d)
  {
    var q := need / rate;
    assert q * SECOND <= d as real;
    assert q <= Seconds(d);
    TimesGrow(q, Seconds(d), rate);
    assert q * rate == need;
  }

  /** Waiting as long as told, and a nanosecond for the truncation, is enough to be
      granted a token, however far the ramp has got. */
  lemma WaitSuffices(b: Bucket, now: Time, later: Time, max: nat)
    requires Good(b) && 0.0 < b.rate && 1.0 <= b.burst && 1 <= max
    requires b.last == now != ZERO_TIME && b.rampStart <= now
    requires later > now + Wait(b, now) && now <= later
    ensures Reserved(b, later, max).1 >= 1
  {
    hide Factor, Accrued;
    RampedRate(b, now);
    RampRises(b, now, later);
    TimesGrow(Factor(b.rampUp, b.rampStart, now), Factor(b.rampUp, b.rampStart, later), b.rate);
    AccruedSign(RateAt(b, later), later - now);
    AccruedGrows(RateAt(b, now), RateAt(b, later), later - now);
    if b.tokens < 1.0 {
      Covers(RateAt(b, now), 1.0 - b.tokens, later - now);
    }
    assert Refilled(b, later).tokens >= 1.0;
  }

  /** And it is no longer than needed: in less time, at the present rate, no whole token
      comes together. */
  lemma WaitTight(b: Bucket, now: Time, d: nat)
    requires 0.0 < b.rate && b.rampStart <= now && d < Wait(b, now)
    ensures b.tokens + Accrued(RateAt(b, now), d) < 1.0
  {
    hide Factor;
    RampedRate(b, now);
    var rate, need := RateAt(b, now), 1.0 - b.tokens;
    var q := need / rate;
    assert d as real < q * SECOND;
    assert Seconds(d) < q;
    LessTimes(Seconds(d), q, rate);
    assert q * rate == need;
  }

  lemma LessTimes(a: real, b: real, c: real)
    requires a < b && 0.0 < c
    ensures c * a < b * c
  {
  }

  /** The rate depends on neither the tokens nor the last reservation. */
  lemma RateKept(b: Bucket, tokens: real, last: Time, now: Time)
    ensures RateAt(b.(tokens := tokens, last := last), now) == RateAt(b, now)
  {
  }

  // ---- what a call grants ----

  /** What a reservation finds in the bucket. */
  function Found(b: Bucket, now: Time): real {
    if b.last == ZERO_TIME then b.tokens
    else
      var more := b.tokens + b.rate * Factor(b.rampUp, b.rampStart, now) * ((now - b.last) as real / 1000000000.0);
      if more < b.burst then more else b.burst
  }

  /** A reservation grants as many whole tokens as are there, up to what is asked, and takes
      exactly those. Without a rate it grants all. */
  lemma GrantsMost(b: Bucket, now: Time, max: nat)
    requires Good(b) && b.last <= now && b.rampStart <= now
    ensures var (b', n) := Reserved(b, now, max);
            if b.rate <= 0.0 then b' == b && n == max
            else
              && b' == b.(tokens := Found(b, now) - n as real, last := now)
              && 0 <= n <= max && 0.0 <= b'.tokens && (n == max || b'.tokens < 1.0)
  {
    hide Factor;
    if b.rate > 0.0 {
      RampedRate(b, now);
      AccruedSign(RateAt(b, now), now - b.last);
    }
  }

  /** The ramp: a tenth of the rate at first, all of it in the end, and a straight line
      between. */
  lemma RampIs(b: Bucket, now: Time, later: Time)
    requires ZERO_TIME != now <= later
    ensures var c := RecoveredAt(b, now);
            && c.tokens == 0.0
            && (b.rampUp > 0 ==> RateAt(c, now) == b.rate * 0.1)
            && (later - now >= b.rampUp ==> RateAt(c, later) == b.rate)
            && (0 < later - now < b.rampUp ==>
                 (RateAt(c, later) - b.rate * 0.1) * b.rampUp as real == b.rate * 0.9 * (later - now) as real)
  {
    if 0 < later - now < b.rampUp {
      Slope(b.rate, (later - now) as real, b.rampUp as real);
    }
  }

  lemma Slope(rate: real, e: real, u: real)
    requires u != 0.0
    ensures (rate * (0.1 + 0.9 * e / u) - rate * 0.1) * u == rate * 0.9 * e
  {
    var q := 0.9 * e / u;
    assert q * u == 0.9 * e;
    assert rate * (0.1 + q) - rate * 0.1 == rate * q;
    assert rate * q * u == rate * (q * u);
  }

  /** Nothing is granted at the moment of recovery. */
  lemma RecoveredEmpty(b: Bucket, now: Time, max: nat)
    requires Good(b) && 0.0 < b.rate && b.last == now != ZERO_TIME
    ensures Reserved(RecoveredAt(b, now), now, max).1 == 0
  {
    NothingAccrues(RateAt(RecoveredAt(b, now), now));
  }

  lemma NothingAccrues(rate: real)
    ensures Accrued(rate, 0) == 0.0
  {
  }

  /** Tokens that are given back can be reserved again at once. */
  lemma GivenAgain(b: Bucket, now: Time, max: nat, n: nat)
    requires Good(b) && 0.0 < b.rate && b.last <= now != ZERO_TIME && b.rampStart <= now
    requires n <= Reserved(b, now, max).1
    ensures Reserved(Given(Reserved(b, now, max).0, n), now, n).1 == n
  {
    hide Factor;
    GrantsMost(b, now, max);
    var (b', k) := Reserved(b, now, max);
    NothingAccrues(RateAt(b', now));
    RateKept(b', Given(b', n).tokens, now, now);
  }

  // ---- the limiter ----

  class Limiter {
    var rate: real
    var burst: real
    var rampUp: int
    var tokens: real
    var last: Time
    var rampStart: Time

    function State(): Bucket
      reads this
    {
      Bucket(rate, burst, rampUp, tokens, last, rampStart)
    }

    constructor (rate: real, burst: nat, rampUp: int)
      ensures State() == Bucket(rate, burst as real, rampUp, burst as real, ZERO_TIME, ZERO_TIME) && Good(State())
    {
      this.rate, this.burst, this.rampUp, this.tokens := rate, burst as real, rampUp, burst as real;
      last, rampStart := ZERO_TIME, ZERO_TIME;
    }

    method Recovered(now: Time)
      modifies this
      ensures State() == Do(old(State()), Op.Recovered(now))
    {
      rampStart := now;
      tokens := 0.0;
    }

    /** What is taken from the bucket; with nothing to take, the time until there is. */
    method Reserve(now: Time, max: nat) returns (granted: int, wait: int)
      requires rampStart <= now && Good(State())
      modifies this
      ensures State() == Do(old(State()), Op.Reserve(now, max)) && granted == Net(old(State()), Op.Reserve(now, max))
      ensures wait == if rate <= 0.0 || granted > 0 then 0 else Wait(State(), now)
    {
      if rate <= 0.0 {
        return max, 0;
      }
      hide RateAt, Accrued, TimeFor;
      RampedRate(State(), now);
      var r := RateAt(State(), now);
      if last != ZERO_TIME {
        tokens := Min(burst, tokens + Accrued(r, now - last));
      }
      last := now;
      if tokens >= 1.0 {
        granted := if max as real <= tokens.Floor as real then max else tokens.Floor;
        tokens := tokens - granted as real;
        return granted, 0;
      }
      RateKept(old(State()), tokens, last, now);
      return 0, TimeFor(1.0 - tokens, r);
    }

    /** Takes back tokens that were reserved but not used. */
    method Give(n: int)
      modifies this
      ensures State() == Do(old(State()), Op.Give(n))
    {
      if n <= 0 || rate <= 0.0 {
        return;
      }
      tokens := Min(burst, tokens + n as real);
    }
  }
}
