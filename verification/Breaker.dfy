/** The circuit breaker (internal/breaker/breaker.go), each call taken as one step: what it
    admits, when it opens, and that Refusing never holds back a caller the open circuit
    would let through as its canary. */
module Breaker {
  import opened Window

  datatype State = Closed | Open | HalfOpen

  datatype Override = NoOverride | ForcedOpen | ForcedClosed

  /** Everything but the counts. */
  datatype Circuit = Circuit(
    state: State,
    lastFailure: int,
    probing: bool,       // half-open: a canary is under way
    probeAt: int,        // when it was admitted
    override: Override,
    gated: bool,         // only a health check may end the open state, until maxOpen
    maxOpen: int,
    sleepWindow: int,
    dryRun: bool)

  /** A tenth, cut towards zero. */
  function Tenth(x: int): int { if x >= 0 then x / 10 else -(-x / 10) }

  /** Calls cannot end the open state: a health check is in charge, and not yet overdue. */
  predicate GateShut(c: Circuit, now: int) {
    c.gated && (c.maxOpen <= 0 || now - c.lastFailure < c.maxOpen)
  }

  /** A random number below a tenth of the sleep window. */
  function Jitter(sleepWindow: int, draw: nat): int {
    if Tenth(sleepWindow) > 0 then draw % Tenth(sleepWindow) else 0
  }

  predicate Due(c: Circuit, now: int, draw: nat) {
    !GateShut(c, now) && now - c.lastFailure > c.sleepWindow + Jitter(c.sleepWindow, draw)
  }

  predicate TakesOver(c: Circuit, now: int) {
    c.probeAt != 0 && now - c.probeAt > c.sleepWindow
  }

  /** circuitAllows: whether the circuit lets the call through, and what it becomes. */
  function Allows(c: Circuit, now: int, draw: nat): (bool, Circuit) {
    match c.state
    case Open =>
      if !Due(c, now, draw) then (c.dryRun, c)
      else if c.probing then (c.dryRun, c.(state := HalfOpen))
      else (true, c.(state := HalfOpen, probing := true, probeAt := now))
    case HalfOpen =>
      if !c.probing then (true, c.(probing := true, probeAt := now))
      else if TakesOver(c, now) then (true, c.(probeAt := now))
      else (c.dryRun, c)
    case Closed => (true, c)
  }

  /** Refusing: open, and will keep refusing unless something else helps. */
  predicate Refuses(c: Circuit, now: int) {
    match c.override
    case ForcedOpen => true
    case ForcedClosed => false
    case NoOverride =>
      && !c.dryRun && c.state == Open
      && (GateShut(c, now) || now - c.lastFailure <= c.sleepWindow + Tenth(c.sleepWindow))
  }

  datatype Verdict = Admitted | RejectedOpen | RejectedBulkhead

  /** AllowEx, given whether there is a slot in flight for the call. */
  function Judged(c: Circuit, slot: bool, now: int, draw: nat): (Verdict, Circuit) {
    match c.override
    case ForcedOpen => (RejectedOpen, c)
    case ForcedClosed => (Admitted, c)
    case NoOverride =>
      if !slot then (RejectedBulkhead, c)
      else
        var (ok, d) := Allows(c, now, draw);
        (if ok then Admitted else RejectedOpen, d)
  }

  // ---- runs ----

  datatype Op =
    | Call(slot: bool, now: int, draw: nat)
    | Abandon
    | Succeed(now: int)
    | Fail(now: int, opens: bool) // opens: the window says so
    | BeginProbe
    | ResetClosed
    | Reopen(now: int)
    | Gate(maxOpen: int)
    | Force(override: Override)

  function Do(c: Circuit, op: Op): Circuit {
    match op
    case Call(slot, now, draw) => Judged(c, slot, now, draw).1
    case Abandon => if c.state == HalfOpen then c.(probing := false) else c
    case Succeed(_) => if c.state == HalfOpen then c.(state := Closed, probing := false) else c
    case Fail(now, opens) =>
      if c.state == HalfOpen then c.(lastFailure := now, state := Open, probing := false)
      else if c.state == Closed && opens then c.(lastFailure := now, state := Open)
      else c.(lastFailure := now)
    case BeginProbe => c.(probing := false, state := if c.state == Open then HalfOpen else c.state)
    case ResetClosed => c.(probing := false, state := Closed)
    case Reopen(now) => if c.state == HalfOpen then c.(state := Open, lastFailure := now, probing := false) else c
    case Gate(maxOpen) => c.(gated := true, maxOpen := maxOpen)
    case Force(override) => c.(override := override)
  }

  function TimeOf(t: int, op: Op): int {
    if op.Call? || op.Succeed? || op.Fail? || op.Reopen? then op.now else t
  }

  datatype Moment = Moment(c: Circuit, t: int)

  ghost predicate Next(m: Moment, op: Op, m': Moment) {
    m'.c == Do(m.c, op) && m'.t == TimeOf(m.t, op) && m.t <= m'.t
  }

  /** A run from a new breaker, with times that never go back. */
  ghost predicate Run(ms: seq<Moment>, ops: seq<Op>) {
    && |ms| == |ops| + 1
    && ms[0].c.state == Closed && !ms[0].c.probing && ms[0].c.lastFailure <= ms[0].t
    && forall i, j :: 0 <= i && j == i + 1 <= |ops| ==> Next(ms[i], ops[i], ms[j])
  }

  /** The probe flag is clear outside half-open. */
  predicate Quiet(c: Circuit) { c.state != HalfOpen ==> !c.probing }

  lemma StepQuiet(m: Moment, op: Op, m': Moment)
    requires Quiet(m.c) && m.c.lastFailure <= m.t && Next(m, op, m')
    ensures Quiet(m'.c) && m'.c.lastFailure <= m'.t
  {
  }

  lemma {:induction false} AlwaysQuiet(ms: seq<Moment>, ops: seq<Op>, i: nat)
    requires Run(ms, ops) && i < |ms|
    ensures Quiet(ms[i].c) && ms[i].c.lastFailure <= ms[i].t
  {
    if i > 0 {
      hide Next, Quiet;
      AlwaysQuiet(ms, ops, i - 1);
      StepQuiet(ms[i - 1], ops[i - 1], ms[i]);
    }
  }

  lemma JitterRange(sleepWindow: int, draw: nat)
    ensures 0 <= Jitter(sleepWindow, draw) && (Jitter(sleepWindow, draw) == 0 || Jitter(sleepWindow, draw) < Tenth(sleepWindow))
  {
  }

  /** Refusing is sound: in every reachable state, an open circuit that is not refusing when
      asked admits the next call, then or later and whatever the draw, unless there is no
      slot in flight for it. */
  lemma RefusingSound(ms: seq<Moment>, ops: seq<Op>, i: nat, asked: int, now: int, draw: nat)
    requires Run(ms, ops) && i < |ms| && ms[i].c.state == Open
    requires ms[i].t <= asked <= now && !Refuses(ms[i].c, asked)
    ensures Judged(ms[i].c, true, now, draw).0 == Admitted
  {
    AlwaysQuiet(ms, ops, i);
    JitterRange(ms[i].c.sleepWindow, draw);
  }

  /** What is added at random to the sleep window: less than a tenth of it. */
  lemma JitterIs(sleepWindow: int, draw: nat)
    ensures Jitter(sleepWindow, draw) == if sleepWindow >= 10 then draw % (sleepWindow / 10) else 0
  {
  }

  /** Exactly when a call is admitted. A closed circuit admits every call that has a slot. A
      half-open one admits one canary, and another when that is a sleep window old. An open
      one admits a canary once the sleep window and the jitter have passed since the last
      failure, unless a health check is in charge and not overdue. */
  lemma AdmitsIff(c: Circuit, slot: bool, now: int, draw: nat)
    ensures var jitter := if c.sleepWindow >= 10 then draw % (c.sleepWindow / 10) else 0;
            var v := Judged(c, slot, now, draw).0;
            && (v == RejectedBulkhead <==> c.override == NoOverride && !slot)
            && (v == Admitted <==>
                  || c.override == ForcedClosed
                  || (c.override == NoOverride && slot &&
                       match c.state
                       case Closed => true
                       case HalfOpen => c.dryRun || !c.probing || (c.probeAt != 0 && now > c.probeAt + c.sleepWindow)
                       case Open =>
                         || c.dryRun
                         || (&& !c.probing && now > c.lastFailure + c.sleepWindow + jitter
                             && (c.gated ==> 0 < c.maxOpen && now >= c.lastFailure + c.maxOpen))))
  {
    JitterIs(c.sleepWindow, draw);
  }

  /** Exactly when a breaker says that it is refusing. */
  lemma RefusesIff(c: Circuit, now: int)
    requires c.sleepWindow >= 0
    ensures Refuses(c, now) <==>
              || c.override == ForcedOpen
              || (&& c.override == NoOverride && !c.dryRun && c.state == Open
                  && (|| now <= c.lastFailure + c.sleepWindow + c.sleepWindow / 10
                      || (c.gated && (c.maxOpen <= 0 || now < c.lastFailure + c.maxOpen))))
  {
  }

  /** What an admitted call leaves: it is the canary of a circuit that was not closed. */
  lemma CanaryNoted(c: Circuit, now: int, draw: nat)
    requires c.override == NoOverride && !c.dryRun && Judged(c, true, now, draw).0 == Admitted
    ensures Judged(c, true, now, draw).1 == if c.state == Closed then c else c.(state := HalfOpen, probing := true, probeAt := now)
  {
  }

  /** What makes a circuit change its state, and nothing else does: it opens when a canary
      fails, when the window of a closed one says so or a health check says it is not back;
      it closes when a canary succeeds or it is reset; it half-opens for a canary that is
      due, or when a health check lets one through. */
  lemma StateMoves(c: Circuit, op: Op)
    ensures var d := Do(c, op);
            && (c.state != Open && d.state == Open <==>
                  || (op.Fail? && (c.state == HalfOpen || (c.state == Closed && op.opens)))
                  || (op.Reopen? && c.state == HalfOpen))
            && (c.state != Closed && d.state == Closed <==> (op.Succeed? && c.state == HalfOpen) || (op.ResetClosed? && c.state != Closed))
            && (c.state != HalfOpen && d.state == HalfOpen <==>
                  && c.state == Open
                  && (op.BeginProbe? || (op.Call? && c.override == NoOverride && op.slot && Due(c, op.now, op.draw))))
  {
  }

  /** Since when a circuit counts as failing: every failure, and a health check that reopens
      it. */
  lemma FailureTimes(c: Circuit, op: Op)
    ensures Do(c, op).lastFailure == if op.Fail? || (op.Reopen? && c.state == HalfOpen) then op.now else c.lastFailure
    ensures Do(c, op).override == if op.Force? then op.override else c.override
    ensures var d := Do(c, op); if op.Gate? then d.gated && d.maxOpen == op.maxOpen else d.gated == c.gated && d.maxOpen == c.maxOpen
  {
  }

  /** When a canary's slot is free again: it reports, is abandoned, or a health check or a
      reset starts over. */
  lemma CanaryLeaves(c: Circuit, op: Op)
    requires Quiet(c) && c.probing
    ensures !Do(c, op).probing <==>
              op.Succeed? || op.Fail? || op.Abandon? || op.BeginProbe? || op.ResetClosed? || op.Reopen?
  {
  }

  predicate OnlyCalls(ops: seq<Op>, i: nat, j: nat) { j <= |ops| && forall k :: i <= k < j ==> ops[k].Call? }

  /** One canary at a time: in every run, from the moment a canary is admitted until it or
      something else reports, no other call is admitted within a sleep window. */
  lemma {:induction false} OneCanary(ms: seq<Moment>, ops: seq<Op>, i: nat, j: nat)
    requires Run(ms, ops) && i < j < |ops| && ops[i].Call? && OnlyCalls(ops, i, j + 1)
    requires ms[i].c.state != Closed && ms[i].c.override == NoOverride && !ms[i].c.dryRun
    requires Judged(ms[i].c, ops[i].slot, ops[i].now, ops[i].draw).0 == Admitted
    requires ops[j].now <= ops[i].now + ms[i].c.sleepWindow
    ensures Judged(ms[j].c, ops[j].slot, ops[j].now, ops[j].draw).0 != Admitted
    ensures ms[j].c == ms[i].c.(state := HalfOpen, probing := true, probeAt := ops[i].now)
    decreases j
  {
    assert Next(ms[j - 1], ops[j - 1], ms[j]) && Next(ms[j], ops[j], ms[j + 1]);
    if i < j - 1 {
      OneCanary(ms, ops, i, j - 1);
    } else {
      CanaryNoted(ms[i].c, ops[i].now, ops[i].draw);
    }
  }

  // ---- calls that overlap ----

  /** A whole call or outcome, or the claim of a call that found the circuit half-open
      earlier and only now gets to swap the probe flag. */
  datatype Act = Whole(op: Op) | Late(now: int)

  function Claimed(c: Circuit, now: int): Circuit {
    if !c.probing then c.(probing := true, probeAt := now)
    else if TakesOver(c, now) then c.(probeAt := now)
    else c
  }

  ghost predicate NextAct(m: Moment, a: Act, m': Moment) {
    match a
    case Whole(op) => Next(m, op, m')
    case Late(now) => m' == Moment(Claimed(m.c, now), now) && m.t <= now
  }

  ghost predicate SeenHalfOpen(ms: seq<Moment>, i: nat) { exists k :: 0 <= k < i < |ms| && ms[k].c.state == HalfOpen }

  /** A run in which claims may come late. */
  ghost predicate LateRun(ms: seq<Moment>, acts: seq<Act>) {
    && |ms| == |acts| + 1
    && ms[0].c.state == Closed && !ms[0].c.probing && ms[0].c.lastFailure <= ms[0].t
    && (forall i, j :: 0 <= i && j == i + 1 <= |acts| ==> NextAct(ms[i], acts[i], ms[j]))
    && (forall i :: 0 <= i < |acts| && acts[i].Late? ==> SeenHalfOpen(ms, i))
  }

  lemma {:induction false} NoFailureAhead(ms: seq<Moment>, acts: seq<Act>, i: nat)
    requires LateRun(ms, acts) && i < |ms|
    ensures ms[i].c.lastFailure <= ms[i].t
  {
    if i > 0 {
      NoFailureAhead(ms, acts, i - 1);
      assert NextAct(ms[i - 1], acts[i - 1], ms[i]);
    }
  }

  /** With late claims Refusing is sound exactly when none was left behind: an open circuit
      that is not refusing admits the next call if and only if its probe flag is clear, or
      nothing is ever turned down. */
  lemma RefusingSoundIff(ms: seq<Moment>, acts: seq<Act>, i: nat, asked: int, now: int, draw: nat)
    requires LateRun(ms, acts) && i < |ms| && ms[i].c.state == Open
    requires ms[i].t <= asked <= now && !Refuses(ms[i].c, asked)
    ensures Judged(ms[i].c, true, now, draw).0 == Admitted <==>
              !ms[i].c.probing || ms[i].c.dryRun || ms[i].c.override == ForcedClosed
  {
    NoFailureAhead(ms, acts, i);
    JitterRange(ms[i].c.sleepWindow, draw);
  }

  /** And then it heals: the call that is turned down leaves the circuit half-open, where a
      call is admitted if and only if the late claim is a sleep window old. */
  lemma Heals(c: Circuit, now: int, draw: nat, later: int, draw': nat)
    requires c.state == Open && c.probing && c.override == NoOverride && !c.dryRun && Due(c, now, draw)
    ensures var (v, d) := Judged(c, true, now, draw);
            && v == RejectedOpen && d.state == HalfOpen
            && (Judged(d, true, later, draw').0 == Admitted <==> TakesOver(c, later))
  {
  }

  /** A failed call opens the circuit, a canary is admitted and fails, and only then a call
      that saw the circuit half-open claims the probe flag. */
  function Straggling(): (seq<Moment>, seq<Act>) {
    var c0 := Circuit(Closed, 0, false, 0, NoOverride, false, 0, 10, false);
    var c1 := c0.(state := Open, lastFailure := 1);
    var c2 := c1.(state := HalfOpen, probing := true, probeAt := 13);
    var c3 := c2.(state := Open, lastFailure := 14, probing := false);
    var c4 := c3.(probing := true, probeAt := 15);
    ([Moment(c0, 0), Moment(c1, 1), Moment(c2, 13), Moment(c3, 14), Moment(c4, 15)],
     [Whole(Fail(1, true)), Whole(Call(true, 13, 0)), Whole(Fail(14, false)), Late(15)])
  }

  /** The circuit is open and not refusing, and turns the next call down. */
  lemma StragglerRefused()
    ensures var (ms, acts) := Straggling();
            var c := ms[4].c;
            && LateRun(ms, acts) && c.state == Open
            && !Refuses(c, 30) && Judged(c, true, 30, 0).0 == RejectedOpen
  {
    var (ms, acts) := Straggling();
    assert ms[2].c.state == HalfOpen;
    assert SeenHalfOpen(ms, 3);
  }

  lemma LastDraw(sleepWindow: int)
    ensures var tenth := Tenth(sleepWindow); Jitter(sleepWindow, if tenth > 0 then tenth - 1 else 0) == if tenth > 0 then tenth - 1 else 0
  {
    if Tenth(sleepWindow) > 0 {
      Small(Tenth(sleepWindow) - 1, Tenth(sleepWindow));
    }
  }

  lemma Small(a: nat, b: nat)
    requires a < b
    ensures a % b == a
  {
  }

  /** And it is tight: when an open circuit refuses with the health gate out of the way,
      some draw turns the call down, save at the last nanosecond of the wait. */
  lemma RefusingTight(c: Circuit, now: int)
    requires c.state == Open && c.override == NoOverride && Refuses(c, now) && !GateShut(c, now)
    requires Tenth(c.sleepWindow) <= 0 || now - c.lastFailure < c.sleepWindow + Tenth(c.sleepWindow)
    requires c.sleepWindow >= 0
    ensures exists draw: nat :: Judged(c, true, now, draw).0 == RejectedOpen
  {
    var tenth := Tenth(c.sleepWindow);
    var draw := if tenth > 0 then tenth - 1 else 0;
    LastDraw(c.sleepWindow);
    hide Jitter, Tenth;
    assert Judged(c, true, now, draw).0 == RejectedOpen;
  }

  /** While the gate is shut every call is turned down. */
  lemma GateHolds(c: Circuit, slot: bool, now: int, draw: nat)
    requires c.state == Open && c.override != ForcedClosed && !c.dryRun && GateShut(c, now)
    ensures Refuses(c, now) && Judged(c, slot, now, draw).0 != Admitted && Judged(c, slot, now, draw).1 == c
  {
  }

  // ---- the breaker ----

  /** The counts say the circuit should open. */
  predicate TooMany(success: int, failure: int, minSamples: int, threshold: int) {
    && (minSamples <= 0 || success + failure >= minSamples)
    && Share(failure, success + failure) >= threshold
  }

  /** That is: enough samples, and failures that reach the threshold's share of them. */
  lemma TooManyMeans(success: int, failure: int, minSamples: int, threshold: int)
    ensures TooMany(success, failure, minSamples, threshold) <==>
            (&& (minSamples > 0 ==> success + failure >= minSamples)
             && (if success + failure > 0 then failure * 10000 >= threshold * (success + failure) else threshold <= 0))
  {
    if success + failure > 0 {
      hide Share;
      ShareReaches(failure, success + failure, threshold);
    }
  }

  class Breaker {
    const metrics: RollingWindow
    const minSamples: int
    const failureThreshold: int // in basis points
    const retryBudgetBps: int
    const maxInflight: int
    const sleepWindow: int
    const dryRun: bool
    var state: State
    var lastFailure: int
    var inflight: int
    var probing: bool
    var probeAt: int
    var override: Override
    var gated: bool
    var maxOpen: int

    function Status(): Circuit
      reads this
    {
      Circuit(state, lastFailure, probing, probeAt, override, gated, maxOpen, sleepWindow, dryRun)
    }

    ghost predicate Valid()
      reads this, metrics, metrics.buckets
    {
      metrics.Valid() && Quiet(Status())
    }

    constructor (threshold: int, sleepWindow: int, window: int, bucketDuration: int, maxInflight: int, minSamples: int,
        dryRun: bool, retryBudgetBps: int, now: int)
      requires 0 <= window && 0 < bucketDuration
      ensures Valid() && fresh(metrics) && fresh(metrics.buckets)
      ensures Status() == Circuit(Closed, 0, false, 0, NoOverride, false, 0, sleepWindow, dryRun) && inflight == 0
      ensures this.minSamples == minSamples && failureThreshold == threshold && this.maxInflight == maxInflight
    {
      metrics := new RollingWindow(window, bucketDuration, now);
      this.minSamples, failureThreshold, this.retryBudgetBps := minSamples, threshold, retryBudgetBps;
      this.maxInflight, this.sleepWindow, this.dryRun := maxInflight, sleepWindow, dryRun;
      state, lastFailure, inflight, probing, probeAt, override := Closed, 0, 0, false, 0, NoOverride;
      gated, maxOpen := false, 0;
    }

    /** A change to closed starts the window afresh. */
    method Transition(from: State, to: State, now: int) returns (done: bool)
      requires metrics.Valid()
      modifies this`state, metrics, metrics.buckets
      ensures metrics.Valid() && done == (old(state) == from) && state == if done then to else old(state)
      ensures if done && to == Closed then metrics.history.log == []
              else metrics.history == old(metrics.history) && metrics.current == old(metrics.current)
    {
      if state != from {
        return false;
      }
      state := to;
      if to == Closed {
        metrics.Reset(now);
      }
      return true;
    }

    method CircuitAllows(now: int, draw: nat) returns (ok: bool)
      requires Valid()
      modifies this`state, this`probing, this`probeAt, metrics, metrics.buckets
      ensures Valid() && (ok, Status()) == Allows(old(Status()), now, draw)
    {
      match state
      case Open =>
        if GateShut(Status(), now) {
          return dryRun;
        }
        var jitter := Jitter(sleepWindow, draw);
        if now - lastFailure > sleepWindow + jitter {
          var moved := Transition(Open, HalfOpen, now);
          if moved && !probing {
            probing := true;
            probeAt := now;
            return true;
          }
        }
        return dryRun;
      case HalfOpen =>
        if !probing {
          probing := true;
          probeAt := now;
          return true;
        }
        if probeAt != 0 && now - probeAt > sleepWindow {
          probeAt := now;
          return true;
        }
        return dryRun;
      case Closed =>
        return true;
    }

    predicate Slot(vip: bool)
      reads this
    {
      maxInflight <= 0 || vip || inflight < maxInflight
    }

    /** Admits or refuses a call; an admitted one holds a slot. The bulkhead limit holds
        for every call that is not exempt. */
    method AllowEx(now: int, draw: nat, vip: bool) returns (v: Verdict)
      requires Valid()
      modifies this, metrics, metrics.buckets
      ensures Valid() && (v, Status()) == Judged(old(Status()), old(Slot(vip)), now, draw)
      ensures inflight == old(inflight) + if v == Admitted then 1 else 0
      ensures v == Admitted && !vip && 0 < maxInflight && override != ForcedClosed ==> inflight <= maxInflight
    {
      match override
      case ForcedOpen =>
        return RejectedOpen;
      case ForcedClosed =>
        inflight := inflight + 1;
        return Admitted;
      case NoOverride =>
        if !Slot(vip) {
          return RejectedBulkhead;
        }
        inflight := inflight + 1;
        var ok := CircuitAllows(now, draw);
        if !ok {
          inflight := inflight - 1;
          return RejectedOpen;
        }
        return Admitted;
    }

    predicate Refusing(now: int)
      reads this
    {
      Refuses(Status(), now)
    }

    method GiveUp()
      requires Valid()
      modifies this
      ensures Valid() && Status() == Do(old(Status()), Abandon) && inflight == old(inflight) - 1
    {
      inflight := inflight - 1;
      if state == HalfOpen {
        probing := false;
      }
    }

    /** A canary that succeeds closes the circuit, with nothing left in its window. */
    method MarkSuccess(now: int, latencyUs: int, later: int)
      requires Valid()
      modifies this, metrics, metrics.buckets
      ensures Valid() && Status() == Do(old(Status()), Succeed(now)) && inflight == old(inflight) - 1
      ensures old(state) == HalfOpen ==> metrics.history.log == []
    {
      inflight := inflight - 1;
      metrics.Success(now, latencyUs);
      if state == HalfOpen {
        var moved := Transition(HalfOpen, Closed, later);
        if moved {
          probing := false;
        }
      }
    }

    /** Whether the window, just told of a failure at now, holds too many. */
    method WindowOpens(now: int, later: int) returns (opens: bool)
      requires metrics.Valid() && BucketOf(metrics.history.origin, metrics.history.d, now) <= metrics.current
      modifies metrics, metrics.buckets
      ensures metrics.Valid() && metrics.history == old(metrics.history)
      ensures var w := metrics.Counted(); opens == TooMany(w.success, w.failure, minSamples, failureThreshold)
    {
      hide Share, BucketOf, Total, Holds, UpTo;
      var success, failure := metrics.Counts(later);
      if minSamples > 0 && success + failure < minSamples {
        return false;
      }
      var bps := metrics.FailureRateBps(now);
      return bps >= failureThreshold;
    }

    /** A failure is counted first. A canary that fails reopens the circuit; a closed one
        opens exactly when the window then holds too many failures. */
    method MarkFailure(now: int, later: int)
      requires Valid()
      modifies this, metrics, metrics.buckets
      ensures Valid() && inflight == old(inflight) - 1
      ensures exists at :: metrics.history == Recorded(old(metrics.history), Sample(at, Tally(0, 1, 0, 0))) && now <= at
      ensures var w := metrics.Counted();
              Status() == Do(old(Status()), Fail(now, TooMany(w.success, w.failure, minSamples, failureThreshold)))
    {
      hide TooMany, BucketOf, Total, Holds, UpTo;
      inflight := inflight - 1;
      metrics.Failure(now);
      lastFailure := now;
      if state == HalfOpen {
        var moved := Transition(HalfOpen, Open, now);
        if moved {
          probing := false;
        }
        return;
      }
      var opens := WindowOpens(now, later);
      if opens {
        var moved := Transition(Closed, Open, now);
      }
    }

    /** The next call is admitted as a canary. */
    method BeginProbe() returns (done: bool)
      requires Valid()
      modifies this, metrics, metrics.buckets
      ensures Valid() && Status() == Do(old(Status()), Op.BeginProbe) && done == (old(state) == Open)
      ensures state != Open && (state == HalfOpen ==> !probing)
    {
      probing := false;
      done := Transition(Open, HalfOpen, 0);
    }

    method ResetClosed(now: int) returns (done: bool)
      requires Valid()
      modifies this, metrics, metrics.buckets
      ensures Valid() && Status() == Do(old(Status()), Op.ResetClosed) && done == (old(state) != Closed)
      ensures done ==> metrics.history.log == []
    {
      probing := false;
      done := Transition(HalfOpen, Closed, now);
      if !done {
        done := Transition(Open, Closed, now);
      }
    }

    /** A circuit that was already open keeps the time of its failure. */
    method ReopenFromProbe(now: int) returns (done: bool)
      requires Valid()
      modifies this, metrics, metrics.buckets
      ensures Valid() && Status() == Do(old(Status()), Reopen(now)) && done == (old(state) == HalfOpen)
      ensures metrics.history == old(metrics.history)
    {
      done := Transition(HalfOpen, Open, now);
      if done {
        lastFailure := now;
        probing := false;
      }
    }

    method SetHealthGate(maxOpen: int)
      requires Valid()
      modifies this
      ensures Valid() && Status() == Do(old(Status()), Gate(maxOpen))
    {
      this.maxOpen := maxOpen;
      gated := true;
    }

    method CanRetry() returns (ok: bool)
      requires Valid()
      ensures var w := metrics.Counted();
              ok <==> retryBudgetBps <= 0 || Share(w.retries, w.success + w.failure + w.retries) < retryBudgetBps
    {
      if retryBudgetBps <= 0 {
        return true;
      }
      var bps := metrics.RetryRateBps();
      return bps < retryBudgetBps;
    }
  }
}
