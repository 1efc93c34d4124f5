/** The rolling window of call outcomes (RollingWindow in internal/engine/engine.go): a ring
    of buckets with running totals, proved to count exactly the events of the last n
    buckets. */
module Window {
  datatype Tally = Tally(success: int, failure: int, latency: int, retries: int)

  const NONE := Tally(0, 0, 0, 0)

  function Plus(a: Tally, b: Tally): Tally {
    Tally(a.success + b.success, a.failure + b.failure, a.latency + b.latency, a.retries + b.retries)
  }

  function Minus(a: Tally, b: Tally): Tally {
    Tally(a.success - b.success, a.failure - b.failure, a.latency - b.latency, a.retries - b.retries)
  }

  /** Something recorded, and when. */
  datatype Sample = Sample(at: int, tally: Tally)

  /** What happened since the window was last reset, at origin, in buckets of length d. */
  datatype History = History(origin: int, d: int, log: seq<Sample>)

  function BucketOf(origin: int, d: int, at: int): int
    requires 0 < d
  {
    (at - origin) / d
  }

  /** The sum of everything recorded in the buckets after lo up to and including hi. */
  function Total(h: History, lo: int, hi: int): Tally
    requires 0 < h.d
    decreases |h.log|
  {
    if h.log == [] then NONE
    else
      var n := |h.log| - 1;
      var t := Total(h.(log := h.log[..n]), lo, hi);
      if lo < BucketOf(h.origin, h.d, h.log[n].at) <= hi then Plus(t, h.log[n].tally) else t
  }

  /** Nothing was recorded after bucket k. */
  ghost predicate UpTo(h: History, k: int)
    requires 0 < h.d
  {
    forall s <- h.log :: BucketOf(h.origin, h.d, s.at) <= k
  }

  lemma {:induction false} TotalSplit(h: History, lo: int, mid: int, hi: int)
    requires 0 < h.d && lo <= mid <= hi
    ensures Total(h, lo, hi) == Plus(Total(h, lo, mid), Total(h, mid, hi))
    decreases |h.log|
  {
    hide BucketOf;
    if h.log != [] {
      TotalSplit(h.(log := h.log[..|h.log| - 1]), lo, mid, hi);
    }
  }

  lemma {:induction false} TotalNone(h: History, k: int, lo: int, hi: int)
    requires 0 < h.d && UpTo(h, k) && k <= lo
    ensures Total(h, lo, hi) == NONE
    decreases |h.log|
  {
    hide BucketOf;
    if h.log != [] {
      var n := |h.log| - 1;
      TotalNone(h.(log := h.log[..n]), k, lo, hi);
      assert h.log[n] in h.log;
    }
  }

  // ---- the ring ----

  /** Where the ring keeps the bucket j before the current one. */
  function Slot(head: nat, n: nat, j: nat): nat
    requires head < n && j < n
  {
    if j <= head then head - j else head + n - j
  }

  /** The ring holds the last n buckets up to k, and sum is their sum. */
  ghost predicate Holds(h: History, k: int, ring: seq<Tally>, head: nat, sum: Tally) {
    && 0 < h.d && head < |ring|
    && (forall j :: 0 <= j < |ring| ==> ring[Slot(head, |ring|, j)] == Total(h, k - j - 1, k - j))
    && sum == Total(h, k - |ring|, k)
  }

  function Ahead(head: nat, n: nat): nat
    requires head < n
  {
    (head + 1) % n
  }

  lemma AheadIs(head: nat, n: nat)
    requires head < n
    ensures Ahead(head, n) == if head + 1 == n then 0 else head + 1
  {
    if head + 1 < n {
      assert (head + 1) % n == head + 1;
    }
  }

  /** Moving on by one bucket: the oldest is forgotten and the new one is empty. */
  lemma Advance(h: History, k: int, ring: seq<Tally>, head: nat, sum: Tally)
    requires Holds(h, k, ring, head, sum) && UpTo(h, k)
    ensures var to := Ahead(head, |ring|);
            Holds(h, k + 1, ring[to := NONE], to, Minus(sum, ring[to]))
  {
    hide Total;
    var n, to := |ring|, Ahead(head, |ring|);
    AheadIs(head, n);
    assert Slot(head, n, n - 1) == to;
    TotalSplit(h, k - n, k - n + 1, k);
    TotalNone(h, k, k, k + 1);
    TotalSplit(h, k - n + 1, k, k + 1);
    var next := ring[to := NONE];
    forall j | 0 <= j < n ensures next[Slot(to, n, j)] == Total(h, k - j, k + 1 - j) {
      if j > 0 {
        assert Slot(to, n, j) == Slot(head, n, j - 1);
        assert ring[Slot(head, n, j - 1)] == Total(h, k - (j - 1) - 1, k - (j - 1));
      }
    }
  }

  /** Once all n buckets are new, going further makes no difference. */
  lemma LongIdle(h: History, k: int, ring: seq<Tally>, head: nat, sum: Tally, last: int, to: int)
    requires Holds(h, k, ring, head, sum) && UpTo(h, last) && last + |ring| <= k <= to
    ensures Holds(h, to, ring, head, sum)
  {
    hide Total;
    TotalNone(h, last, k - |ring|, k);
    TotalNone(h, last, to - |ring|, to);
    forall j | 0 <= j < |ring| ensures ring[Slot(head, |ring|, j)] == Total(h, to - j - 1, to - j) {
      TotalNone(h, last, k - j - 1, k - j);
      TotalNone(h, last, to - j - 1, to - j);
    }
  }

  function Recorded(h: History, s: Sample): History { h.(log := h.log + [s]) }

  lemma TotalRecorded(h: History, s: Sample, lo: int, hi: int)
    requires 0 < h.d
    ensures var t := Total(h, lo, hi);
            Total(Recorded(h, s), lo, hi) == if lo < BucketOf(h.origin, h.d, s.at) <= hi then Plus(t, s.tally) else t
  {
    hide BucketOf;
    assert (h.log + [s])[..|h.log|] == h.log;
    assert Recorded(h, s).(log := h.log) == h;
  }

  /** Recording goes to the bucket at the head and to the sum. */
  lemma Record(h: History, k: int, ring: seq<Tally>, head: nat, sum: Tally, s: Sample)
    requires Holds(h, k, ring, head, sum) && UpTo(h, k) && BucketOf(h.origin, h.d, s.at) == k
    ensures UpTo(Recorded(h, s), k)
    ensures Holds(Recorded(h, s), k, ring[head := Plus(ring[head], s.tally)], head, Plus(sum, s.tally))
  {
    hide Total, BucketOf;
    TotalRecorded(h, s, k - |ring|, k);
    var next := ring[head := Plus(ring[head], s.tally)];
    forall j | 0 <= j < |ring|
      ensures next[Slot(head, |ring|, j)] == Total(Recorded(h, s), k - j - 1, k - j)
    {
      TotalRecorded(h, s, k - j - 1, k - j);
      assert ring[Slot(head, |ring|, j)] == Total(h, k - j - 1, k - j);
    }
  }

  lemma Multiples(a: int, b: int, d: int)
    requires a < b && 0 < d
    ensures a * d + d <= b * d
  {
    var n: nat := b - a - 1;
    assert b * d == (a + 1 + n) * d == a * d + d + n * d;
    assert n * d >= 0;
  }

  lemma BucketIs(origin: int, d: int, k: int, at: int)
    requires 0 < d && 0 <= at - (origin + k * d) < d
    ensures BucketOf(origin, d, at) == k
  {
    var q := (at - origin) / d;
    assert q * d <= at - origin < q * d + d;
    if q < k {
      Multiples(q, k, d);
    } else if k < q {
      Multiples(k, q, d);
    }
  }

  /** A ring of empty buckets holds an empty history. */
  lemma EmptyHolds(origin: int, d: int, ring: seq<Tally>)
    requires 0 < d && 0 < |ring| && forall t <- ring :: t == NONE
    ensures var h := History(origin, d, []); UpTo(h, 0) && Holds(h, 0, ring, 0, NONE)
  {
    forall j | 0 <= j < |ring| ensures ring[Slot(0, |ring|, j)] == NONE {
      assert ring[Slot(0, |ring|, j)] in ring;
    }
  }

  lemma HoldsHead(h: History, k: int, ring: seq<Tally>, head: nat, sum: Tally)
    requires Holds(h, k, ring, head, sum)
    ensures 0 < h.d && head < |ring|
  {
  }

  lemma UpToMore(h: History, k: int, m: int)
    requires 0 < h.d && UpTo(h, k) && k <= m
    ensures UpTo(h, m)
  {
  }

  /** A time before the end of bucket k falls into it or an earlier one. */
  lemma OldBucket(origin: int, d: int, k: int, at: int)
    requires 0 < d && at - (origin + k * d) < d
    ensures BucketOf(origin, d, at) <= k
  {
    var q := (at - origin) / d;
    assert q * d <= at - origin;
    if k < q {
      Multiples(k, q, d);
    }
  }

  lemma Whole(x: int, d: int)
    requires 0 < d <= x
    ensures 1 <= x / d && 0 <= x - x / d * d < d
  {
  }

  /** Whole buckets ahead of bucket k lies the one that at falls into. */
  lemma Reached(origin: int, d: int, k: int, diff: int, at: int)
    requires 0 < d && 0 <= at - (origin + k * d) - diff * d < d
    ensures origin + k * d + diff * d == origin + (k + diff) * d
    ensures BucketOf(origin, d, at) == k + diff
  {
    BucketIs(origin, d, k + diff, at);
  }

  function Later(a: int, b: int): int { if a < b then b else a }

  /** part as a share of whole, in basis points. */
  function Share(part: int, whole: int): int {
    if whole <= 0 then 0 else part * 10000 / whole
  }

  /** A share reaches a threshold when the counts do. */
  lemma ShareReaches(part: int, whole: int, threshold: int)
    requires 0 < whole
    ensures Share(part, whole) >= threshold <==> part * 10000 >= threshold * whole
  {
    var q, x := part * 10000 / whole, part * 10000;
    assert q * whole <= x < q * whole + whole;
    if q < threshold {
      Multiples(q, threshold, whole);
    } else if threshold < q {
      Multiples(threshold, q, whole);
    }
  }

  class RollingWindow {
    const bucketDuration: int
    const buckets: array<Tally>
    var lastUpdate: int
    var total: Tally
    var head: nat
    ghost var history: History
    ghost var current: int // the bucket lastUpdate starts

    ghost predicate Valid()
      reads this, buckets
    {
      && history.d == bucketDuration > 0 && lastUpdate == history.origin + current * bucketDuration
      && UpTo(history, current) && Holds(history, current, buckets[..], head, total)
    }

    constructor (window: int, bucketDuration: int, now: int)
      requires 0 <= window && 0 < bucketDuration
      ensures Valid() && fresh(buckets) && history == History(now, bucketDuration, []) && current == 0
      ensures buckets.Length == if window < bucketDuration then 1 else window / bucketDuration
    {
      hide Holds, UpTo;
      var n := window / bucketDuration;
      if n == 0 {
        n := 1;
      }
      this.bucketDuration := bucketDuration;
      buckets := new Tally[n](_ => NONE);
      lastUpdate, total, head := now, NONE, 0;
      history, current := History(now, bucketDuration, []), 0;
      new;
      EmptyHolds(now, bucketDuration, buckets[..]);
    }

    /** Moves on to the bucket that now falls into, forgetting those that slide out. */
    method Rotate(now: int)
      requires Valid()
      modifies this, buckets
      ensures Valid() && history == old(history)
      ensures current == Later(old(current), BucketOf(history.origin, history.d, now))
      ensures now < lastUpdate + bucketDuration
    {
      hide Holds, UpTo, Slot;
      if now - lastUpdate < bucketDuration {
        OldBucket(history.origin, bucketDuration, current, now);
        return;
      }
      var diff := (now - lastUpdate) / bucketDuration;
      var clearCount := diff;
      if clearCount > buckets.Length {
        clearCount := buckets.Length;
      }
      Whole(now - lastUpdate, bucketDuration);
      HoldsHead(history, current, buckets[..], head, total);
      for i := 0 to clearCount
        invariant history == old(history) && current == old(current) && lastUpdate == old(lastUpdate)
        invariant head < buckets.Length && Holds(history, current + i, buckets[..], head, total)
      {
        UpToMore(history, current, current + i);
        Advance(history, current + i, buckets[..], head, total);
        head := (head + 1) % buckets.Length;
        total := Minus(total, buckets[head]);
        buckets[head] := NONE;
        HoldsHead(history, current + i + 1, buckets[..], head, total);
      }
      if clearCount < diff {
        LongIdle(history, current + clearCount, buckets[..], head, total, current, current + diff);
      }
      UpToMore(history, current, current + diff);
      lastUpdate := lastUpdate + diff * bucketDuration;
      current := current + diff;
      Reached(history.origin, bucketDuration, old(current), diff, now);
    }

    /** Counts x now. An event whose time another call has overtaken counts as just arrived. */
    method Add(now: int, x: Tally)
      requires Valid()
      modifies this, buckets
      ensures Valid() && now < lastUpdate + bucketDuration
      ensures current == Later(old(current), BucketOf(history.origin, history.d, now))
      ensures history == Recorded(old(history), Sample(Later(now, lastUpdate), x))
    {
      hide Holds, UpTo;
      Rotate(now);
      var s := Sample(Later(now, lastUpdate), x);
      BucketIs(history.origin, bucketDuration, current, s.at);
      HoldsHead(history, current, buckets[..], head, total);
      Record(history, current, buckets[..], head, total, s);
      buckets[head] := Plus(buckets[head], x);
      total := Plus(total, x);
      history := Recorded(history, s);
    }

    method Success(now: int, latencyUs: int)
      requires Valid()
      modifies this, buckets
      ensures Valid()
      ensures current == Later(old(current), BucketOf(history.origin, history.d, now))
      ensures history == Recorded(old(history), Sample(Later(now, lastUpdate), Tally(1, 0, Later(latencyUs, 0), 0)))
    {
      Add(now, Tally(1, 0, if latencyUs > 0 then latencyUs else 0, 0));
    }

    method Failure(now: int)
      requires Valid()
      modifies this, buckets
      ensures Valid() && now < lastUpdate + bucketDuration
      ensures current == Later(old(current), BucketOf(history.origin, history.d, now))
      ensures history == Recorded(old(history), Sample(Later(now, lastUpdate), Tally(0, 1, 0, 0)))
    {
      Add(now, Tally(0, 1, 0, 0));
    }

    method RecordRetry(now: int)
      requires Valid()
      modifies this, buckets
      ensures Valid()
      ensures current == Later(old(current), BucketOf(history.origin, history.d, now))
      ensures history == Recorded(old(history), Sample(Later(now, lastUpdate), Tally(0, 0, 0, 1)))
    {
      Add(now, Tally(0, 0, 0, 1));
    }

    /** Forgets everything recorded so far. */
    method Reset(now: int)
      requires Valid()
      modifies this, buckets
      ensures Valid() && history == History(now, bucketDuration, []) && current == 0
    {
      hide Holds, UpTo;
      HoldsHead(history, current, buckets[..], head, total);
      for i := 0 to buckets.Length
        invariant forall j :: 0 <= j < i ==> buckets[j] == NONE
      {
        buckets[i] := NONE;
      }
      total, head, lastUpdate := NONE, 0, now;
      history, current := History(now, bucketDuration, []), 0;
      EmptyHolds(now, bucketDuration, buckets[..]);
    }

    /** What the window counts: the events of the last n buckets since the last reset. */
    ghost function Counted(): Tally
      requires Valid()
      reads this, buckets
    {
      Total(history, current - buckets.Length, current)
    }

    method FailureRateBps(now: int) returns (bps: int)
      requires Valid()
      modifies this, buckets
      ensures Valid() && history == old(history)
      ensures current == Later(old(current), BucketOf(history.origin, history.d, now))
      ensures bps == Share(Counted().failure, Counted().success + Counted().failure)
    {
      Rotate(now);
      var sum := total.success + total.failure;
      if sum <= 0 {
        return 0;
      }
      return total.failure * 10000 / sum;
    }

    method RetryRateBps() returns (bps: int)
      requires Valid()
      ensures bps == Share(Counted().retries, Counted().success + Counted().failure + Counted().retries)
    {
      var sum := total.success + total.failure + total.retries;
      if sum <= 0 {
        return 0;
      }
      return total.retries * 10000 / sum;
    }

    method Counts(now: int) returns (success: int, failure: int)
      requires Valid()
      modifies this, buckets
      ensures Valid() && history == old(history)
      ensures old(current) <= current <= Later(old(current), BucketOf(history.origin, history.d, now))
      ensures now <= lastUpdate + bucketDuration
      ensures (success, failure) == (Counted().success, Counted().failure)
    {
      if now - lastUpdate > bucketDuration {
        Rotate(now);
      }
      return total.success, total.failure;
    }
  }
}
