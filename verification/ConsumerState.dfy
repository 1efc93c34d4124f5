/** What the Kafka consumer's bookkeeping means (kafka/consumer.go), one partition at a
    time: where progress stands, which offsets are finished out of order, which are
    waiting and which are in flight. */
module ConsumerState {
  import opened Records

  datatype TP = TP(topic: Text, partition: nat)

  /** An accepted message of one assignment. */
  datatype Task = Task(tp: TP, offset: nat, gen: nat)

  /** How handling a message ended. The first three are safe: done, or durable in the
      store. Retry is neither; Fatal stops the consumer. */
  datatype Outcome = Done | Deferred | Parked | Retry | Fatal

  predicate Finished(o: Outcome) { o.Done? || o.Deferred? || o.Parked? }

  /** One assigned partition. next and frontier are -1 until the first message. */
  datatype Part = Part(next: int, frontier: int, failedAt: int, gen: nat, completed: set<nat>, inflight: int)

  /** What an assignment has seen: its first offset, and every offset that has been safe. */
  datatype Past = Past(first: int, safe: set<nat>)

  /** Where a partition of which nothing was accepted yet stands. */
  predicate Untouched(p: Part, past: Past) {
    p.next == -1 && p.frontier == -1 && p.failedAt == -1 && p.completed == {} && p.inflight == 0 && past == Past(-1, {})
  }

  /** Everything before the frontier, from the assignment's first message on, has been done
      or stored, and what has been so beyond it is remembered. */
  ghost predicate Passed(p: Part, past: Past) {
    && 0 <= past.first <= p.frontier && past.first <= p.next
    && (forall o: nat :: past.first <= o < p.frontier ==> o in past.safe)
    && p.completed <= past.safe && (forall o <- past.safe :: p.frontier <= o ==> o in p.completed)
    && (forall o <- p.completed :: p.frontier <= o || o < p.next)
  }

  /** The frontier is the first offset that has not been done or stored. */
  ghost predicate FrontierOk(p: Part, past: Past) { Passed(p, past) && p.frontier !in past.safe }

  /** Nothing is lost: unless the partition is about to be rewound, every accepted offset
      that is not finished is waiting or in flight. A rewind that is due has work in
      flight that will trigger it. */
  ghost predicate Covered(p: Part, mine: set<nat>, waiting: set<nat>) {
    && -1 <= p.failedAt
    && (p.failedAt < 0 ==> forall o: nat :: p.frontier <= o < p.next ==> o in p.completed || o in mine || o in waiting)
    && (p.failedAt >= 0 ==> p.inflight > 0)
  }

  /** Offsets in flight (mine) and in the backlog (waiting) were accepted, the latter after
      the former. */
  ghost predicate Placed(p: Part, past: Past, mine: set<nat>, waiting: set<nat>) {
    && p.inflight == |mine|
    && (forall o <- mine :: past.first <= o < p.next) && (forall o <- waiting :: past.first <= o < p.next)
    && (forall o <- mine, w <- waiting :: o < w)
  }

  ghost predicate PartOk(p: Part, past: Past, mine: set<nat>, waiting: set<nat>) {
    if p.next < 0 then Untouched(p, past) && mine == {} && waiting == {}
    else FrontierOk(p, past) && Covered(p, mine, waiting) && Placed(p, past, mine, waiting)
  }

  // ---- accepting ----

  /** accept, once the offset is known to be the next: the first message of an assignment
      is where progress starts. */
  function Accepted(p: Part, o: nat): Part {
    p.(next := o + 1, frontier := if p.next < 0 then o else p.frontier)
  }

  function PastAccepted(p: Part, past: Past, o: nat): Past {
    if p.next < 0 then past.(first := o) else past
  }

  lemma AcceptKeeps(p: Part, past: Past, mine: set<nat>, waiting: set<nat>, o: nat)
    requires PartOk(p, past, mine, waiting) && p.failedAt < 0 && (p.next >= 0 ==> o == p.next)
    ensures var waiting' := if o in p.completed then waiting else waiting + {o};
            PartOk(Accepted(p, o), PastAccepted(p, past, o), mine, waiting')
  {
  }

  // ---- dispatching ----

  lemma DispatchKeeps(p: Part, past: Past, mine: set<nat>, waiting: set<nat>, o: nat)
    requires PartOk(p, past, mine, waiting) && o in waiting && (forall w <- waiting :: o <= w)
    ensures p.failedAt < 0 ==> o !in mine && PartOk(p.(inflight := p.inflight + 1), past, mine + {o}, waiting - {o})
    ensures p.failedAt >= 0 ==> PartOk(p, past, mine, waiting - {o})
  {
  }

  // ---- finishing ----

  /** markDone's loop: the frontier moves over every offset that is finished. */
  function Advanced(p: Part): (r: Part)
    decreases p.completed
  {
    if p.frontier >= 0 && p.frontier in p.completed
    then Advanced(p.(completed := p.completed - {p.frontier}, frontier := p.frontier + 1))
    else p
  }

  function MarkedDone(p: Part, o: nat): Part { Advanced(p.(completed := p.completed + {o})) }

  /** The frontier only moves forward, over offsets that are safe, and stops at the first
      that is not finished. */
  lemma {:induction false} AdvancedKeeps(p: Part, past: Past)
    requires p.next >= 0 && Passed(p, past)
    ensures var r := Advanced(p);
            && FrontierOk(r, past) && p.frontier <= r.frontier && r.frontier !in r.completed
            && r == p.(frontier := r.frontier, completed := r.completed)
            && (forall o: nat :: p.frontier <= o < r.frontier ==> o in p.completed)
            && (forall o: nat :: r.frontier <= o ==> (o in r.completed <==> o in p.completed))
            && (forall o <- r.completed :: o in p.completed)
    decreases p.completed
  {
    if p.frontier in p.completed {
      AdvancedKeeps(p.(completed := p.completed - {p.frontier}, frontier := p.frontier + 1), past);
    }
  }

  lemma FinishKeeps(p: Part, past: Past, mine: set<nat>, waiting: set<nat>, o: nat)
    requires p.next >= 0 && FrontierOk(p, past) && Covered(p, mine, waiting) && Placed(p, past, mine, waiting) && o in mine
    ensures var r := MarkedDone(p.(inflight := p.inflight - 1), o);
            var past' := past.(safe := past.safe + {o});
            && r.next == p.next && r.gen == p.gen && r.failedAt == p.failedAt && r.inflight == p.inflight - 1 && p.frontier <= r.frontier
            && FrontierOk(r, past') && Placed(r, past', mine - {o}, waiting)
            && (r.failedAt < 0 || r.inflight > 0 ==> Covered(r, mine - {o}, waiting))
  {
    var q := p.(inflight := p.inflight - 1, completed := p.completed + {o});
    var past' := past.(safe := past.safe + {o});
    AdvancedKeeps(q, past');
    assert |mine - {o}| == |mine| - 1;
  }

  // ---- failing and rewinding ----

  function Failed(p: Part, o: nat): (r: Part)
    ensures r == p.(failedAt := r.failedAt) && r.failedAt <= o && (p.failedAt >= 0 ==> r.failedAt <= p.failedAt)
    ensures r.failedAt in {o, p.failedAt} && r.failedAt >= 0
  {
    if p.failedAt < 0 || o < p.failedAt then p.(failedAt := o) else p
  }

  /** A message failed, and those waiting behind its key are given up. */
  lemma FailKeeps(p: Part, past: Past, mine: set<nat>, waiting: set<nat>, o: nat, dropped: set<nat>)
    requires p.next >= 0 && FrontierOk(p, past) && Covered(p, mine, waiting) && Placed(p, past, mine, waiting)
    requires o in mine && dropped <= mine - {o}
    ensures var r := Failed(p.(inflight := p.inflight - 1 - |dropped|), o);
            && r.failedAt >= 0 && FrontierOk(r, past) && Placed(r, past, mine - {o} - dropped, waiting)
            && (r.inflight > 0 ==> Covered(r, mine - {o} - dropped, waiting))
            && (r.inflight == 0 ==> mine - {o} - dropped == {})
  {
    var rest := mine - {o};
    assert |rest| == |mine| - 1;
    assert rest == dropped + (rest - dropped);
    assert |rest| == |dropped| + |rest - dropped|;
  }

  function Rewound(p: Part): Part { p.(next := p.frontier, failedAt := -1) }

  /** rewind: nothing is in flight, and everything from the frontier on will be delivered
      again. */
  lemma RewindKeeps(p: Part, past: Past)
    requires FrontierOk(p, past) && p.inflight == 0
    ensures PartOk(Rewound(p), past, {}, {})
  {
  }

  /** The partition point of view of never losing anything: after a rewind the next offset
      is the first unfinished one; before it, nothing unfinished has gone missing. */
  lemma NothingLost(p: Part, past: Past, mine: set<nat>, waiting: set<nat>, o: nat)
    requires PartOk(p, past, mine, waiting) && past.first <= o < p.next && p.next >= 0
    ensures o in past.safe || o in mine || o in waiting || p.failedAt >= 0
    ensures p.failedAt >= 0 ==> mine != {}
  {
  }
}
