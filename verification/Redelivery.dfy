/** What happens to a message that is delivered again (accept and rewind in
    kafka/consumer.go). A rewind points a partition back at its first unfinished message, and
    messages beyond it that finished are to be skipped when they come again. They are, unless
    everything before them finishes first: then the frontier has moved past them, they are
    forgotten, and they run once more. */
module Redelivery {
  import opened ConsumerState
  import opened ConsumerPool
  import opened ConsumerSteps
  import opened ConsumerRuns

  /** A finished message that is delivered again is skipped exactly if the frontier has not
      passed it. */
  lemma SkippedIff(c: Config, s: Loop, tp: TP, o: nat)
    requires Good(c, s) && tp in s.b.parts && tp in s.b.past && s.b.parts[tp].next == o && o in s.b.past[tp].safe
    ensures var t := Task(tp, o, s.b.parts[tp].gen);
            && (Taken(s, tp, o).backlog == s.backlog <==> s.b.parts[tp].frontier <= o)
            && (Taken(s, tp, o).backlog == s.backlog + [t] <==> o < s.b.parts[tp].frontier)
  {
    hide Sound;
    var p := s.b.parts[tp];
    assert PartOk(p, s.b.past[tp], Mine(Pool(s.f), tp, p.gen), Waiting(s.backlog, tp));
    assert |s.backlog + [Task(tp, o, p.gen)]| == |s.backlog| + 1;
  }

  /** The same in every run, for whatever is delivered: a message is put in the backlog exactly
      if it has not finished in this assignment, or the frontier has passed it. */
  lemma AcceptedIff(c: Config, ss: seq<Loop>, es: seq<Event>, i: nat)
    requires Run(c, ss, es) && i < |es| && es[i].Accept?
    ensures var s, tp, o := ss[i], es[i].tp, es[i].offset;
            && tp in s.b.parts && tp in s.b.past
            && ss[i + 1].backlog ==
                 if o in s.b.past[tp].safe && s.b.parts[tp].frontier <= o then s.backlog
                 else s.backlog + [Task(tp, o, s.b.parts[tp].gen)]
  {
    hide Good, PartsOk;
    RunGood(c, ss, es, i);
    assert Next(c, ss[i], es[i], ss[i + 1]);
    var s, tp, o := ss[i], es[i].tp, es[i].offset;
    if s.b.parts[tp].next < 0 {
      FirstTaken(c, s, tp);
    } else if o in s.b.past[tp].safe {
      SkippedIff(c, s, tp, o);
    } else {
      NotCompleted(c, s, tp, o);
    }
  }

  lemma FirstTaken(c: Config, s: Loop, tp: TP)
    requires Good(c, s) && tp in s.b.parts && tp in s.b.past && s.b.parts[tp].next < 0
    ensures s.b.parts[tp].completed == {} && s.b.past[tp].safe == {}
  {
    hide Sound;
    var p := s.b.parts[tp];
    assert PartOk(p, s.b.past[tp], Mine(Pool(s.f), tp, p.gen), Waiting(s.backlog, tp));
  }

  lemma NotCompleted(c: Config, s: Loop, tp: TP, o: nat)
    requires Good(c, s) && tp in s.b.parts && tp in s.b.past && s.b.parts[tp].next >= 0 && o !in s.b.past[tp].safe
    ensures o !in s.b.parts[tp].completed
  {
    hide Sound;
    var p := s.b.parts[tp];
    assert PartOk(p, s.b.past[tp], Mine(Pool(s.f), tp, p.gen), Waiting(s.backlog, tp));
  }

  // ---- a run in which a finished message runs again ----

  const P0 := TP([], 0)
  const CFG := Config(2, true, (tp, o) => [])

  function T(o: nat): Task { Task(P0, o, 1) }

  /** One partition, without keys. */
  function St(p: Part, first: int, done: set<nat>, backlog: seq<Task>, work: set<Task>, running: set<Task>,
      results: map<Task, Outcome>): Loop
  {
    Loop(Book(map[P0 := p], map[P0 := Past(first, done)], if p.frontier > first then map[P0 := p.frontier] else map[], map[], 1),
         backlog, Flight(map[], work, running, results, map[]), p.inflight)
  }

  function Pt(next: int, frontier: int, completed: set<nat>, n: int): Part { Part(next, frontier, -1, 1, completed, n) }

  /** Offsets 0 and 1 are taken, 1 finishes and 0 has to be retried. The partition is rewound to
      0. This time 0 finishes before 1 is delivered again, and then 1 runs a second time. */
  function Again(): (r: (seq<Loop>, seq<Event>)) {
    ([IDLE,
      St(Pt(-1, -1, {}, 0), -1, {}, [], {}, {}, map[]),
      St(Pt(1, 0, {}, 0), 0, {}, [T(0)], {}, {}, map[]),
      St(Pt(2, 0, {}, 0), 0, {}, [T(0), T(1)], {}, {}, map[]),
      St(Pt(2, 0, {}, 1), 0, {}, [T(1)], {T(0)}, {}, map[]),
      St(Pt(2, 0, {}, 2), 0, {}, [], {T(0), T(1)}, {}, map[]),
      St(Pt(2, 0, {}, 2), 0, {}, [], {T(1)}, {T(0)}, map[]),
      St(Pt(2, 0, {}, 2), 0, {}, [], {}, {T(0), T(1)}, map[]),
      St(Pt(2, 0, {}, 2), 0, {}, [], {}, {T(0)}, map[T(1) := Done]),
      St(Pt(2, 0, {1}, 1), 0, {1}, [], {}, {T(0)}, map[]),
      St(Pt(2, 0, {1}, 1), 0, {1}, [], {}, {}, map[T(0) := Retry]),
      St(Pt(0, 0, {1}, 0), 0, {1}, [], {}, {}, map[]),
      St(Pt(1, 0, {1}, 0), 0, {1}, [T(0)], {}, {}, map[]),
      St(Pt(1, 0, {1}, 1), 0, {1}, [], {T(0)}, {}, map[]),
      St(Pt(1, 0, {1}, 1), 0, {1}, [], {}, {T(0)}, map[]),
      St(Pt(1, 0, {1}, 1), 0, {1}, [], {}, {}, map[T(0) := Done]),
      St(Pt(1, 2, {}, 0), 0, {0, 1}, [], {}, {}, map[]),
      St(Pt(2, 2, {}, 0), 0, {0, 1}, [T(1)], {}, {}, map[]),
      St(Pt(2, 2, {}, 1), 0, {0, 1}, [], {T(1)}, {}, map[]),
      St(Pt(2, 2, {}, 1), 0, {0, 1}, [], {}, {T(1)}, map[])],
     [Assign(P0), Accept(P0, 0), Accept(P0, 1), Start, Start, Pick(T(0)), Pick(T(1)), Return(T(1), Done), Result(T(1)),
      Return(T(0), Retry), Result(T(0)), Accept(P0, 0), Start, Pick(T(0)), Return(T(0), Done), Result(T(0)), Accept(P0, 1),
      Start, Pick(T(1))])
  }

  lemma Accepts(p: Part, first: int, done: set<nat>, backlog: seq<Task>, o: nat)
    requires p.failedAt == -1 && p.gen == 1 && (p.next >= 0 ==> o == p.next) && o !in p.completed
    requires p.next < 0 ==> first == p.frontier
    ensures Next(CFG, St(p, first, done, backlog, {}, {}, map[]), Accept(P0, o),
                 St(Accepted(p, o), if p.next < 0 then o else first, done, backlog + [T(o)], {}, {}, map[]))
  {
  }

  lemma Starts(p: Part, done: set<nat>, o: nat, rest: seq<Task>, work: set<Task>)
    requires p.failedAt == -1 && p.gen == 1 && p.inflight < 2
    ensures Next(CFG, St(p, 0, done, [T(o)] + rest, work, {}, map[]), Start,
                 St(p.(inflight := p.inflight + 1), 0, done, rest, work + {T(o)}, {}, map[]))
  {
    assert ([T(o)] + rest)[1..] == rest;
  }

  lemma Picks(p: Part, done: set<nat>, work: set<Task>, running: set<Task>, t: Task)
    requires t in work
    ensures Next(CFG, St(p, 0, done, [], work, running, map[]), Pick(t), St(p, 0, done, [], work - {t}, running + {t}, map[]))
  {
  }

  lemma Returns(p: Part, done: set<nat>, running: set<Task>, t: Task, o: Outcome)
    requires t in running
    ensures Next(CFG, St(p, 0, done, [], {}, running, map[]), Return(t, o), St(p, 0, done, [], {}, running - {t}, map[t := o]))
  {
  }

  lemma Finishes(p: Part, done: set<nat>, running: set<Task>, o: nat, r: Part)
    requires p.failedAt == -1 && p.gen == 1 && 0 <= p.frontier <= r.frontier && r == MarkedDone(p.(inflight := p.inflight - 1), o)
    requires r.failedAt == -1 && r.gen == 1 && r.inflight == p.inflight - 1
    ensures Next(CFG, St(p, 0, done, [], {}, running, map[T(o) := Done]), Result(T(o)),
                 St(r, 0, done + {o}, [], {}, running, map[]))
  {
    hide MarkedDone;
    assert map[T(o) := Done] - {T(o)} == map[];
  }

  lemma Rewinds(p: Part, done: set<nat>, o: nat)
    requires p.failedAt == -1 && p.gen == 1 && 0 <= p.frontier && p.inflight == 1
    ensures Next(CFG, St(p, 0, done, [], {}, {}, map[T(o) := Retry]), Result(T(o)),
                 St(p.(next := p.frontier, inflight := 0), 0, done, [], {}, {}, map[]))
  {
    assert map[T(o) := Retry] - {T(o)} == map[];
    assert Dropped([], {P0}) == [];
  }

  lemma Assigns()
    ensures Next(CFG, IDLE, Assign(P0), St(Pt(-1, -1, {}, 0), -1, {}, [], {}, {}, map[]))
  {
  }

  lemma AgainBegins()
    ensures var (ss, es) := Again();
            forall i :: 0 <= i < 8 ==> Next(CFG, ss[i], es[i], ss[i + 1])
  {
    hide Next, St;
    Assigns();
    Accepts(Pt(-1, -1, {}, 0), -1, {}, [], 0);
    Accepts(Pt(1, 0, {}, 0), 0, {}, [T(0)], 1);
    var none: seq<Task>, nobody: set<Task> := [], {};
    assert none + [T(0)] == [T(0)] && [T(0)] + [T(1)] == [T(0), T(1)] && [T(1)] + none == [T(1)];
    assert nobody + {T(0)} == {T(0)} && {T(1)} - {T(1)} == nobody;
    Starts(Pt(2, 0, {}, 0), {}, 0, [T(1)], {});
    Starts(Pt(2, 0, {}, 1), {}, 1, [], {T(0)});
    assert {T(0)} + {T(1)} == {T(0), T(1)};
    Picks(Pt(2, 0, {}, 2), {}, {T(0), T(1)}, {}, T(0));
    assert {T(0), T(1)} - {T(0)} == {T(1)} && {T(0), T(1)} - {T(1)} == {T(0)};
    Picks(Pt(2, 0, {}, 2), {}, {T(1)}, {T(0)}, T(1));
    Returns(Pt(2, 0, {}, 2), {}, {T(0), T(1)}, T(1), Done);
  }

  lemma OneDone()
    ensures MarkedDone(Pt(2, 0, {}, 1), 1) == Pt(2, 0, {1}, 1)
  {
  }

  lemma BothDone()
    ensures MarkedDone(Pt(1, 0, {1}, 0), 0) == Pt(1, 2, {}, 0)
  {
    var p := Pt(1, 0, {1} + {0}, 0);
    assert {1} + {0} - {0} == {1} && {1} - {1} == {};
    assert Advanced(p) == Advanced(Pt(1, 1, {1}, 0)) == Advanced(Pt(1, 2, {}, 0));
  }

  lemma AgainRewinds()
    ensures var (ss, es) := Again();
            Next(CFG, ss[8], es[8], ss[9]) && Next(CFG, ss[9], es[9], ss[10]) && Next(CFG, ss[10], es[10], ss[11])
  {
    hide Next, St, MarkedDone;
    OneDone();
    Finishes(Pt(2, 0, {}, 2), {}, {T(0)}, 1, Pt(2, 0, {1}, 1));
    Returns(Pt(2, 0, {1}, 1), {1}, {T(0)}, T(0), Retry);
    assert {T(0)} - {T(0)} == {};
    var nothing: set<nat> := {};
    assert nothing + {1} == {1};
    Rewinds(Pt(2, 0, {1}, 1), {1}, 0);
  }

  lemma AgainEnds()
    ensures var (ss, es) := Again();
            forall i :: 11 <= i < 19 ==> Next(CFG, ss[i], es[i], ss[i + 1])
  {
    hide Next, St, MarkedDone;
    Accepts(Pt(0, 0, {1}, 0), 0, {1}, [], 0);
    Starts(Pt(1, 0, {1}, 0), {1}, 0, [], {});
    Picks(Pt(1, 0, {1}, 1), {1}, {T(0)}, {}, T(0));
    assert {T(0)} - {T(0)} == {} && {T(1)} - {T(1)} == {};
    Returns(Pt(1, 0, {1}, 1), {1}, {T(0)}, T(0), Done);
    BothDone();
    Finishes(Pt(1, 0, {1}, 1), {1}, {}, 0, Pt(1, 2, {}, 0));
    assert {1} + {0} == {0, 1};
    var none: seq<Task>, nobody: set<Task> := [], {};
    assert none + [T(0)] == [T(0)] && [T(0)] + none == [T(0)] && none + [T(1)] == [T(1)] && [T(1)] + none == [T(1)];
    assert nobody + {T(0)} == {T(0)} && nobody + {T(1)} == {T(1)};
    Accepts(Pt(1, 2, {}, 0), 0, {0, 1}, [], 1);
    Starts(Pt(2, 2, {}, 0), {0, 1}, 1, [], {});
    Picks(Pt(2, 2, {}, 1), {0, 1}, {T(1)}, {}, T(1));
  }

  /** A worker reported offset 1 done at moment 7, and at moment 19 a worker has it again, in
      the same assignment. */
  lemma FinishedRunsAgain()
    ensures var (ss, es) := Again();
            && Run(CFG, ss, es) && es[7] == Return(T(1), Done) && T(1) in ss[19].f.running
            && forall i :: 0 < i < |es| ==> !es[i].Assign? && !es[i].Revoke?
  {
    hide Next;
    var (ss, es) := Again();
    AgainBegins();
    AgainRewinds();
    AgainEnds();
    forall i, j | 0 <= i && j == i + 1 <= |es| ensures Next(CFG, ss[i], es[i], ss[j]) {
    }
  }
}
