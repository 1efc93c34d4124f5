/** Per-key order in the consumer: what each step does to the lines behind busy keys
    (send, released and dropQueued in kafka/consumer.go). */
module ConsumerLines {
  import opened ConsumerState
  import opened ConsumerPool

  type Queues = map<KeyId, seq<Task>>

  /** Only generations matter to the lines, and only the pasts of busy partitions. */
  lemma LinesFrame(parts: Parts, past: Pasts, parts': Parts, past': Pasts, active: set<Task>, lines: Lines,
      keyOf: KeyOf)
    requires LinesOk(parts, past, active, lines, keyOf) && parts'.Keys == parts.Keys
    requires forall tp <- parts :: parts'[tp].gen == parts[tp].gen
    requires forall k <- lines :: k.tp in past && k.tp in past' && past'[k.tp] == past[k.tp]
    ensures LinesOk(parts', past', active, lines, keyOf)
  {
    hide LineOk;
    forall k <- lines ensures KeyOk(parts', past', active, lines[k], k, keyOf) {
      assert KeyOk(parts, past, active, lines[k], k, keyOf);
    }
    forall t <- active ensures Leads(parts', lines, t, keyOf) {
      assert Leads(parts, lines, t, keyOf);
    }
  }

  /** Every earlier message of the key is safe or in the line. */
  ghost predicate Preceded(line: seq<Task>, t: Task, past: Past, keyOf: KeyOf) {
    && (forall u <- line :: u.offset < t.offset)
    && (forall o: nat :: past.first <= o < t.offset && keyOf(t.tp, o) == keyOf(t.tp, t.offset) ==>
          o in past.safe || exists j :: 0 <= j < |line| && line[j].offset == o)
  }

  lemma LineJoins(line: seq<Task>, t: Task, k: KeyId, past: Past, keyOf: KeyOf)
    requires LineOk(line, k, past, keyOf) && Preceded(line, t, past, keyOf) && k == IdOf(keyOf, t)
    ensures LineOk(line + [t], k, past, keyOf)
  {
    var l := line + [t];
    forall i, o: nat | 0 <= i < |l| && past.first <= o < l[i].offset && keyOf(k.tp, o) == k.key
      ensures o in past.safe || exists j :: 0 <= j < i && l[j].offset == o
    {
      if o !in past.safe {
        if i < |line| {
          var j :| 0 <= j < i && line[j].offset == o;
          assert l[j].offset == o;
        } else {
          var j :| 0 <= j < |line| && line[j].offset == o;
          assert l[j].offset == o;
        }
      }
    }
  }

  /** The first of the line is finished: the rest moves up. */
  lemma LineMoves(line: seq<Task>, k: KeyId, past: Past, past': Past, keyOf: KeyOf)
    requires LineOk(line, k, past, keyOf) && line != [] && past' == past.(safe := past.safe + {line[0].offset})
    ensures LineOk(line[1..], k, past', keyOf)
  {
    var l := line[1..];
    forall i, j | 0 <= i < j < |l| ensures l[i].offset < l[j].offset {
      assert l[i] == line[i + 1] && l[j] == line[j + 1];
    }
    forall i, o: nat | 0 <= i < |l| && past'.first <= o < l[i].offset && keyOf(k.tp, o) == k.key
      ensures o in past'.safe || exists j :: 0 <= j < i && l[j].offset == o
    {
      assert l[i] == line[i + 1];
      if o !in past'.safe {
        var j :| 0 <= j < i + 1 && line[j].offset == o;
        assert j > 0 && l[j - 1].offset == o;
      }
    }
  }

  lemma LineSafer(line: seq<Task>, k: KeyId, past: Past, past': Past, keyOf: KeyOf)
    requires LineOk(line, k, past, keyOf) && past'.first == past.first && past.safe <= past'.safe
    ensures LineOk(line, k, past', keyOf)
  {
  }

  // ---- sending ----

  function LineOf(lines: Lines, k: KeyId): seq<Task> { if k in lines then lines[k] else [] }

  /** send: behind its key if that is busy, else to the workers. */
  lemma SendLines(parts: Parts, past: Pasts, active: set<Task>, lines: Lines, keyOf: KeyOf, t: Task)
    requires LinesOk(parts, past, active, lines, keyOf) && Current(parts, t) && t.tp in past
    requires var k := IdOf(keyOf, t);
             k.key != [] ==> Preceded(LineOf(lines, k), t, past[t.tp], keyOf)
    ensures var k := IdOf(keyOf, t);
            var active' := if k.key != [] && k in lines then active else active + {t};
            LinesOk(parts, past, active', if k.key == [] then lines else lines[k := LineOf(lines, k) + [t]], keyOf)
  {
    var k := IdOf(keyOf, t);
    var active' := if k.key != [] && k in lines then active else active + {t};
    var lines' := if k.key == [] then lines else lines[k := LineOf(lines, k) + [t]];
    if k.key != [] {
      SendKey(parts, past, active, lines, keyOf, t, active');
    }
    hide LineOk, Preceded;
    forall x <- lines' ensures KeyOk(parts, past, active', lines'[x], x, keyOf) {
      if x != k || k.key == [] {
        assert KeyOk(parts, past, active, lines[x], x, keyOf);
      }
    }
    forall u <- active' ensures Leads(parts, lines', u, keyOf) {
      if u in active {
        assert Leads(parts, lines, u, keyOf);
      }
    }
  }

  lemma SendKey(parts: Parts, past: Pasts, active: set<Task>, lines: Lines, keyOf: KeyOf, t: Task, active': set<Task>)
    requires LinesOk(parts, past, active, lines, keyOf) && Current(parts, t) && t.tp in past && IdOf(keyOf, t).key != []
    requires Preceded(LineOf(lines, IdOf(keyOf, t)), t, past[t.tp], keyOf)
    requires active' == if IdOf(keyOf, t) in lines then active else active + {t}
    ensures KeyOk(parts, past, active', LineOf(lines, IdOf(keyOf, t)) + [t], IdOf(keyOf, t), keyOf)
  {
    var k := IdOf(keyOf, t);
    if k in lines {
      assert KeyOk(parts, past, active, lines[k], k, keyOf);
    }
    LineJoins(LineOf(lines, k), t, k, past[t.tp], keyOf);
    hide LineOk, Preceded;
  }

  // ---- finishing ----

  /** released: the line moves up, and is gone when nobody waits. */
  function MovedUp(lines: Lines, k: KeyId): Lines {
    if k !in lines || |lines[k]| <= 1 then lines - {k} else lines[k := lines[k][1..]]
  }

  /** Who starts then. */
  function NextUp(lines: Lines, k: KeyId): set<Task> {
    if k in lines && |lines[k]| > 1 then {lines[k][1]} else {}
  }

  lemma FinishLines(parts: Parts, past: Pasts, active: set<Task>, lines: Lines, keyOf: KeyOf, t: Task)
    requires LinesOk(parts, past, active, lines, keyOf) && t in active && Current(parts, t) && t.tp in past
    ensures var k := IdOf(keyOf, t);
            var past' := past[t.tp := past[t.tp].(safe := past[t.tp].safe + {t.offset})];
            && (k.key == [] ==> LinesOk(parts, past', active - {t}, lines, keyOf))
            && (k.key != [] ==> LinesOk(parts, past', active - {t} + NextUp(lines, k), MovedUp(lines, k), keyOf))
  {
    var k := IdOf(keyOf, t);
    var past' := past[t.tp := past[t.tp].(safe := past[t.tp].safe + {t.offset})];
    var active' := if k.key == [] then active - {t} else active - {t} + NextUp(lines, k);
    var lines' := if k.key == [] then lines else MovedUp(lines, k);
    assert Leads(parts, lines, t, keyOf);
    forall x <- lines' ensures KeyOk(parts, past', active', lines'[x], x, keyOf) {
      FinishKey(parts, past, active, lines, keyOf, t, x, past', active', lines');
    }
    hide KeyOk;
    forall u <- active' ensures Leads(parts, lines', u, keyOf) {
      FinishLeads(parts, past, active, lines, keyOf, t, u, lines');
    }
  }

  lemma FinishKey(parts: Parts, past: Pasts, active: set<Task>, lines: Lines, keyOf: KeyOf, t: Task, x: KeyId,
      past': Pasts, active': set<Task>, lines': Lines)
    requires LinesOk(parts, past, active, lines, keyOf) && t in active && Current(parts, t) && t.tp in past
    requires past' == past[t.tp := past[t.tp].(safe := past[t.tp].safe + {t.offset})]
    requires var k := IdOf(keyOf, t);
             && active' == (if k.key == [] then active - {t} else active - {t} + NextUp(lines, k))
             && lines' == (if k.key == [] then lines else MovedUp(lines, k))
    requires x in lines'
    ensures KeyOk(parts, past', active', lines'[x], x, keyOf)
  {
    var k := IdOf(keyOf, t);
    assert Leads(parts, lines, t, keyOf) && KeyOk(parts, past, active, lines[x], x, keyOf);
    if x == k && k.key != [] {
      LineMoves(lines[k], k, past[t.tp], past'[t.tp], keyOf);
    } else {
      LineSafer(lines[x], x, past[x.tp], past'[x.tp], keyOf);
    }
    hide LineOk;
    assert lines[x][0] in lines[x];
  }

  lemma FinishLeads(parts: Parts, past: Pasts, active: set<Task>, lines: Lines, keyOf: KeyOf, t: Task, u: Task,
      lines': Lines)
    requires LinesOk(parts, past, active, lines, keyOf) && t in active && Current(parts, t)
    requires var k := IdOf(keyOf, t);
             && u in (if k.key == [] then active - {t} else active - {t} + NextUp(lines, k))
             && lines' == (if k.key == [] then lines else MovedUp(lines, k))
    ensures Leads(parts, lines', u, keyOf)
  {
    var k := IdOf(keyOf, t);
    assert Leads(parts, lines, t, keyOf);
    if u in active {
      assert Leads(parts, lines, u, keyOf);
    } else {
      assert KeyOk(parts, past, active, lines[k], k, keyOf);
      assert u in lines[k];
    }
  }

  // ---- failing ----

  /** Nothing of a failed key stays: what waited behind it will be delivered again. */
  lemma FailLines(parts: Parts, past: Pasts, active: set<Task>, lines: Lines, keyOf: KeyOf, t: Task)
    requires LinesOk(parts, past, active, lines, keyOf) && t in active && Current(parts, t)
    ensures var k := IdOf(keyOf, t);
            (k.key != [] ==> k in lines) && LinesOk(parts, past, active - {t}, lines - {k}, keyOf)
  {
    hide LineOk;
    var k := IdOf(keyOf, t);
    assert Leads(parts, lines, t, keyOf);
    forall x <- lines | x != k ensures KeyOk(parts, past, active - {t}, lines[x], x, keyOf) {
      assert KeyOk(parts, past, active, lines[x], x, keyOf);
      assert lines[x][0] in lines[x];
    }
    forall u <- active - {t} ensures Leads(parts, lines - {k}, u, keyOf) {
      assert Leads(parts, lines, u, keyOf);
    }
  }

  lemma StaleLines(parts: Parts, past: Pasts, active: set<Task>, lines: Lines, keyOf: KeyOf, t: Task)
    requires LinesOk(parts, past, active, lines, keyOf) && !Current(parts, t)
    ensures LinesOk(parts, past, active - {t}, lines, keyOf)
  {
    hide LineOk;
    forall x <- lines ensures KeyOk(parts, past, active - {t}, lines[x], x, keyOf) {
      assert KeyOk(parts, past, active, lines[x], x, keyOf);
      assert lines[x][0] in lines[x];
    }
  }

  // ---- rebalancing ----

  ghost function Without<V>(m: map<KeyId, V>, gone: set<TP>): map<KeyId, V> { map k | k in m && k.tp !in gone :: m[k] }

  lemma RevokeLines(parts: Parts, past: Pasts, active: set<Task>, lines: Lines, keyOf: KeyOf, gone: set<TP>)
    requires LinesOk(parts, past, active, lines, keyOf)
    ensures LinesOk(parts - gone, past - gone, active, Without(lines, gone), keyOf)
  {
    hide LineOk;
    forall k <- Without(lines, gone) ensures KeyOk(parts - gone, past - gone, active, lines[k], k, keyOf) {
      assert KeyOk(parts, past, active, lines[k], k, keyOf);
    }
    forall t <- active ensures Leads(parts - gone, Without(lines, gone), t, keyOf) {
      assert Leads(parts, lines, t, keyOf);
    }
  }

  lemma AssignLines(parts: Parts, past: Pasts, active: set<Task>, lines: Lines, keyOf: KeyOf, tp: TP, p: Part, h: Past)
    requires LinesOk(parts, past, active, lines, keyOf) && tp !in parts && forall t <- active :: t.gen != p.gen
    ensures LinesOk(parts[tp := p], past[tp := h], active, lines, keyOf)
  {
    hide LineOk;
    forall k <- lines ensures KeyOk(parts[tp := p], past[tp := h], active, lines[k], k, keyOf) {
      assert KeyOk(parts, past, active, lines[k], k, keyOf);
    }
    forall t <- active ensures Leads(parts[tp := p], lines, t, keyOf) {
      assert Leads(parts, lines, t, keyOf);
    }
  }

  // ---- what the lines mean ----

  /** Per-key order: whatever runs now, every earlier message of its key, partition and
      assignment has been done or stored, and no other message of the key runs. */
  lemma RunsInOrder(parts: Parts, past: Pasts, active: set<Task>, lines: Lines, keyOf: KeyOf, t: Task)
    requires LinesOk(parts, past, active, lines, keyOf) && t in active && Current(parts, t) && IdOf(keyOf, t).key != []
    ensures t.tp in past && forall o: nat :: past[t.tp].first <= o < t.offset && keyOf(t.tp, o) == keyOf(t.tp, t.offset) ==> o in past[t.tp].safe
    ensures forall u <- active :: Current(parts, u) && IdOf(keyOf, u) == IdOf(keyOf, t) ==> u == t
  {
    var k := IdOf(keyOf, t);
    assert Leads(parts, lines, t, keyOf) && KeyOk(parts, past, active, lines[k], k, keyOf);
    forall o: nat | past[t.tp].first <= o < t.offset && keyOf(t.tp, o) == k.key ensures o in past[t.tp].safe {
      assert o < lines[k][0].offset;
    }
    forall u <- active | Current(parts, u) && IdOf(keyOf, u) == k ensures u == t {
      assert Leads(parts, lines, u, keyOf);
    }
  }

  // ---- keyQueues and the lines ----

  ghost function Members(q: seq<Task>): set<Task> { set t | t in q }

  lemma QueueOfKey(parts: Parts, past: Pasts, active: set<Task>, lines: Lines, queues: Queues, keyOf: KeyOf, x: KeyId,
      u: Task)
    requires LinesOk(parts, past, active, lines, keyOf) && Tails(queues, lines) && x in queues && u in queues[x]
    ensures IdOf(keyOf, u) == x && Current(parts, u)
  {
    hide LineOk;
    assert KeyOk(parts, past, active, lines[x], x, keyOf);
    assert u in lines[x];
  }

  lemma {:induction false} QueueCount(q: seq<Task>)
    requires forall i, j :: 0 <= i < j < |q| ==> q[i].offset < q[j].offset
    ensures |Members(q)| == |q|
  {
    if q != [] {
      var n := |q| - 1;
      QueueCount(q[..n]);
      assert Members(q) == Members(q[..n]) + {q[n]};
      assert q[n] !in q[..n];
    }
  }

  /** A queue's messages are all different, and in no other queue. */
  lemma QueueApart(parts: Parts, past: Pasts, active: set<Task>, lines: Lines, queues: Queues, keyOf: KeyOf, k: KeyId)
    requires LinesOk(parts, past, active, lines, keyOf) && Tails(queues, lines) && k in queues
    ensures |Members(queues[k])| == |queues[k]| && Queued(queues - {k}) == Queued(queues) - Members(queues[k])
    ensures forall i, j :: 0 <= i < j < |queues[k]| ==> queues[k][i].offset < queues[k][j].offset
  {
    var q := queues[k];
    assert KeyOk(parts, past, active, lines[k], k, keyOf);
    forall i, j | 0 <= i < j < |q| ensures q[i].offset < q[j].offset {
      assert q[i] == lines[k][i + 1] && q[j] == lines[k][j + 1];
    }
    QueueCount(q);
    hide LinesOk, KeyOk;
    forall u ensures u in Queued(queues - {k}) <==> u in Queued(queues) - Members(q) {
      if u in Queued(queues - {k}) {
        var x :| x in queues - {k} && u in (queues - {k})[x];
        QueueOfKey(parts, past, active, lines, queues, keyOf, x, u);
        if u in q {
          QueueOfKey(parts, past, active, lines, queues, keyOf, k, u);
        }
      }
      if u in Queued(queues) && u !in q {
        var x :| x in queues && u in queues[x];
        assert x in queues - {k};
      }
    }
  }

  /** keyQueues after released. */
  function NextQueues(queues: Queues, k: KeyId): Queues {
    if k !in queues || queues[k] == [] then queues - {k} else queues[k := queues[k][1..]]
  }

  lemma MoveQueues(parts: Parts, past: Pasts, active: set<Task>, lines: Lines, queues: Queues, keyOf: KeyOf, k: KeyId)
    requires LinesOk(parts, past, active, lines, keyOf) && Tails(queues, lines) && k in queues
    ensures Tails(NextQueues(queues, k), MovedUp(lines, k))
    ensures NextUp(lines, k) == (if queues[k] == [] then {} else {queues[k][0]})
    ensures NextUp(lines, k) <= Queued(queues) && Queued(NextQueues(queues, k)) == Queued(queues) - NextUp(lines, k)
  {
    hide LinesOk;
    QueueApart(parts, past, active, lines, queues, keyOf, k);
    MoveTails(queues, lines, k);
    var q := queues[k];
    var queues' := NextQueues(queues, k);
    if q != [] {
      hide Queued, Tails, Members, NextUp, MovedUp;
      assert queues' - {k} == queues - {k};
      SplitQueued(queues', k);
      SplitQueued(queues, k);
      MembersTail(q);
      LessOne(Queued(queues - {k}), Queued(queues), Members(q), q[0]);
    }
  }

  lemma LessOne(rest: set<Task>, all: set<Task>, m: set<Task>, t: Task)
    requires all == rest + m && rest == all - m && t in m
    ensures rest + (m - {t}) == all - {t} && t in all
  {
  }

  lemma MoveTails(queues: Queues, lines: Lines, k: KeyId)
    requires Tails(queues, lines) && k in queues
    ensures Tails(NextQueues(queues, k), MovedUp(lines, k))
    ensures NextUp(lines, k) == (if queues[k] == [] then {} else {queues[k][0]})
  {
    if queues[k] != [] {
      assert lines[k][1..][1..] == queues[k][1..];
    }
  }

  lemma MembersTail(q: seq<Task>)
    requires q != [] && forall i, j :: 0 <= i < j < |q| ==> q[i].offset < q[j].offset
    ensures Members(q[1..]) == Members(q) - {q[0]} && q[0] in Members(q)
  {
    forall i | 0 <= i < |q[1..]| ensures q[1..][i] != q[0] {
      assert q[0].offset < q[i + 1].offset;
    }
    assert forall u :: u in q <==> u == q[0] || u in q[1..];
  }

  lemma SplitQueued(queues: Queues, k: KeyId)
    requires k in queues
    ensures Queued(queues) == Queued(queues - {k}) + Members(queues[k])
  {
    forall u ensures u in Queued(queues) <==> u in Queued(queues - {k}) + Members(queues[k]) {
      if u in Queued(queues) {
        var x :| x in queues && u in queues[x];
        assert x == k || x in queues - {k};
      }
      if u in Queued(queues - {k}) {
        var x :| x in queues - {k} && u in (queues - {k})[x];
        assert x in queues && u in queues[x];
      }
    }
  }

  lemma RevokedQueues(queues: Queues, lines: Lines, gone: set<TP>)
    requires Tails(queues, lines)
    ensures Tails(Without(queues, gone), Without(lines, gone))
  {
  }

  // ---- sending in order ----

  /** When the oldest waiting message starts, every earlier one of its key is safe or in
      flight, and those in flight are in the key's line. */
  lemma DispatchOrder(parts: Parts, past: Pasts, pool: set<Task>, backlog: seq<Task>, active: set<Task>, lines: Lines,
      queues: Queues, keyOf: KeyOf)
    requires PartsOk(parts, past, pool, backlog) && BacklogOk(parts, backlog) && backlog != [] && Current(parts, backlog[0])
    requires LinesOk(parts, past, active, lines, keyOf) && Tails(queues, lines) && pool == active + Queued(queues)
    requires parts[backlog[0].tp].failedAt < 0 && IdOf(keyOf, backlog[0]).key != []
    ensures Preceded(LineOf(lines, IdOf(keyOf, backlog[0])), backlog[0], past[backlog[0].tp], keyOf)
  {
    var t := backlog[0];
    var k, p, h := IdOf(keyOf, t), parts[t.tp], past[t.tp];
    var line := LineOf(lines, k);
    var mine, waiting := Mine(pool, t.tp, p.gen), Waiting(backlog, t.tp);
    WaitingHead(parts, backlog, t.tp);
    assert PartOk(p, h, mine, waiting);
    forall u <- line ensures u.offset < t.offset {
      LineInPool(parts, past, pool, active, lines, queues, keyOf, k, u);
      MineIn(pool, u);
    }
    hide LinesOk;
    forall o: nat | h.first <= o < t.offset && keyOf(t.tp, o) == k.key ensures o in h.safe || exists j :: 0 <= j < |line| && line[j].offset == o {
      if o !in h.safe {
        assert o in mine;
        var u := Task(t.tp, o, p.gen);
        MineIn(pool, u);
        PoolInLine(parts, past, pool, active, lines, queues, keyOf, u);
        var j :| 0 <= j < |line| && line[j] == u;
      }
    }
  }

  lemma LineInPool(parts: Parts, past: Pasts, pool: set<Task>, active: set<Task>, lines: Lines, queues: Queues,
      keyOf: KeyOf, k: KeyId, u: Task)
    requires LinesOk(parts, past, active, lines, keyOf) && Tails(queues, lines)
             && pool == active + Queued(queues) && k in lines && u in lines[k]
    ensures u in pool && u.tp == k.tp && k.tp in parts && u.gen == parts[k.tp].gen
  {
    hide LineOk;
    assert KeyOk(parts, past, active, lines[k], k, keyOf);
    var i :| 0 <= i < |lines[k]| && lines[k][i] == u;
    if i > 0 {
      assert queues[k][i - 1] == u && u in queues[k];
      assert u in Queued(queues);
    }
  }

  lemma PoolInLine(parts: Parts, past: Pasts, pool: set<Task>, active: set<Task>, lines: Lines, queues: Queues,
      keyOf: KeyOf, u: Task)
    requires LinesOk(parts, past, active, lines, keyOf) && Tails(queues, lines) && pool == active + Queued(queues)
    requires u in pool && Current(parts, u) && IdOf(keyOf, u).key != []
    ensures u in LineOf(lines, IdOf(keyOf, u))
  {
    hide LineOk;
    if u in active {
      assert Leads(parts, lines, u, keyOf);
    } else {
      var x :| x in queues && u in queues[x];
      QueueOfKey(parts, past, active, lines, queues, keyOf, x, u);
      assert u in lines[x];
    }
  }
}
