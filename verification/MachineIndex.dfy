/** What the queue's index means (dlq/machine.go): every list it keeps holds exactly the
    records of one kind, oldest first. A kind is any property of a record, so the same
    few facts about lists serve the arrival order, the order keys, the groups and the
    parked list. */
module MachineIndex {
  import opened Records
  import opened Queues

  /** memItem: a record, its lease, and what the machine remembers about it. bodyN and
      ckptN count payload bytes that live on disk. */
  datatype Slot = Slot(it: Item, bodyN: nat, ckptN: nat, size: nat, reserved: bool, ver: nat)

  type Slots = map<Text, Slot>

  /** Records waiting on one dependency. wake is the earliest time a scan can find
      something, or ZERO_TIME when that is not known. */
  datatype Group = Group(items: seq<Text>, hint: Option<Text>, wake: Time)

  function SeqOf(m: Slots, id: Text): nat
    requires id in m
  {
    m[id].it.rec.seqNo
  }

  ghost predicate Ascending(m: Slots, l: seq<Text>) {
    (forall id <- l :: id in m) && forall i, j :: 0 <= i < j < |l| ==> SeqOf(m, l[i]) < SeqOf(m, l[j])
  }

  /** l lists exactly the records of kind p, oldest first. */
  ghost predicate Exactly(m: Slots, l: seq<Text>, p: Slot -> bool) {
    Ascending(m, l) && forall id <- m :: id in l <==> p(m[id])
  }

  ghost predicate DistinctSeqs(m: Slots) {
    forall a <- m, b <- m :: SeqOf(m, a) == SeqOf(m, b) ==> a == b
  }

  function Without(l: seq<Text>, id: Text): (r: seq<Text>)
    ensures id !in r && forall x :: x != id ==> (x in r <==> x in l)
  {
    if l == [] then [] else if l[0] == id then Without(l[1..], id) else [l[0]] + Without(l[1..], id)
  }

  /** id placed in a list, everything else as it was. */
  ghost predicate Placed(m: Slots, l: seq<Text>, id: Text, l': seq<Text>) {
    Ascending(m, l') && forall x :: x in l' <==> x in l || x == id
  }

  // ---- changing what a list is about ----

  lemma Joins(m: Slots, l: seq<Text>, p: Slot -> bool, id: Text, l': seq<Text>)
    requires id in m && Exactly(m - {id}, l, p)
    requires if p(m[id]) then Placed(m, l, id, l') else l' == l
    ensures Exactly(m, l', p)
  {
    forall x <- m ensures x in l' <==> p(m[x]) {
      if x != id {
        assert x in m - {id};
      }
    }
    assert forall x <- l :: x in m - {id};
    if l' == l {
      forall i, j | 0 <= i < j < |l| ensures SeqOf(m, l[i]) < SeqOf(m, l[j]) {
        assert SeqOf(m - {id}, l[i]) < SeqOf(m - {id}, l[j]);
      }
    }
  }

  lemma {:induction false} WithoutAscending(m: Slots, l: seq<Text>, id: Text)
    requires Ascending(m, l)
    ensures Ascending(m - {id}, Without(l, id))
  {
    if l != [] {
      var t := l[1..];
      forall i, j | 0 <= i < j < |t| ensures SeqOf(m, t[i]) < SeqOf(m, t[j]) {
        assert t[i] == l[i + 1] && t[j] == l[j + 1];
      }
      WithoutAscending(m, t, id);
      if l[0] != id {
        var r := Without(t, id);
        forall x <- r ensures SeqOf(m, l[0]) < SeqOf(m, x) {
          assert x in t;
          var i :| 0 <= i < |t| && t[i] == x;
          assert l[i + 1] == x;
        }
      }
    }
  }

  lemma Leaves(m: Slots, l: seq<Text>, p: Slot -> bool, id: Text)
    requires Exactly(m, l, p)
    ensures Exactly(m - {id}, Without(l, id), p)
  {
    WithoutAscending(m, l, id);
  }

  lemma {:induction false} WithoutAbsent(l: seq<Text>, id: Text)
    requires id !in l
    ensures Without(l, id) == l
  {
    if l != [] {
      assert l[0] in l;
      WithoutAbsent(l[1..], id);
    }
  }

  lemma Stays(m: Slots, l: seq<Text>, p: Slot -> bool, id: Text, s: Slot)
    requires Exactly(m, l, p) && id in m && p(m[id]) == p(s) && s.it.rec.seqNo == m[id].it.rec.seqNo
    ensures Exactly(m[id := s], l, p)
  {
    var m' := m[id := s];
    forall i, j | 0 <= i < j < |l| ensures SeqOf(m', l[i]) < SeqOf(m', l[j]) {
      assert SeqOf(m, l[i]) < SeqOf(m, l[j]);
    }
  }

  /** New records carry the highest number, so they go last. */
  lemma GoesLast(m: Slots, l: seq<Text>, id: Text)
    requires id in m && Ascending(m - {id}, l) && forall x <- l :: SeqOf(m - {id}, x) < SeqOf(m, id)
    ensures Placed(m, l, id, l + [id])
  {
    var l' := l + [id];
    forall i, j | 0 <= i < j < |l'| ensures l'[i] in m && l'[j] in m && SeqOf(m, l'[i]) < SeqOf(m, l'[j]) {
      assert SeqOf(m - {id}, l[i]) == SeqOf(m, l'[i]);
      if j < |l| {
        assert SeqOf(m - {id}, l[i]) < SeqOf(m - {id}, l[j]);
      }
    }
  }

  /** There is only one such list. */
  lemma {:induction false} OnlyOne(m: Slots, a: seq<Text>, b: seq<Text>)
    requires Ascending(m, a) && Ascending(m, b) && forall x :: x in a <==> x in b
    ensures a == b
    decreases |a|
  {
    assert b == [] || b[0] in a;
    if a != [] {
      assert a[0] in b && b != [] && b[0] in a;
      var i :| 0 <= i < |b| && b[i] == a[0];
      var j :| 0 <= j < |a| && a[j] == b[0];
      assert i == 0;
      TailSame(m, a, b);
      OnlyOne(m, a[1..], b[1..]);
    }
  }

  lemma TailSame(m: Slots, a: seq<Text>, b: seq<Text>)
    requires Ascending(m, a) && Ascending(m, b) && a != [] && b != [] && a[0] == b[0]
    requires forall x :: x in a <==> x in b
    ensures Ascending(m, a[1..]) && Ascending(m, b[1..]) && forall x :: x in a[1..] <==> x in b[1..]
  {
    TailAscending(m, a);
    TailAscending(m, b);
    forall x ensures x in a[1..] <==> x in b[1..] {
      assert x in a[1..] <==> x in a && x != a[0];
      assert x in b[1..] <==> x in b && x != b[0];
    }
  }

  lemma TailAscending(m: Slots, l: seq<Text>)
    requires Ascending(m, l) && l != []
    ensures Ascending(m, l[1..]) && l[0] !in l[1..] && forall x :: x in l <==> x == l[0] || x in l[1..]
  {
    var t := l[1..];
    forall i, j | 0 <= i < j < |t| ensures SeqOf(m, t[i]) < SeqOf(m, t[j]) {
      assert t[i] == l[i + 1] && t[j] == l[j + 1];
    }
    forall i | 0 <= i < |t| ensures t[i] != l[0] {
      assert SeqOf(m, l[0]) < SeqOf(m, l[i + 1]);
    }
  }

  // ---- the kinds ----

  predicate Waits(s: Slot, dep: Text) { s.it.rec.state != Parked && s.it.rec.blockedOn == dep }

  function WaitsOn(dep: Text): (p: Slot -> bool)
    ensures forall s :: p(s) <==> Waits(s, dep)
  {
    s => Waits(s, dep)
  }

  function WithKey(k: Text): (p: Slot -> bool)
    ensures forall s :: p(s) <==> s.it.rec.orderKey == k
  {
    (s: Slot) => s.it.rec.orderKey == k
  }

  function InState(st: State): (p: Slot -> bool)
    ensures forall s :: p(s) <==> s.it.rec.state == st
  {
    (s: Slot) => s.it.rec.state == st
  }

  function Any(): (p: Slot -> bool)
    ensures forall s :: p(s)
  {
    s => true
  }

  // ---- what the index keeps ----

  /** Arrival order. */
  ghost predicate OrderOk(m: Slots, order: seq<Text>, seqNo: nat) {
    Exactly(m, order, Any()) && forall id <- m :: m[id].it.rec.id == id && SeqOf(m, id) <= seqNo
  }

  /** Records by order key, oldest first; no list is empty. */
  ghost predicate KeysOk(m: Slots, byKey: map<Text, seq<Text>>) {
    && (forall k <- byKey :: k != [] && byKey[k] != [] && Exactly(m, byKey[k], WithKey(k)))
    && (forall id <- m :: m[id].it.rec.orderKey != [] ==> m[id].it.rec.orderKey in byKey)
  }

  predicate HintOk(l: seq<Text>, hint: Option<Text>) { hint.Some? ==> hint.value in l }

  ghost predicate GroupOk(m: Slots, dep: Text, g: Group) {
    g.items != [] && Exactly(m, g.items, WaitsOn(dep)) && HintOk(g.items, g.hint)
  }

  /** Pending and leased records by what they wait on. */
  ghost predicate GroupsOk(m: Slots, groups: map<Text, Group>) {
    && (forall d <- groups :: GroupOk(m, d, groups[d]))
    && (forall id <- m :: m[id].it.rec.state != Parked ==> m[id].it.rec.blockedOn in groups)
  }

  ghost predicate ParkedOk(m: Slots, parked: seq<Text>, hint: Option<Text>) {
    Exactly(m, parked, InState(Parked)) && HintOk(parked, hint)
  }

  ghost function Of(m: Slots, st: State): set<Text> { set id | id in m && m[id].it.rec.state == st }

  ghost predicate CountsOk(m: Slots, counts: map<State, int>) {
    forall st: State :: st in counts && counts[st] == |Of(m, st)|
  }

  /** The oldest stored record of its key, or a record without one. */
  predicate Heads(s: Slot, id: Text, byKey: map<Text, seq<Text>>) {
    var k := s.it.rec.orderKey;
    k == [] || (k in byKey && byKey[k] != [] && byKey[k][0] == id)
  }

  /** When a record that is not parked may next be leased. */
  function Due(s: Slot): Time {
    if s.it.rec.state == Pending then s.it.rec.nextAttempt else s.it.until
  }

  predicate Eligible(s: Slot, id: Text, byKey: map<Text, seq<Text>>, now: Time) {
    !s.reserved && s.it.rec.state != Parked && Due(s) <= now && Heads(s, id, byKey)
  }

  /** Not to be had before wake. */
  predicate Asleep(s: Slot, id: Text, byKey: map<Text, seq<Text>>, wake: Time) {
    s.reserved || !Heads(s, id, byKey) || wake <= Due(s)
  }

  /** A group's cached wake time is never too late. */
  ghost predicate WakesOk(m: Slots, byKey: map<Text, seq<Text>>, groups: map<Text, Group>) {
    forall id <- m ::
      var d := m[id].it.rec.blockedOn;
      m[id].it.rec.state != Parked && d in groups && groups[d].wake != ZERO_TIME ==> Asleep(m[id], id, byKey, groups[d].wake)
  }

  // ---- bytes ----

  function Weight(s: Slot): nat { Size(s.it.rec) + s.bodyN + s.ckptN }

  /** Every record is charged for what it holds; only an offloading store has some on disk. */
  ghost predicate SizesOk(m: Slots, offload: bool) {
    forall id <- m :: m[id].size == Weight(m[id]) && (!offload ==> m[id].bodyN == 0 && m[id].ckptN == 0)
  }

  function Total(m: Slots, l: seq<Text>): nat {
    if l == [] then 0 else (if l[0] in m then m[l[0]].size else 0) + Total(m, l[1..])
  }

  lemma {:induction false} TotalAppend(m: Slots, l: seq<Text>, id: Text)
    ensures Total(m, l + [id]) == Total(m, l) + if id in m then m[id].size else 0
  {
    if l == [] {
      var one := [id];
      assert l + [id] == one && one[1..] == [];
    } else {
      assert (l + [id])[1..] == l[1..] + [id];
      TotalAppend(m, l[1..], id);
    }
  }

  lemma {:induction false} TotalElsewhere(m: Slots, m': Slots, l: seq<Text>)
    requires forall x <- l :: x in m && x in m' && m[x].size == m'[x].size
    ensures Total(m', l) == Total(m, l)
  {
    if l != [] {
      assert l[0] in l;
      TotalElsewhere(m, m', l[1..]);
    }
  }

  lemma {:induction false} TotalSet(m: Slots, l: seq<Text>, id: Text, s: Slot)
    requires Ascending(m, l) && id in l
    ensures Total(m[id := s], l) == Total(m, l) - m[id].size + s.size
  {
    TailAscending(m, l);
    if l[0] == id {
      TotalElsewhere(m, m[id := s], l[1..]);
    } else {
      TotalSet(m, l[1..], id, s);
    }
  }

  lemma {:induction false} TotalWithout(m: Slots, l: seq<Text>, id: Text)
    requires Ascending(m, l) && id in l
    ensures Total(m - {id}, Without(l, id)) == Total(m, l) - m[id].size
  {
    TailAscending(m, l);
    var t := l[1..];
    if l[0] == id {
      WithoutAbsent(t, id);
      TotalElsewhere(m, m - {id}, t);
    } else {
      var r := [l[0]] + Without(t, id);
      assert r[1..] == Without(t, id);
      TotalWithout(m, t, id);
    }
  }

  // ---- numbers ----

  lemma AscendingDistinct(m: Slots, order: seq<Text>, seqNo: nat)
    requires OrderOk(m, order, seqNo)
    ensures DistinctSeqs(m)
  {
    forall a <- m, b <- m | a != b ensures SeqOf(m, a) != SeqOf(m, b) {
      var i :| 0 <= i < |order| && order[i] == a;
      var j :| 0 <= j < |order| && order[j] == b;
      if i < j {
        assert SeqOf(m, order[i]) < SeqOf(m, order[j]);
      } else {
        assert SeqOf(m, order[j]) < SeqOf(m, order[i]);
      }
    }
  }

  lemma CountOne(m: Slots, id: Text, st: State)
    requires id in m
    ensures |Of(m, st)| == |Of(m - {id}, st)| + if m[id].it.rec.state == st then 1 else 0
  {
    if m[id].it.rec.state == st {
      assert Of(m, st) == Of(m - {id}, st) + {id};
    } else {
      assert Of(m, st) == Of(m - {id}, st);
    }
  }

  lemma NoneCounted()
    ensures CountsOk(map[], map[Pending := 0, Leased := 0, Parked := 0])
  {
    var counts: map<State, int> := map[Pending := 0, Leased := 0, Parked := 0];
    forall st: State ensures st in counts && counts[st] == |Of(map[], st)| {
      assert Of(map[], st) == {};
      match st
      case Pending =>
      case Leased =>
      case Parked =>
    }
  }

  // ---- the queue behind it ----

  function ItemsOf(m: Slots): map<Text, Item> { map id | id in m :: m[id].it }

  lemma ItemsSet(m: Slots, id: Text, s: Slot)
    ensures ItemsOf(m[id := s]) == ItemsOf(m)[id := s.it]
  {
  }

  lemma ItemsRemove(m: Slots, id: Text)
    ensures ItemsOf(m - {id}) == ItemsOf(m) - {id}
  {
  }

  // ---- joining and leaving the index ----

  lemma Known(m: Slots, l: seq<Text>, id: Text)
    requires id in m && Ascending(m - {id}, l) && DistinctSeqs(m)
    ensures Ascending(m, l) && forall x <- l :: SeqOf(m, x) != SeqOf(m, id)
  {
    forall x <- l ensures x in m && SeqOf(m, x) != SeqOf(m, id) {
      assert x in m - {id};
    }
    forall i, j | 0 <= i < j < |l| ensures l[i] in m && l[j] in m && SeqOf(m, l[i]) < SeqOf(m, l[j]) {
      assert SeqOf(m - {id}, l[i]) < SeqOf(m - {id}, l[j]);
    }
  }

  function GroupItems(groups: map<Text, Group>, d: Text): seq<Text> {
    if d in groups then groups[d].items else []
  }

  lemma GroupList(m: Slots, groups: map<Text, Group>, d: Text)
    requires GroupsOk(m, groups)
    ensures Exactly(m, GroupItems(groups, d), WaitsOn(d))
  {
    assert d in groups ==> GroupOk(m, d, groups[d]);
  }

  lemma LinkGroups(m: Slots, id: Text, groups: map<Text, Group>, g: Group)
    requires id in m && m[id].it.rec.state != Parked && GroupsOk(m - {id}, groups)
    requires var d := m[id].it.rec.blockedOn;
             Placed(m, GroupItems(groups, d), id, g.items) && HintOk(g.items, g.hint)
    ensures GroupsOk(m, groups[m[id].it.rec.blockedOn := g])
  {
    var d, m0 := m[id].it.rec.blockedOn, m - {id};
    var groups' := groups[d := g];
    assert id in g.items;
    forall e <- groups' ensures GroupOk(m, e, groups'[e]) {
      GroupList(m0, groups, e);
      Joins(m, GroupItems(groups, e), WaitsOn(e), id, groups'[e].items);
      if e != d {
        assert GroupOk(m0, e, groups[e]);
      }
    }
    forall x <- m | m[x].it.rec.state != Parked ensures m[x].it.rec.blockedOn in groups' {
      if x != id {
        assert x in m0;
      }
    }
  }

  lemma LinkParkedGroups(m: Slots, id: Text, groups: map<Text, Group>)
    requires id in m && m[id].it.rec.state == Parked && GroupsOk(m - {id}, groups)
    ensures GroupsOk(m, groups)
  {
    var m0 := m - {id};
    forall e <- groups ensures GroupOk(m, e, groups[e]) {
      assert GroupOk(m0, e, groups[e]);
      Joins(m, groups[e].items, WaitsOn(e), id, groups[e].items);
    }
    forall x <- m | m[x].it.rec.state != Parked ensures m[x].it.rec.blockedOn in groups {
      assert x in m0;
    }
  }

  lemma LinkCounts(m: Slots, id: Text, counts: map<State, int>)
    requires id in m && CountsOk(m - {id}, counts)
    ensures var st := m[id].it.rec.state;
            CountsOk(m, counts[st := counts[st] + 1])
  {
    forall st: State {
      CountOne(m, id, st);
    }
  }

  lemma LinkWakes(m: Slots, id: Text, byKey: map<Text, seq<Text>>, groups: map<Text, Group>, g: Group)
    requires id in m && WakesOk(m - {id}, byKey, groups) && g.wake == ZERO_TIME
    ensures m[id].it.rec.state == Parked ==> WakesOk(m, byKey, groups)
    ensures WakesOk(m, byKey, groups[m[id].it.rec.blockedOn := g])
  {
    forall x <- m | x != id ensures x in m - {id} {
    }
  }

  /** The groups after a record left one of them; an empty group goes. */
  function UnlinkGroup(groups: map<Text, Group>, d: Text, id: Text): map<Text, Group> {
    if d !in groups then groups
    else
      var l := Without(groups[d].items, id);
      if l == [] then groups - {d}
      else groups[d := Group(l, if groups[d].hint == Some(id) then None else groups[d].hint, ZERO_TIME)]
  }

  lemma OthersStay(m: Slots, id: Text, groups: map<Text, Group>, e: Text)
    requires id in m && GroupsOk(m, groups) && e in groups && !Waits(m[id], e)
    ensures GroupOk(m - {id}, e, groups[e])
  {
    assert GroupOk(m, e, groups[e]);
    Leaves(m, groups[e].items, WaitsOn(e), id);
    WithoutAbsent(groups[e].items, id);
  }

  lemma UnlinkGroups(m: Slots, id: Text, groups: map<Text, Group>)
    requires id in m && GroupsOk(m, groups)
    ensures GroupsOk(m - {id}, if m[id].it.rec.state == Parked then groups else UnlinkGroup(groups, m[id].it.rec.blockedOn, id))
  {
    var d, m0 := m[id].it.rec.blockedOn, m - {id};
    var groups' := if m[id].it.rec.state == Parked then groups else UnlinkGroup(groups, d, id);
    forall e <- groups' ensures GroupOk(m0, e, groups'[e]) {
      if e != d || m[id].it.rec.state == Parked {
        OthersStay(m, id, groups, e);
      } else {
        assert GroupOk(m, e, groups[e]);
        Leaves(m, groups[e].items, WaitsOn(e), id);
      }
    }
    forall x <- m0 | m0[x].it.rec.state != Parked ensures m0[x].it.rec.blockedOn in groups' {
      if m0[x].it.rec.blockedOn == d {
        assert GroupOk(m, d, groups[d]);
        assert x in Without(groups[d].items, id);
      }
    }
  }

  lemma UnlinkCounts(m: Slots, id: Text, counts: map<State, int>)
    requires id in m && CountsOk(m, counts)
    ensures var st := m[id].it.rec.state;
            CountsOk(m - {id}, counts[st := counts[st] - 1])
  {
    forall st: State {
      CountOne(m, id, st);
    }
  }

  lemma UnlinkWakes(m: Slots, id: Text, byKey: map<Text, seq<Text>>, groups: map<Text, Group>)
    requires id in m && WakesOk(m, byKey, groups)
    ensures WakesOk(m - {id}, byKey, groups)
    ensures WakesOk(m - {id}, byKey, UnlinkGroup(groups, m[id].it.rec.blockedOn, id))
  {
  }

  lemma ParkedList(m: Slots, parked: seq<Text>, hint: Option<Text>)
    requires ParkedOk(m, parked, hint)
    ensures Ascending(m, parked) && HintOk(parked, hint)
  {
  }

  lemma GroupHint(m: Slots, groups: map<Text, Group>, d: Text)
    requires GroupsOk(m, groups)
    ensures Ascending(m, GroupItems(groups, d)) && (d in groups ==> HintOk(groups[d].items, groups[d].hint))
  {
    assert d in groups ==> GroupOk(m, d, groups[d]);
  }

  lemma CountsCover(m: Slots, counts: map<State, int>, st: State)
    requires CountsOk(m, counts)
    ensures st in counts
  {
  }

  lemma LinkParked(m: Slots, id: Text, parked: seq<Text>, hint: Option<Text>, l: seq<Text>)
    requires id in m && ParkedOk(m - {id}, parked, hint)
    requires if m[id].it.rec.state == Parked then Placed(m, parked, id, l) else l == parked
    ensures ParkedOk(m, l, if m[id].it.rec.state == Parked then Some(id) else hint)
  {
    Joins(m, parked, InState(Parked), id, l);
  }

  lemma UnlinkParked(m: Slots, id: Text, parked: seq<Text>, hint: Option<Text>)
    requires id in m && ParkedOk(m, parked, hint)
    ensures m[id].it.rec.state == Parked ==>
              ParkedOk(m - {id}, Without(parked, id), if hint == Some(id) then None else hint)
    ensures m[id].it.rec.state != Parked ==> ParkedOk(m - {id}, parked, hint)
  {
    Leaves(m, parked, InState(Parked), id);
    if m[id].it.rec.state != Parked {
      WithoutAbsent(parked, id);
    }
  }

  // ---- changing a record in place ----

  /** What never changes about a stored record. */
  predicate SameShape(x: Item, y: Item) {
    x.rec.id == y.rec.id && x.rec.seqNo == y.rec.seqNo && x.rec.orderKey == y.rec.orderKey
  }

  lemma ReshapedLists(m: Slots, id: Text, s: Slot, order: seq<Text>, byKey: map<Text, seq<Text>>, seqNo: nat)
    requires id in m && SameShape(m[id].it, s.it) && OrderOk(m, order, seqNo) && KeysOk(m, byKey)
    ensures OrderOk(m[id := s], order, seqNo) && KeysOk(m[id := s], byKey)
  {
    Stays(m, order, Any(), id, s);
    forall k <- byKey ensures Exactly(m[id := s], byKey[k], WithKey(k)) {
      Stays(m, byKey[k], WithKey(k), id, s);
    }
  }

  /** Staying in the same group, or staying parked, keeps every list. */
  lemma RestatedGroups(m: Slots, id: Text, s: Slot, groups: map<Text, Group>)
    requires id in m && SameShape(m[id].it, s.it) && GroupsOk(m, groups)
    requires s.it.rec.blockedOn == m[id].it.rec.blockedOn && (s.it.rec.state == Parked <==> m[id].it.rec.state == Parked)
    ensures GroupsOk(m[id := s], groups)
  {
    forall e <- groups ensures GroupOk(m[id := s], e, groups[e]) {
      assert GroupOk(m, e, groups[e]);
      Stays(m, groups[e].items, WaitsOn(e), id, s);
    }
  }

  lemma RestatedParked(m: Slots, id: Text, s: Slot, parked: seq<Text>, hint: Option<Text>)
    requires id in m && SameShape(m[id].it, s.it) && ParkedOk(m, parked, hint)
    requires s.it.rec.state == Parked <==> m[id].it.rec.state == Parked
    ensures ParkedOk(m[id := s], parked, hint)
  {
    Stays(m, parked, InState(Parked), id, s);
  }

  lemma RestatedCounts(m: Slots, id: Text, s: Slot, counts: map<State, int>)
    requires id in m && CountsOk(m, counts)
    ensures m[id].it.rec.state in counts && s.it.rec.state in counts
    ensures var c := counts[m[id].it.rec.state := counts[m[id].it.rec.state] - 1];
            CountsOk(m[id := s], c[s.it.rec.state := c[s.it.rec.state] + 1])
  {
    UnlinkCounts(m, id, counts);
    var c := counts[m[id].it.rec.state := counts[m[id].it.rec.state] - 1];
    assert m[id := s] - {id} == m - {id};
    LinkCounts(m[id := s], id, c);
  }

  /** The record's group will be scanned, so nothing about it is cached. */
  predicate Awake(s: Slot, groups: map<Text, Group>) {
    s.it.rec.state != Parked && s.it.rec.blockedOn in groups ==> groups[s.it.rec.blockedOn].wake == ZERO_TIME
  }

  lemma RestatedWakes(m: Slots, id: Text, s: Slot, byKey: map<Text, seq<Text>>, groups: map<Text, Group>)
    requires id in m && WakesOk(m, byKey, groups) && Awake(s, groups)
    ensures WakesOk(m[id := s], byKey, groups)
  {
  }

  function Woken(groups: map<Text, Group>, d: Text): map<Text, Group> {
    if d in groups then groups[d := groups[d].(wake := ZERO_TIME)] else groups
  }

  lemma WokenOk(m: Slots, byKey: map<Text, seq<Text>>, groups: map<Text, Group>, d: Text)
    requires GroupsOk(m, groups) && WakesOk(m, byKey, groups)
    ensures GroupsOk(m, Woken(groups, d)) && WakesOk(m, byKey, Woken(groups, d))
  {
    var groups' := Woken(groups, d);
    forall e <- groups' ensures GroupOk(m, e, groups'[e]) {
      assert GroupOk(m, e, groups[e]);
    }
  }

  // ---- records coming and going ----

  function AddKey(byKey: map<Text, seq<Text>>, k: Text, id: Text): map<Text, seq<Text>> {
    if k == [] then byKey else if k in byKey then byKey[k := byKey[k] + [id]] else byKey[k := [id]]
  }

  lemma AddedKeys(m: Slots, id: Text, byKey: map<Text, seq<Text>>, seqNo: nat)
    requires id in m && KeysOk(m - {id}, byKey) && seqNo < SeqOf(m, id)
    requires forall x <- m - {id} :: SeqOf(m, x) <= seqNo
    ensures KeysOk(m, AddKey(byKey, m[id].it.rec.orderKey, id))
  {
    var k, m0 := m[id].it.rec.orderKey, m - {id};
    var byKey' := AddKey(byKey, k, id);
    forall e <- byKey' ensures e != [] && byKey'[e] != [] && Exactly(m, byKey'[e], WithKey(e)) {
      var l := if e in byKey then byKey[e] else [];
      if e !in byKey {
        assert Exactly(m0, l, WithKey(e));
      }
      if e == k {
        GoesLast(m, l, id);
        assert l + [id] == byKey'[e];
      }
      Joins(m, l, WithKey(e), id, byKey'[e]);
    }
    forall x <- m | m[x].it.rec.orderKey != [] ensures m[x].it.rec.orderKey in byKey' {
      if x != id {
        assert x in m0;
      }
    }
  }

  lemma AddedWakes(m: Slots, id: Text, byKey: map<Text, seq<Text>>, groups: map<Text, Group>)
    requires id in m && KeysOk(m - {id}, byKey) && WakesOk(m, byKey, groups) && Awake(m[id], groups)
    ensures WakesOk(m, AddKey(byKey, m[id].it.rec.orderKey, id), groups)
  {
    var byKey' := AddKey(byKey, m[id].it.rec.orderKey, id);
    forall x <- m | x != id ensures Heads(m[x], x, byKey') ==> Heads(m[x], x, byKey) {
      assert x in m - {id};
    }
  }

  lemma AddedOrder(m: Slots, id: Text, order: seq<Text>, seqNo: nat)
    requires id in m && OrderOk(m - {id}, order, seqNo) && seqNo < SeqOf(m, id) && m[id].it.rec.id == id
    ensures OrderOk(m, order + [id], SeqOf(m, id)) && DistinctSeqs(m)
  {
    forall x <- m | x != id ensures m[x].it.rec.id == x && SeqOf(m, x) <= seqNo {
      assert x in m - {id};
    }
    GoesLast(m, order, id);
    Joins(m, order, Any(), id, order + [id]);
    AscendingDistinct(m, order + [id], SeqOf(m, id));
  }

  function DropKey(byKey: map<Text, seq<Text>>, k: Text, id: Text): map<Text, seq<Text>> {
    if k !in byKey then byKey
    else if Without(byKey[k], id) == [] then byKey - {k} else byKey[k := Without(byKey[k], id)]
  }

  lemma DroppedKeys(m: Slots, id: Text, byKey: map<Text, seq<Text>>)
    requires id in m && KeysOk(m, byKey)
    ensures KeysOk(m - {id}, DropKey(byKey, m[id].it.rec.orderKey, id))
  {
    var k, m0 := m[id].it.rec.orderKey, m - {id};
    var byKey' := DropKey(byKey, k, id);
    forall e <- byKey' ensures e != [] && byKey'[e] != [] && Exactly(m0, byKey'[e], WithKey(e)) {
      Leaves(m, byKey[e], WithKey(e), id);
      if e != k {
        WithoutAbsent(byKey[e], id);
      }
    }
    forall x <- m0 | m0[x].it.rec.orderKey != [] ensures m0[x].it.rec.orderKey in byKey' {
      if m0[x].it.rec.orderKey == k {
        assert x in byKey[k] && x in Without(byKey[k], id);
      }
    }
  }

  /** The record that becomes the head of the key, if the head leaves. */
  function NextHead(byKey: map<Text, seq<Text>>, k: Text, id: Text): Option<Text> {
    if k in byKey && |byKey[k]| > 1 && byKey[k][0] == id then Some(byKey[k][1]) else None
  }

  lemma DroppedHeads(m: Slots, id: Text, byKey: map<Text, seq<Text>>, x: Text)
    requires id in m && KeysOk(m, byKey) && x in m && x != id
    requires NextHead(byKey, m[id].it.rec.orderKey, id) != Some(x)
    ensures Heads(m[x], x, DropKey(byKey, m[id].it.rec.orderKey, id)) ==> Heads(m[x], x, byKey)
  {
    var k := m[id].it.rec.orderKey;
    if k in byKey && m[x].it.rec.orderKey == k {
      var l := byKey[k];
      TailAscending(m, l);
      if l[0] == id {
        WithoutAbsent(l[1..], id);
      } else {
        assert Without(l, id)[0] == l[0];
      }
    }
  }

  lemma DroppedWakes(m: Slots, id: Text, byKey: map<Text, seq<Text>>, groups: map<Text, Group>)
    requires id in m && KeysOk(m, byKey) && WakesOk(m - {id}, byKey, groups)
    requires var n := NextHead(byKey, m[id].it.rec.orderKey, id);
             n.Some? && n.value in m ==> Awake(m[n.value], groups)
    ensures WakesOk(m - {id}, DropKey(byKey, m[id].it.rec.orderKey, id), groups)
  {
    var m0, byKey' := m - {id}, DropKey(byKey, m[id].it.rec.orderKey, id);
    forall x <- m0 ensures Some(x) == NextHead(byKey, m[id].it.rec.orderKey, id) || (Heads(m[x], x, byKey') ==> Heads(m[x], x, byKey)) {
      if Some(x) != NextHead(byKey, m[id].it.rec.orderKey, id) {
        DroppedHeads(m, id, byKey, x);
      }
    }
  }

  lemma DroppedOrder(m: Slots, id: Text, order: seq<Text>, seqNo: nat)
    requires id in m && OrderOk(m, order, seqNo)
    ensures OrderOk(m - {id}, Without(order, id), seqNo)
    ensures Total(m - {id}, Without(order, id)) == Total(m, order) - m[id].size
  {
    Leaves(m, order, Any(), id);
    TotalWithout(m, order, id);
  }
}
