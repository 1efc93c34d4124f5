/** Choosing what to lease: the oldest few of a set of records. A plain scan in arrival
    order finds them, merging the groups' own oldest finds the same ones, and there is
    only one right answer. */
module Selection {
  import opened Records
  import opened MachineIndex

  /** The specification: walk a list in order and keep the first max that fit. */
  function FirstFit(l: seq<Text>, ok: Text -> bool, max: nat): seq<Text> {
    if l == [] || max == 0 then []
    else if ok(l[0]) then [l[0]] + FirstFit(l[1..], ok, max - 1)
    else FirstFit(l[1..], ok, max)
  }

  /** out is the max oldest of s, oldest first, or all of s if there are fewer. */
  ghost predicate Oldest(m: Slots, out: seq<Text>, s: set<Text>, max: nat) {
    && Ascending(m, out) && |out| <= max && (forall x <- out :: x in s)
    && (forall x <- s :: x in m && (x in out || (|out| == max && forall y <- out :: SeqOf(m, y) < SeqOf(m, x))))
  }

  ghost function Fitting(l: seq<Text>, ok: Text -> bool): set<Text> { set x | x in l && ok(x) }

  lemma HeadFirst(m: Slots, l: seq<Text>)
    requires Ascending(m, l) && l != []
    ensures l[0] in m && Ascending(m, l[1..]) && forall x <- l[1..] :: x in m && SeqOf(m, l[0]) < SeqOf(m, x)
  {
    TailAscending(m, l);
    var t := l[1..];
    forall i | 0 <= i < |t| ensures t[i] in m && SeqOf(m, l[0]) < SeqOf(m, t[i]) {
      assert t[i] == l[i + 1];
    }
  }

  lemma FittingTail(l: seq<Text>, ok: Text -> bool)
    requires l != []
    ensures Fitting(l, ok) == Fitting(l[1..], ok) + if ok(l[0]) then {l[0]} else {}
  {
    assert forall x :: x in l <==> x == l[0] || x in l[1..];
  }

  lemma {:induction false} FirstFitOldest(m: Slots, l: seq<Text>, ok: Text -> bool, max: nat)
    requires Ascending(m, l)
    ensures Oldest(m, FirstFit(l, ok, max), Fitting(l, ok), max)
    decreases |l|
  {
    if l == [] || max == 0 {
      assert Oldest(m, [], Fitting(l, ok), max);
    } else {
      hide Oldest;
      HeadFirst(m, l);
      FittingTail(l, ok);
      if ok(l[0]) {
        FirstFitOldest(m, l[1..], ok, max - 1);
        ConsOldest(m, l[0], FirstFit(l[1..], ok, max - 1), Fitting(l[1..], ok), max - 1);
      } else {
        FirstFitOldest(m, l[1..], ok, max);
      }
    }
  }

  lemma ConsOldest(m: Slots, x: Text, out: seq<Text>, s: set<Text>, max: nat)
    requires Oldest(m, out, s, max) && x in m && forall y <- s :: SeqOf(m, x) < SeqOf(m, y)
    ensures Oldest(m, [x] + out, s + {x}, max + 1)
  {
    var l := [x] + out;
    forall i, j | 0 <= i < j < |l| ensures SeqOf(m, l[i]) < SeqOf(m, l[j]) {
      assert l[j] == out[j - 1];
      if i > 0 {
        assert l[i] == out[i - 1];
      }
    }
  }

  // ---- only one answer ----

  ghost function Members(l: seq<Text>): set<Text> { set x | x in l }

  lemma {:induction false} Distinct(m: Slots, l: seq<Text>)
    requires Ascending(m, l)
    ensures |Members(l)| == |l|
  {
    if l != [] {
      TailAscending(m, l);
      Distinct(m, l[1..]);
      assert Members(l) == Members(l[1..]) + {l[0]};
    }
  }

  lemma SubsetSmaller(a: set<Text>, b: set<Text>)
    requires a <= b
    ensures |a| <= |b| && (|a| == |b| ==> a == b)
  {
    assert b == a + (b - a);
    assert |b| == |a| + |b - a|;
  }

  lemma OldestIncludes(m: Slots, a: seq<Text>, b: seq<Text>, s: set<Text>, max: nat)
    requires Oldest(m, a, s, max) && Oldest(m, b, s, max)
    ensures Members(a) <= Members(b)
  {
    forall x <- a ensures x in b {
      if x !in b {
        assert x in s;
        Distinct(m, a);
        Distinct(m, b);
        assert x in Members(a) && x !in Members(b);
        if Members(b) <= Members(a) {
          SubsetSmaller(Members(b), Members(a));
          assert false;
        } else {
          assert false;
        }
      }
    }
  }

  lemma OldestUnique(m: Slots, a: seq<Text>, b: seq<Text>, s: set<Text>, max: nat)
    requires Oldest(m, a, s, max) && Oldest(m, b, s, max)
    ensures a == b
  {
    OldestIncludes(m, a, b, s, max);
    OldestIncludes(m, b, a, s, max);
    forall x ensures x in a <==> x in b {
      assert x in Members(a) <==> x in Members(b);
    }
    OnlyOne(m, a, b);
  }

  // ---- merging ----

  ghost function Union(ls: seq<seq<Text>>): set<Text> { set l, x | l in ls && x in l :: x }

  ghost function UnionSets(ss: seq<set<Text>>): set<Text> { set s, x | s in ss && x in s :: x }

  /** The oldest of the groups' oldest are the oldest of all. */
  lemma OldestOfOldest(m: Slots, ls: seq<seq<Text>>, ss: seq<set<Text>>, out: seq<Text>, max: nat)
    requires |ls| == |ss| && forall i :: 0 <= i < |ls| ==> Oldest(m, ls[i], ss[i], max)
    requires Oldest(m, out, Union(ls), max)
    ensures Oldest(m, out, UnionSets(ss), max)
  {
    forall x <- out ensures x in UnionSets(ss) {
      var l :| l in ls && x in l;
      var i :| 0 <= i < |ls| && ls[i] == l;
      assert x in ss[i];
    }
    forall x <- UnionSets(ss) ensures x in m && (x in out || (|out| == max && forall y <- out :: SeqOf(m, y) < SeqOf(m, x))) {
      var s :| s in ss && x in s;
      var i :| 0 <= i < |ss| && ss[i] == s;
      CandidateCovered(m, ls, i, s, out, max, x);
    }
  }

  lemma CandidateCovered(m: Slots, ls: seq<seq<Text>>, i: nat, s: set<Text>, out: seq<Text>, max: nat, x: Text)
    requires i < |ls| && Oldest(m, ls[i], s, max) && Oldest(m, out, Union(ls), max) && x in s
    ensures x in m && (x in out || (|out| == max && forall y <- out :: SeqOf(m, y) < SeqOf(m, x)))
  {
    var l := ls[i];
    if x in l {
      assert x in Union(ls);
    } else if forall z <- l :: z in out {
      Distinct(m, l);
      Distinct(m, out);
      SubsetSmaller(Members(l), Members(out));
      forall y <- out ensures SeqOf(m, y) < SeqOf(m, x) {
        assert y in Members(l);
      }
    } else {
      var z :| z in l && z !in out;
      assert z in Union(ls) && SeqOf(m, z) < SeqOf(m, x);
    }
  }

  /** Lists in order that share nothing. */
  ghost predicate Mergeable(m: Slots, ls: seq<seq<Text>>) {
    && (forall l <- ls :: Ascending(m, l))
    && (forall i, j, x :: 0 <= i < j < |ls| && x in ls[i] ==> x !in ls[j])
  }

  /** ls[best] starts with the oldest of all. */
  ghost predicate Best(m: Slots, ls: seq<seq<Text>>, best: nat) {
    && best < |ls| && ls[best] != [] && ls[best][0] in m && (forall l <- ls :: Ascending(m, l))
    && (forall l <- ls :: l != [] ==> SeqOf(m, ls[best][0]) <= SeqOf(m, l[0]))
  }

  lemma TakeUnion(m: Slots, ls: seq<seq<Text>>, best: nat)
    requires Mergeable(m, ls) && Best(m, ls, best)
    ensures var ls' := ls[best := ls[best][1..]];
            Mergeable(m, ls') && Union(ls) == Union(ls') + {ls[best][0]} && ls[best][0] !in Union(ls')
  {
    var h, t := ls[best][0], ls[best][1..];
    var ls' := ls[best := t];
    TailAscending(m, ls[best]);
    forall l <- ls' ensures Ascending(m, l) && h !in l {
      var i :| 0 <= i < |ls'| && ls'[i] == l;
      assert i != best ==> l == ls[i] && l in ls;
    }
    forall x ensures x in Union(ls) <==> x in Union(ls') + {h} {
      if x in Union(ls) {
        var l :| l in ls && x in l;
        var i :| 0 <= i < |ls| && ls[i] == l;
        assert ls'[i] in ls';
      }
      if x in Union(ls') {
        var l :| l in ls' && x in l;
        var i :| 0 <= i < |ls'| && ls'[i] == l;
        assert ls[i] in ls && x in ls[i];
      }
      assert ls[best] in ls;
    }
  }

  lemma TakeLeast(m: Slots, ls: seq<seq<Text>>, best: nat, x: Text)
    requires DistinctSeqs(m) && Best(m, ls, best) && x in Union(ls) && x != ls[best][0]
    ensures x in m && ls[best][0] in m && SeqOf(m, ls[best][0]) < SeqOf(m, x)
  {
    assert ls[best] in ls;
    HeadFirst(m, ls[best]);
    var l :| l in ls && x in l;
    HeadFirst(m, l);
    assert x == l[0] || x in l[1..];
  }

  /** The merge loop of selectLease: the least of the heads, again and again. */
  method Merge(m: Slots, lists: seq<seq<Text>>, max: nat) returns (out: seq<Text>)
    requires DistinctSeqs(m) && Mergeable(m, lists)
    ensures Oldest(m, out, Union(lists), max)
  {
    out := [];
    var ls := lists;
    while |out| < max
      invariant |out| <= max && Mergeable(m, ls) && Ascending(m, out)
      invariant Union(lists) == Members(out) + Union(ls)
      invariant forall y <- out, x <- Union(ls) :: x in m && SeqOf(m, y) < SeqOf(m, x)
    {
      var best := FindBest(m, ls);
      if best < 0 {
        assert Union(ls) == {};
        break;
      }
      var h := ls[best][0];
      TakeUnion(m, ls, best);
      TakeNext(m, out, ls, best);
      out, ls := out + [h], ls[best := ls[best][1..]];
    }
    UnionStored(m, ls);
  }

  lemma UnionStored(m: Slots, ls: seq<seq<Text>>)
    requires forall l <- ls :: Ascending(m, l)
    ensures forall x <- Union(ls) :: x in m
  {
  }

  lemma TakeNext(m: Slots, out: seq<Text>, ls: seq<seq<Text>>, best: nat)
    requires DistinctSeqs(m) && Mergeable(m, ls) && Best(m, ls, best) && Ascending(m, out)
    requires forall y <- out, x <- Union(ls) :: x in m && SeqOf(m, y) < SeqOf(m, x)
    ensures var h := ls[best][0];
            var out', ls' := out + [h], ls[best := ls[best][1..]];
            && Ascending(m, out') && Members(out') == Members(out) + {h}
            && (forall y <- out', x <- Union(ls') :: x in m && SeqOf(m, y) < SeqOf(m, x))
  {
    var h := ls[best][0];
    var out', ls' := out + [h], ls[best := ls[best][1..]];
    TakeUnion(m, ls, best);
    assert h in Union(ls);
    assert h in m by {
      assert ls[best] in ls;
    }
    forall i, j | 0 <= i < j < |out'| ensures SeqOf(m, out'[i]) < SeqOf(m, out'[j]) {
      assert out'[i] == out[i];
      if j < |out| {
        assert SeqOf(m, out[i]) < SeqOf(m, out[j]);
      }
    }
    forall y <- out', x <- Union(ls') ensures x in m && SeqOf(m, y) < SeqOf(m, x) {
      assert x in Union(ls);
      if y !in out {
        TakeLeast(m, ls, best, x);
      }
    }
  }

  method FindBest(m: Slots, ls: seq<seq<Text>>) returns (best: int)
    requires forall l <- ls :: Ascending(m, l)
    ensures best < 0 ==> forall l <- ls :: l == []
    ensures best >= 0 ==> Best(m, ls, best)
  {
    best := -1;
    for i := 0 to |ls|
      invariant -1 <= best < i && (best < 0 ==> forall k :: 0 <= k < i ==> ls[k] == [])
      invariant best >= 0 ==> ls[best] != [] && ls[best][0] in m
      invariant best >= 0 ==> forall k :: 0 <= k < i && ls[k] != [] ==> ls[k][0] in m && SeqOf(m, ls[best][0]) <= SeqOf(m, ls[k][0])
    {
      assert ls[i] in ls;
      if ls[i] != [] && (best < 0 || SeqOf(m, ls[i][0]) < SeqOf(m, ls[best][0])) {
        best := i;
      }
    }
  }
}
