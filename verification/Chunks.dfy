/** Byte strings laid end to end and read back one at a time, whatever they hold: the
    part of reading a log that has nothing to do with the frame format. */
module Chunks {
  import opened Records

  function Join(bs: seq<Bytes>): Bytes {
    if bs == [] then [] else bs[0] + Join(bs[1..])
  }

  /** How many of the chunks lie wholly in the first cut bytes. */
  function Whole(bs: seq<Bytes>, cut: nat): (n: nat)
    ensures n <= |bs|
  {
    if bs == [] || cut < |bs[0]| then 0 else 1 + Whole(bs[1..], cut - |bs[0]|)
  }

  lemma {:induction false} JoinConcat(a: seq<Bytes>, b: seq<Bytes>)
    ensures Join(a + b) == Join(a) + Join(b)
  {
    if a == [] {
      assert a + b == b;
    } else {
      assert (a + b)[1..] == a[1..] + b;
      JoinConcat(a[1..], b);
    }
  }

  lemma JoinTake(bs: seq<Bytes>, n: nat)
    requires 0 < n <= |bs|
    ensures Join(bs[..n]) == bs[0] + Join(bs[1..][..n - 1])
  {
    assert bs[..n][1..] == bs[1..][..n - 1];
  }

  lemma JoinSnoc(bs: seq<Bytes>, n: nat)
    requires n < |bs|
    ensures Join(bs[..n + 1]) == Join(bs[..n]) + bs[n]
  {
    assert bs[..n + 1] == bs[..n] + [bs[n]];
    JoinConcat(bs[..n], [bs[n]]);
    var one: seq<Bytes> := [bs[n]];
    assert one[1..] == [];
    assert Join([bs[n]]) == bs[n];
  }

  /** The bytes before a cut: the whole chunks, then a strict prefix of the next. */
  lemma {:induction false} CutJoin(bs: seq<Bytes>, cut: nat)
    requires cut <= |Join(bs)|
    ensures var n := Whole(bs, cut);
            && |Join(bs[..n])| <= cut
            && (n < |bs| ==> cut - |Join(bs[..n])| < |bs[n]|)
            && (n < |bs| ==> Join(bs)[..cut] == Join(bs[..n]) + bs[n][..cut - |Join(bs[..n])|])
            && (n == |bs| ==> Join(bs)[..cut] == Join(bs[..n]))
  {
    if bs != [] {
      var h, t := bs[0], Join(bs[1..]);
      if cut < |h| {
        assert (h + t)[..cut] == [] + h[..cut];
      } else {
        assert (h + t)[..cut] == h + t[..cut - |h|];
        CutJoin(bs[1..], cut - |h|);
        JoinTake(bs, Whole(bs, cut));
      }
    }
  }

  /** A cut at or past the end of the first k chunks keeps them all. */
  lemma {:induction false} WholeKeeps(bs: seq<Bytes>, cut: nat, k: nat)
    requires k <= |bs| && |Join(bs[..k])| <= cut
    ensures Whole(bs, cut) >= k
  {
    if k > 0 {
      JoinTake(bs, k);
      WholeKeeps(bs[1..], cut - |bs[0]|, k - 1);
    }
  }

  lemma {:induction false} WholeWithin(bs: seq<Bytes>, cut: nat)
    ensures |Join(bs[..Whole(bs, cut)])| <= cut
  {
    if bs != [] && |bs[0]| <= cut {
      WholeWithin(bs[1..], cut - |bs[0]|);
      JoinTake(bs, Whole(bs, cut));
    }
  }

  /** A cut inside the chunks leaves at least one out. */
  lemma WholeShort(bs: seq<Bytes>, cut: nat)
    requires cut < |Join(bs)|
    ensures Whole(bs, cut) < |bs|
  {
    WholeWithin(bs, cut);
    assert bs[..|bs|] == bs;
  }

  lemma {:induction false} JoinMonotone(bs: seq<Bytes>, i: nat, j: nat)
    requires i <= j <= |bs|
    ensures |Join(bs[..i])| <= |Join(bs[..j])|
    decreases j - i
  {
    if i < j {
      JoinSnoc(bs, i);
      JoinMonotone(bs, i + 1, j);
    }
  }

  // ---- reading chunks one at a time ----

  datatype ReadResult<T> =
    | Read(item: T, size: nat)
    | EndOfFile // only at a clean boundary
    | Torn      // the data ends in the middle of a chunk
    | Damaged   // complete, but wrong

  datatype Scan<T> = Scan(items: seq<T>, end: ReadResult<T>)

  /** Everything that reads, in order, and how reading ended. */
  function ScanWith<T>(read: Bytes -> ReadResult<T>, b: Bytes): (s: Scan<T>)
    decreases |b|
  {
    var r := read(b);
    if !r.Read? || !(0 < r.size <= |b|) then Scan([], r)
    else
      var s := ScanWith(read, b[r.size..]);
      Scan([r.item] + s.items, s.end)
  }

  ghost predicate Reads<T>(read: Bytes -> ReadResult<T>, b: Bytes, item: T) {
    b != [] && forall rest: Bytes :: read(b + rest) == Read(item, |b|)
  }

  lemma ScanCons<T>(read: Bytes -> ReadResult<T>, b: Bytes, item: T, rest: Bytes)
    requires Reads(read, b, item)
    ensures var s := ScanWith(read, rest);
            ScanWith(read, b + rest) == Scan([item] + s.items, s.end)
  {
    assert (b + rest)[|b|..] == rest;
  }

  lemma ConsConcat<T>(a: seq<T>, b: seq<T>)
    requires a != []
    ensures [a[0]] + (a[1..] + b) == a + b
  {
  }

  lemma {:induction false} ScanWhole<T>(read: Bytes -> ReadResult<T>, bs: seq<Bytes>, items: seq<T>, rest: Bytes)
    requires |bs| == |items| && forall i :: 0 <= i < |bs| ==> Reads(read, bs[i], items[i])
    ensures var s := ScanWith(read, rest);
            ScanWith(read, Join(bs) + rest) == Scan(items + s.items, s.end)
  {
    if bs == [] {
      assert Join(bs) + rest == rest;
      assert items + ScanWith(read, rest).items == ScanWith(read, rest).items;
    } else {
      var t := Join(bs[1..]) + rest;
      assert Join(bs) + rest == bs[0] + t;
      ScanCons(read, bs[0], items[0], t);
      ScanWhole(read, bs[1..], items[1..], rest);
      ConsConcat(items, ScanWith(read, rest).items);
    }
  }

  /** Reading a run of chunks cut at any byte yields exactly the whole chunks before
      the cut, then the end of the file at a boundary and a torn chunk elsewhere. */
  lemma CutScan<T>(read: Bytes -> ReadResult<T>, bs: seq<Bytes>, items: seq<T>, cut: nat)
    requires |bs| == |items| && forall i :: 0 <= i < |bs| ==> Reads(read, bs[i], items[i])
    requires read([]) == EndOfFile
    requires forall i, k :: 0 <= i < |bs| && 0 < k < |bs[i]| ==> read(bs[i][..k]) == Torn
    requires cut <= |Join(bs)|
    ensures var n := Whole(bs, cut);
            |Join(bs[..n])| <= cut &&
            ScanWith(read, Join(bs)[..cut]) ==
            Scan(items[..n], if cut == |Join(bs[..n])| then EndOfFile else Torn)
  {
    var n := Whole(bs, cut);
    var whole := Join(bs[..n]);
    CutJoin(bs, cut);
    var rest := if n < |bs| then bs[n][..cut - |whole|] else [];
    assert Join(bs)[..cut] == whole + rest;
    ScanWhole(read, bs[..n], items[..n], rest);
    assert rest == [] <==> cut == |whole|;
    assert ScanWith(read, rest) == Scan([], if rest == [] then EndOfFile else Torn);
    assert items[..n] + [] == items[..n];
  }
}
