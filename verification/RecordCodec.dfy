/** Records as bytes (dlq/wal_codec.go, encodeRecord and decodeRecord). GetRecord is
    the reference reading of a record; class Decoder is the source's cursor with a
    sticky error, proved to agree with it. */
module RecordCodec {
  import opened Records
  import opened Codec

  function StateByte(s: State): byte {
    match s
    case Pending => 0
    case Leased => 1
    case Parked => 2
  }

  function ByteState(b: byte): Option<State> {
    if b == 0 then Some(Pending) else if b == 1 then Some(Leased) else if b == 2 then Some(Parked) else None
  }

  /** uint64(x) of an int, and int(u) of a uint64: two's complement. */
  function AsUint64(x: int): nat { x % TWO_64 }

  function AsInt64(u: nat): int {
    if u % TWO_64 < TWO_63 then u % TWO_64 else u % TWO_64 - TWO_64
  }

  /** int32(x): the low 32 bits, sign extended. */
  function AsInt32(x: int): int {
    if x % TWO_32 < TWO_31 then x % TWO_32 else x % TWO_32 - TWO_32
  }

  // ---- the field list of a record ----

  function HeadFields(r: Record): seq<Field> {
    [FText(r.id), FUint(r.seqNo), FByte(StateByte(r.state)), FText(r.source.kind), FText(r.source.name),
     FInt(r.source.partition), FInt(r.source.offset), FBlob(r.key), FBlob(r.value), FUint(|HeaderList(r.headers)|)]
  }

  function HeaderFields(hs: seq<Header>): (fs: seq<Field>)
    ensures |fs| == 2 * |hs|
  {
    if hs == [] then []
    else
      var n := |hs| - 1;
      HeaderFields(hs[..n]) + [FText(hs[n].key), FBlob(hs[n].value)]
  }

  function TailFields(r: Record): seq<Field> {
    [FText(r.orderKey), FText(r.blockedOn), FUint(AsUint64(r.attempts)), FTime(r.firstFailed), FTime(r.lastFailed),
     FTime(r.nextAttempt), FText(r.lastError), FBlob(r.checkpoint), FUint(AsUint64(r.schemaVersion))]
  }

  const HEAD_KINDS: seq<Kind> := [KText, KUint, KByte, KText, KText, KInt, KInt, KBlob, KBlob, KUint]
  const TAIL_KINDS: seq<Kind> := [KText, KText, KUint, KTime, KTime, KTime, KText, KBlob, KUint]

  function HeaderKinds(n: nat): (ks: seq<Kind>)
    ensures |ks| == 2 * n
  {
    if n == 0 then [] else HeaderKinds(n - 1) + [KText, KBlob]
  }

  /** What the source's types and the nanosecond range of a time allow. */
  predicate RecordOk(r: Record) {
    && 0 <= r.attempts < TWO_63
    && IsInt64(r.schemaVersion)
    && -TWO_31 <= r.source.partition < TWO_31
    && FieldsOk(HeadFields(r))
    && FieldsOk(HeaderFields(HeaderList(r.headers)))
    && FieldsOk(TailFields(r))
  }

  /** How a record differs after a trip through the log: an empty header list is
      absent, and a time at exactly the Unix epoch is one nanosecond later. */
  function NormRecord(r: Record): Record {
    r.(headers := if HeaderList(r.headers) == [] then None else r.headers,
       firstFailed := NormTime(r.firstFailed),
       lastFailed := NormTime(r.lastFailed),
       nextAttempt := NormTime(r.nextAttempt))
  }

  function PutRecord(r: Record): Bytes {
    PutFields(HeadFields(r)) + (PutFields(HeaderFields(HeaderList(r.headers))) + PutFields(TailFields(r)))
  }

  function TextOf(f: Field): Text { if f.FText? then f.text else [] }
  function BlobOf(f: Field): Option<Bytes> { if f.FBlob? then f.blob else None }

  function ToHeaders(fs: seq<Field>): seq<Header> {
    if |fs| < 2 then []
    else
      var n := |fs| - 2;
      ToHeaders(fs[..n]) + [Header(TextOf(fs[n]), BlobOf(fs[n + 1]))]
  }

  predicate Shaped(fs: seq<Field>, ks: seq<Kind>) {
    |fs| == |ks| && forall i :: 0 <= i < |ks| ==> KindOf(fs[i]) == ks[i]
  }

  /** The record the fields spell, or nothing if its state or attempts are not legal. */
  function Assemble(hd: seq<Field>, hs: seq<Header>, tl: seq<Field>): Option<Record>
    requires Shaped(hd, HEAD_KINDS) && Shaped(tl, TAIL_KINDS)
  {
    assert forall i :: 0 <= i < 10 ==> KindOf(hd[i]) == HEAD_KINDS[i];
    assert forall i :: 0 <= i < 9 ==> KindOf(tl[i]) == TAIL_KINDS[i];
    var state :- ByteState(hd[2].b);
    var attempts := AsInt64(tl[2].n);
    if attempts < 0 then None
    else Some(Record(
      hd[0].text, hd[1].n, state, Source(hd[3].text, hd[4].text, AsInt32(hd[5].i), hd[6].i),
      hd[7].blob, hd[8].blob, if hs == [] then None else Some(hs),
      tl[0].text, tl[1].text, attempts, tl[3].t, tl[4].t, tl[5].t, tl[6].text, tl[7].blob, AsInt64(tl[8].n)))
  }

  function GetRecord(b: Bytes): (r: Option<(Record, Bytes)>)
    ensures r.Some? ==> |r.value.1| < |b|
  {
    var (hd, b1) :- GetFields(HEAD_KINDS, b);
    assert KindOf(hd[9]) == HEAD_KINDS[9];
    GetAfterHead(hd, hd[9].n, b1)
  }

  /** The rest of a record once its first ten fields, the last of them the number of
      headers, are read. */
  function GetAfterHead(hd: seq<Field>, n: nat, b: Bytes): (r: Option<(Record, Bytes)>)
    requires Shaped(hd, HEAD_KINDS)
    ensures r.Some? ==> |r.value.1| <= |b|
  {
    if n > |b| then None // every header needs at least two bytes
    else
      var (hf, b2) :- GetFields(HeaderKinds(n), b);
      var (tl, b3) :- GetFields(TAIL_KINDS, b2);
      var rec :- Assemble(hd, ToHeaders(hf), tl);
      Some((rec, b3))
  }

  lemma KindsOfRecord(r: Record)
    requires RecordOk(r)
    ensures Kinds(HeadFields(r)) == HEAD_KINDS
    ensures Kinds(TailFields(r)) == TAIL_KINDS
  {
  }

  lemma IntegersRoundTrip(r: Record)
    requires RecordOk(r)
    ensures AsInt64(AsUint64(r.attempts)) == r.attempts
    ensures AsInt64(AsUint64(r.schemaVersion)) == r.schemaVersion
    ensures AsInt32(r.source.partition) == r.source.partition
  {
  }

  lemma HeaderFieldsLast(hs: seq<Header>, n: nat)
    requires |hs| == n + 1
    ensures HeaderFields(hs) == HeaderFields(hs[..n]) + [FText(hs[n].key), FBlob(hs[n].value)]
  {
  }

  lemma {:induction false} HeaderFieldsPlain(hs: seq<Header>)
    ensures NormFields(HeaderFields(hs)) == HeaderFields(hs)
    ensures Kinds(HeaderFields(hs)) == HeaderKinds(|hs|)
  {
    if hs != [] {
      var n := |hs| - 1;
      HeaderFieldsPlain(hs[..n]);
      HeaderFieldsLast(hs, n);
      var fs, last := HeaderFields(hs[..n]), [FText(hs[n].key), FBlob(hs[n].value)];
      assert NormFields(fs + last) == NormFields(fs) + last;
      assert Kinds(fs + last) == Kinds(fs) + [KText, KBlob];
    }
  }

  lemma ToHeadersSnoc(fs: seq<Field>, f: Field, g: Field)
    ensures ToHeaders(fs + [f, g]) == ToHeaders(fs) + [Header(TextOf(f), BlobOf(g))]
  {
    assert (fs + [f, g])[..|fs|] == fs;
  }

  lemma {:induction false} HeadersRoundTrip(hs: seq<Header>)
    ensures ToHeaders(HeaderFields(hs)) == hs
  {
    if hs != [] {
      var n := |hs| - 1;
      HeadersRoundTrip(hs[..n]);
      HeaderFieldsLast(hs, n);
      ToHeadersSnoc(HeaderFields(hs[..n]), FText(hs[n].key), FBlob(hs[n].value));
      assert hs == hs[..n] + [hs[n]];
    }
  }

  lemma AssembleNorm(r: Record)
    requires RecordOk(r)
    ensures Shaped(NormFields(HeadFields(r)), HEAD_KINDS) && Shaped(NormFields(TailFields(r)), TAIL_KINDS)
    ensures Assemble(NormFields(HeadFields(r)), HeaderList(r.headers), NormFields(TailFields(r)))
            == Some(NormRecord(r))
  {
    KindsOfRecord(r);
    IntegersRoundTrip(r);
    var hd, tl := NormFields(HeadFields(r)), NormFields(TailFields(r));
    forall i | 0 <= i < 10 ensures KindOf(hd[i]) == HEAD_KINDS[i] {
      assert Kinds(HeadFields(r))[i] == HEAD_KINDS[i];
    }
    forall i | 0 <= i < 9 ensures KindOf(tl[i]) == TAIL_KINDS[i] {
      assert Kinds(TailFields(r))[i] == TAIL_KINDS[i];
    }
    assert hd == HeadFields(r);
  }

  lemma AfterHeadRoundTrip(r: Record, rest: Bytes)
    requires RecordOk(r)
    ensures var hs := HeaderList(r.headers);
            Shaped(NormFields(HeadFields(r)), HEAD_KINDS) &&
            GetAfterHead(NormFields(HeadFields(r)), |hs|,
                         PutFields(HeaderFields(hs)) + (PutFields(TailFields(r)) + rest))
            == Some((NormRecord(r), rest))
  {
    var hs := HeaderList(r.headers);
    var m, t := PutFields(HeaderFields(hs)), PutFields(TailFields(r));
    KindsOfRecord(r);
    HeaderFieldsPlain(hs);
    HeadersRoundTrip(hs);
    AssembleNorm(r);
    PutFieldsLength(HeaderFields(hs));
    FieldsRoundTrip(HeaderFields(hs), t + rest);
    FieldsRoundTrip(TailFields(r), rest);
  }

  /** Decoding inverts encoding, whatever follows. */
  lemma RecordRoundTrip(r: Record, rest: Bytes)
    requires RecordOk(r)
    ensures GetRecord(PutRecord(r) + rest) == Some((NormRecord(r), rest))
  {
    var h := PutFields(HeadFields(r));
    var m, t := PutFields(HeaderFields(HeaderList(r.headers))), PutFields(TailFields(r));
    KindsOfRecord(r);
    assert PutRecord(r) + rest == h + (m + (t + rest));
    FieldsRoundTrip(HeadFields(r), m + (t + rest));
    AfterHeadRoundTrip(r, rest);
  }

  /** Cut inside the headers or inside the last fields, the rest of a record is rejected. */
  lemma RestCutRejected(hd: seq<Field>, hs: seq<Header>, tf: seq<Field>, k: nat)
    requires Shaped(hd, HEAD_KINDS) && FieldsOk(HeaderFields(hs)) && Kinds(HeaderFields(hs)) == HeaderKinds(|hs|)
    requires FieldsOk(tf) && Kinds(tf) == TAIL_KINDS && k < |PutFields(HeaderFields(hs)) + PutFields(tf)|
    ensures GetAfterHead(hd, |hs|, (PutFields(HeaderFields(hs)) + PutFields(tf))[..k]) == None
  {
    hide HeaderFields, Assemble, FieldsOk, PutFields, GetFields, Kinds;
    var m, t := PutFields(HeaderFields(hs)), PutFields(tf);
    if k < |m| {
      assert (m + t)[..k] == m[..k];
      AllFieldsPrefixRejected(HeaderFields(hs), k);
    } else {
      assert (m + t)[..k] == m + t[..k - |m|];
      FieldsRoundTrip(HeaderFields(hs), t[..k - |m|]);
      AllFieldsPrefixRejected(tf, k - |m|);
    }
  }

  lemma AfterHeadPrefixRejected(r: Record, k: nat)
    requires RecordOk(r)
    requires k < |PutFields(HeaderFields(HeaderList(r.headers))) + PutFields(TailFields(r))|
    ensures var hs := HeaderList(r.headers);
            Shaped(NormFields(HeadFields(r)), HEAD_KINDS) &&
            GetAfterHead(NormFields(HeadFields(r)), |hs|,
                         (PutFields(HeaderFields(hs)) + PutFields(TailFields(r)))[..k]) == None
  {
    HeaderFieldsPlain(HeaderList(r.headers));
    KindsOfRecord(r);
    AssembleNorm(r);
    RestCutRejected(NormFields(HeadFields(r)), HeaderList(r.headers), TailFields(r), k);
  }

  lemma ReadHead(hf: seq<Field>, rest: Bytes)
    requires FieldsOk(hf) && Kinds(hf) == HEAD_KINDS
    ensures Shaped(NormFields(hf), HEAD_KINDS) && NormFields(hf)[9].FUint?
    ensures GetRecord(PutFields(hf) + rest) == GetAfterHead(NormFields(hf), NormFields(hf)[9].n, rest)
  {
    FieldsRoundTrip(hf, rest);
    forall i | 0 <= i < 10 ensures KindOf(NormFields(hf)[i]) == HEAD_KINDS[i] {
      assert Kinds(hf)[i] == HEAD_KINDS[i];
    }
    hide FieldsOk, PutFields, GetFields, GetAfterHead;
  }

  lemma HeadCutRejected(hf: seq<Field>, rest: Bytes, k: nat)
    requires FieldsOk(hf) && Kinds(hf) == HEAD_KINDS && k < |PutFields(hf)|
    ensures GetRecord((PutFields(hf) + rest)[..k]) == None
  {
    hide FieldsOk, PutFields, GetFields, GetAfterHead;
    var h := PutFields(hf);
    assert (h + rest)[..k] == h[..k];
    AllFieldsPrefixRejected(hf, k);
  }

  lemma HeaderCount(r: Record)
    requires RecordOk(r)
    ensures FieldsOk(HeadFields(r))
    ensures PutRecord(r) == PutFields(HeadFields(r)) + (PutFields(HeaderFields(HeaderList(r.headers))) + PutFields(TailFields(r)))
    ensures |NormFields(HeadFields(r))| == 10 && NormFields(HeadFields(r))[9] == FUint(|HeaderList(r.headers)|)
  {
  }

  /** No strict prefix of an encoded record decodes. */
  lemma RecordPrefixRejected(r: Record, k: nat)
    requires RecordOk(r) && k < |PutRecord(r)|
    ensures GetRecord(PutRecord(r)[..k]) == None
  {
    hide *;
    var h := PutFields(HeadFields(r));
    var mt := PutFields(HeaderFields(HeaderList(r.headers))) + PutFields(TailFields(r));
    KindsOfRecord(r);
    HeaderCount(r);
    if k < |h| {
      HeadCutRejected(HeadFields(r), mt, k);
    } else {
      assert (h + mt)[..k] == h + mt[..k - |h|];
      ReadHead(HeadFields(r), mt[..k - |h|]);
      AfterHeadPrefixRejected(r, k - |h|);
    }
  }

  function GetWholeRecord(b: Bytes): Option<Record> {
    var (r, rest) :- GetRecord(b);
    if rest == [] then Some(r) else None
  }

  lemma WholeRecordRoundTrip(r: Record)
    requires RecordOk(r)
    ensures GetWholeRecord(PutRecord(r)) == Some(NormRecord(r))
    ensures forall k: nat | k < |PutRecord(r)| :: GetWholeRecord(PutRecord(r)[..k]) == None
  {
    RecordRoundTrip(r, []);
    assert PutRecord(r) + [] == PutRecord(r);
    forall k: nat | k < |PutRecord(r)| ensures GetWholeRecord(PutRecord(r)[..k]) == None {
      RecordPrefixRejected(r, k);
    }
  }

  // ---- what a trip through the log changes ----

  /** A stored time is later by a nanosecond if it is exactly the Unix epoch, and is otherwise
      the same. */
  predicate SameTime(t: Time, read: Time) { read == if t == UNIX_EPOCH then t + 1 else t }

  /** A record that was written and read is the same in every field but its times at the Unix
      epoch and a header list that is there and empty. */
  lemma NormChanges(r: Record)
    ensures var n := NormRecord(r);
            && n.id == r.id && n.seqNo == r.seqNo && n.state == r.state && n.source == r.source
            && n.key == r.key && n.value == r.value && n.orderKey == r.orderKey && n.blockedOn == r.blockedOn
            && n.attempts == r.attempts && n.lastError == r.lastError && n.checkpoint == r.checkpoint
            && n.schemaVersion == r.schemaVersion
            && (if r.headers == Some([]) then n.headers == None else n.headers == r.headers)
            && SameTime(r.firstFailed, n.firstFailed) && SameTime(r.lastFailed, n.lastFailed)
            && SameTime(r.nextAttempt, n.nextAttempt)
  {
  }

  /** Whatever bytes are read, a record that decodes has no negative attempts. */
  lemma DecodedLegal(b: Bytes)
    requires GetRecord(b).Some?
    ensures GetRecord(b).value.0.attempts >= 0
  {
    hide GetFields;
  }
}
