/** Log entries and their bodies (dlq/wal_write.go writes them, applyEntry in
    dlq/wal_store.go reads them back). */
module Entries {
  import opened Records
  import opened Codec
  import opened RecordCodec

  datatype Entry =
    | Append(rec: Record)
    | Lease(ids: seq<Text>)
    | Checkpoint(id: Text, cp: Option<Bytes>)
    | Ack(id: Text)
    | Nack(id: Text, at: Time, next: Time, text: Text, blockedOn: Text, refund: bool)
    | Release(id: Text)
    | Park(id: Text, at: Time, reason: Text)
    | Requeue(id: Text, replace: Option<Option<Bytes>>) // Some(cp): the checkpoint becomes cp
    | Discard(id: Text)

  function TypeOf(e: Entry): byte {
    match e
    case Append(_) => 1
    case Lease(_) => 2
    case Checkpoint(_, _) => 3
    case Ack(_) => 4
    case Nack(_, _, _, _, _, _) => 5
    case Release(_) => 6
    case Park(_, _, _) => 7
    case Requeue(_, _) => 8
    case Discard(_) => 9
  }

  function Texts(ids: seq<Text>): (fs: seq<Field>)
    ensures |fs| == |ids|
    ensures forall i :: 0 <= i < |ids| ==> fs[i] == FText(ids[i])
  {
    seq(|ids|, i requires 0 <= i < |ids| => FText(ids[i]))
  }

  function TextKinds(n: nat): (ks: seq<Kind>)
    ensures |ks| == n && forall i :: 0 <= i < n ==> ks[i] == KText
  {
    seq(n, i => KText)
  }

  /** The fields of every body but an appended record's. Trailing fields that carry
      nothing are not written, so entries older than those fields still decode. */
  function BodyFields(e: Entry): seq<Field>
    requires !e.Append?
  {
    match e
    case Lease(ids) => [FUint(|ids|)] + Texts(ids)
    case Checkpoint(id, cp) => [FText(id), FBlob(cp)]
    case Nack(id, at, next, text, blockedOn, refund) =>
      [FText(id), FTime(at), FTime(next), FText(text), FText(blockedOn)] + (if refund then [FByte(1)] else [])
    case Park(id, at, reason) => [FText(id), FTime(at), FText(reason)]
    case Requeue(id, replace) =>
      [FText(id)] + (if replace.Some? then [FByte(1), FBlob(replace.value)] else [])
    case Ack(id) => [FText(id)]
    case Release(id) => [FText(id)]
    case Discard(id) => [FText(id)]
  }

  predicate EntryOk(e: Entry) {
    if e.Append? then RecordOk(e.rec) && e.rec.state != Leased else FieldsOk(BodyFields(e))
  }

  function NormEntry(e: Entry): Entry {
    match e
    case Append(rec) => Append(NormRecord(rec))
    case Nack(id, at, next, text, blockedOn, refund) =>
      Nack(id, NormTime(at), NormTime(next), text, blockedOn, refund)
    case Park(id, at, reason) => Park(id, NormTime(at), reason)
    case _ => e
  }

  function PutEntry(e: Entry): Bytes {
    if e.Append? then PutRecord(e.rec) else PutFields(BodyFields(e))
  }

  // ---- reading ----

  function GetAll(ks: seq<Kind>, b: Bytes): (r: Option<seq<Field>>)
    ensures r.Some? ==> Shaped(r.value, ks)
  {
    var (fs, rest) :- GetFields(ks, b);
    if rest == [] then Some(fs) else None
  }

  function GetId(b: Bytes): Option<Text> {
    var fs :- GetAll([KText], b);
    Some(TextOf(fs[0]))
  }

  function GetLease(b: Bytes): Option<Entry> {
    var (n, b1) :- GetUvarint(b);
    if n > |b1| then None
    else
      var fs :- GetAll(TextKinds(n), b1);
      Some(Lease(seq(n, i requires 0 <= i < n => TextOf(fs[i]))))
  }

  function GetNack(b: Bytes): Option<Entry> {
    var (fs, b1) :- GetFields([KText, KTime, KTime, KText, KText], b);
    var refund :- if b1 == [] then Some(false) else if |b1| == 1 then Some(b1[0] == 1) else None;
    assert KindOf(fs[1]) == KTime && KindOf(fs[2]) == KTime;
    Some(Nack(TextOf(fs[0]), fs[1].t, fs[2].t, TextOf(fs[3]), TextOf(fs[4]), refund))
  }

  function GetRequeue(b: Bytes): Option<Entry> {
    var (fs, b1) :- GetFields([KText], b);
    var replace :-
      if b1 == [] then Some(None)
      else if b1[0] != 1 then if |b1| == 1 then Some(None) else None
      else GetReplacement(b1[1..]);
    Some(Requeue(TextOf(fs[0]), replace))
  }

  function GetReplacement(b: Bytes): Option<Option<Option<Bytes>>> {
    var fs :- GetAll([KBlob], b);
    Some(Some(BlobOf(fs[0])))
  }

  function GetPark(b: Bytes): Option<Entry> {
    var fs :- GetAll([KText, KTime, KText], b);
    assert KindOf(fs[1]) == KTime;
    Some(Park(TextOf(fs[0]), fs[1].t, TextOf(fs[2])))
  }

  function GetAppend(b: Bytes): Option<Entry> {
    var rec :- GetWholeRecord(b);
    if rec.state == Leased then None else Some(Append(rec))
  }

  function GetCheckpoint(b: Bytes): Option<Entry> {
    var fs :- GetAll([KText, KBlob], b);
    Some(Checkpoint(TextOf(fs[0]), BlobOf(fs[1])))
  }

  /** The entry a frame's type and body spell, or nothing: applyEntry's decoding. */
  function GetEntry(typ: byte, b: Bytes): Option<Entry> {
    match typ
    case 1 => GetAppend(b)
    case 2 => GetLease(b)
    case 3 => GetCheckpoint(b)
    case 4 => (var id :- GetId(b); Some(Ack(id)))
    case 5 => GetNack(b)
    case 6 => (var id :- GetId(b); Some(Release(id)))
    case 7 => GetPark(b)
    case 8 => GetRequeue(b)
    case 9 => (var id :- GetId(b); Some(Discard(id)))
    case _ => None
  }

  lemma AllRoundTrip(fs: seq<Field>, ks: seq<Kind>)
    requires FieldsOk(fs) && Kinds(fs) == ks
    ensures GetAll(ks, PutFields(fs)) == Some(NormFields(fs))
  {
    FieldsRoundTrip(fs, []);
    assert PutFields(fs) + [] == PutFields(fs);
  }

  lemma NameRoundTrip(e: Entry)
    requires (e.Ack? || e.Release? || e.Discard?) && EntryOk(e)
    ensures GetEntry(TypeOf(e), PutEntry(e)) == Some(e)
  {
    assert Kinds(BodyFields(e)) == [KText];
    AllRoundTrip(BodyFields(e), [KText]);
  }

  lemma LeaseRoundTrip(ids: seq<Text>)
    requires EntryOk(Lease(ids))
    ensures GetLease(PutEntry(Lease(ids))) == Some(Lease(ids))
  {
    var fs, b := Texts(ids), PutFields(Texts(ids));
    var all := BodyFields(Lease(ids));
    assert all[0] == FUint(|ids|) && all[1..] == fs;
    assert FUint(|ids|) in all && forall f <- fs :: f in all;
    assert PutEntry(Lease(ids)) == PutUvarint(|ids|) + b;
    UvarintRoundTrip(|ids|, b);
    PutFieldsLength(fs);
    assert Kinds(fs) == TextKinds(|ids|);
    AllRoundTrip(fs, TextKinds(|ids|));
    assert seq(|ids|, i requires 0 <= i < |ids| => TextOf(NormFields(fs)[i])) == ids;
  }

  lemma NackRoundTrip(e: Entry)
    requires e.Nack? && EntryOk(e)
    ensures GetNack(PutEntry(e)) == Some(NormEntry(e))
  {
    var fs := [FText(e.id), FTime(e.at), FTime(e.next), FText(e.text), FText(e.blockedOn)];
    var tail := if e.refund then [FByte(1)] else [];
    assert BodyFields(e) == fs + tail;
    assert forall f <- fs :: f in fs + tail;
    PutFieldsConcat(fs, tail);
    assert Kinds(fs) == [KText, KTime, KTime, KText, KText];
    FieldsRoundTrip(fs, PutFields(tail));
    assert PutFields(tail) == if e.refund then [1] else [];
  }

  lemma RequeueRoundTrip(e: Entry)
    requires e.Requeue? && EntryOk(e)
    ensures GetRequeue(PutEntry(e)) == Some(e)
  {
    var fs := [FText(e.id)];
    var tail := BodyFields(e)[1..];
    assert BodyFields(e) == fs + tail && FText(e.id) in BodyFields(e);
    PutFieldsConcat(fs, tail);
    assert Kinds(fs) == [KText];
    FieldsRoundTrip(fs, PutFields(tail));
    if e.replace.Some? {
      var cp := FBlob(e.replace.value);
      assert tail[1..] == [cp] && cp in BodyFields(e);
      assert PutFields(tail) == [1] + PutFields([cp]);
      assert PutFields(tail)[1..] == PutFields([cp]);
      AllRoundTrip([cp], [KBlob]);
    }
  }

  lemma FixedRoundTrip(e: Entry)
    requires (e.Checkpoint? || e.Park?) && EntryOk(e)
    ensures GetEntry(TypeOf(e), PutEntry(e)) == Some(NormEntry(e))
  {
    var ks := if e.Park? then [KText, KTime, KText] else [KText, KBlob];
    assert Kinds(BodyFields(e)) == ks;
    AllRoundTrip(BodyFields(e), ks);
  }

  /** Every entry the store writes decodes to itself, up to how times at the epoch and
      empty header lists are stored. */
  lemma EntryRoundTrip(e: Entry)
    requires EntryOk(e)
    ensures GetEntry(TypeOf(e), PutEntry(e)) == Some(NormEntry(e))
  {
    match e
    case Append(rec) => WholeRecordRoundTrip(rec);
    case Lease(ids) => LeaseRoundTrip(ids);
    case Checkpoint(_, _) => FixedRoundTrip(e);
    case Nack(_, _, _, _, _, _) => NackRoundTrip(e);
    case Park(_, _, _) => FixedRoundTrip(e);
    case Requeue(_, _) => RequeueRoundTrip(e);
    case Ack(_) => NameRoundTrip(e);
    case Release(_) => NameRoundTrip(e);
    case Discard(_) => NameRoundTrip(e);
  }

  /** An entry that was written and read is the same but for times at the Unix epoch, and an
      appended record for what its own trip changes. */
  lemma NormEntryChanges(e: Entry)
    ensures var n := NormEntry(e);
            match e
            case Append(rec) => n == Append(NormRecord(rec))
            case Nack(id, at, next, text, blockedOn, refund) =>
              && n.Nack? && n.id == id && SameTime(at, n.at) && SameTime(next, n.next) && n.text == text
              && n.blockedOn == blockedOn && n.refund == refund
            case Park(id, at, reason) => n.Park? && n.id == id && SameTime(at, n.at) && n.reason == reason
            case _ => n == e
  {
  }

  /** Whatever bytes are read, an entry never appends a leased record. */
  lemma NeverAppendsLeased(typ: byte, b: Bytes)
    requires GetEntry(typ, b).Some? && GetEntry(typ, b).value.Append?
    ensures typ == 1 && GetEntry(typ, b).value.rec.state != Leased
  {
    hide GetWholeRecord, GetFields, GetUvarint;
  }
}
