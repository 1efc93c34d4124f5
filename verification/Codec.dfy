/** The byte formats of the log (dlq/wal_codec.go): varints, fields, records and
    entries. Every body in the log is a list of fields, so one induction over a list
    of fields carries both halves of the format: what is written is read back, and
    no strict prefix of it is accepted. */
module Codec {
  import opened Records

  // ---- varints ----

  function PutUvarint(v: nat): (b: Bytes)
    ensures b != []
  {
    if v < 128 then [v] else [v % 128 + 128] + PutUvarint(v / 128)
  }

  /** Reads a varint whose first byte is byte number i of it. Ten bytes at most, and
      the tenth may only be 0 or 1. */
  function GetUvarint(b: Bytes, i: nat := 0): (r: Option<(nat, Bytes)>)
    ensures r.Some? ==> |r.value.1| < |b|
    decreases |b|
  {
    if b == [] || i >= 10 then None
    else if b[0] < 128 then
      if i == 9 && b[0] > 1 then None else Some((b[0], b[1..]))
    else
      var (v, rest) :- GetUvarint(b[1..], i + 1);
      Some((b[0] - 128 + 128 * v, rest))
  }

  /** Values that still fit when i bytes have been used: 2^64 at the start. */
  function Room(i: nat): nat
    decreases 10 - i
  {
    if i >= 9 then 2 else 128 * Room(i + 1)
  }

  lemma RoomIsSixtyFourBits()
    ensures Room(0) == TWO_64
  {
    assert Room(8) == 256;
    assert Room(7) == 0x8000;
    assert Room(6) == 0x40_0000;
    assert Room(5) == 0x2000_0000;
    assert Room(4) == 0x10_0000_0000;
    assert Room(3) == 0x800_0000_0000;
    assert Room(2) == 0x4_0000_0000_0000;
    assert Room(1) == 0x200_0000_0000_0000;
  }

  lemma RoomAfter(v: nat, i: nat)
    requires i < 10 && v < Room(i)
    ensures (i == 9 ==> v <= 1) && (v >= 128 ==> i < 9 && v / 128 < Room(i + 1))
  {
  }

  lemma PutUvarintLong(v: nat, rest: Bytes)
    requires v >= 128
    ensures var b := PutUvarint(v) + rest; b[0] == v % 128 + 128 && b[1..] == PutUvarint(v / 128) + rest
  {
  }

  lemma {:induction false} UvarintRoundTripFrom(v: nat, i: nat, rest: Bytes)
    requires i < 10 && v < Room(i)
    ensures GetUvarint(PutUvarint(v) + rest, i) == Some((v, rest))
  {
    hide Room;
    var b := PutUvarint(v) + rest;
    RoomAfter(v, i);
    if v < 128 {
      assert b[1..] == rest;
    } else {
      PutUvarintLong(v, rest);
      hide PutUvarint;
      UvarintRoundTripFrom(v / 128, i + 1, rest);
    }
  }

  lemma UvarintRoundTrip(v: nat, rest: Bytes)
    requires v < TWO_64
    ensures GetUvarint(PutUvarint(v) + rest) == Some((v, rest))
  {
    RoomIsSixtyFourBits();
    UvarintRoundTripFrom(v, 0, rest);
  }

  lemma {:induction false} UvarintPrefixRejected(v: nat, k: nat, i: nat)
    requires k < |PutUvarint(v)|
    ensures GetUvarint(PutUvarint(v)[..k], i) == None
  {
    if k > 0 {
      assert PutUvarint(v)[..k][1..] == PutUvarint(v / 128)[..k - 1];
      UvarintPrefixRejected(v / 128, k - 1, i + 1);
    }
  }

  function ZigZag(x: int): nat {
    if x >= 0 then 2 * x else -2 * x - 1
  }

  function UnZigZag(u: nat): int {
    if u % 2 == 0 then u / 2 else -(u / 2) - 1
  }

  predicate IsInt64(x: int) { -TWO_63 <= x < TWO_63 }

  // ---- fields ----

  datatype Field =
    | FText(text: Text)
    | FUint(n: nat)
    | FInt(i: int)
    | FByte(b: byte)
    | FBlob(blob: Option<Bytes>)
    | FTime(t: Time)

  datatype Kind = KText | KUint | KInt | KByte | KBlob | KTime

  function KindOf(f: Field): Kind {
    match f
    case FText(_) => KText
    case FUint(_) => KUint
    case FInt(_) => KInt
    case FByte(_) => KByte
    case FBlob(_) => KBlob
    case FTime(_) => KTime
  }

  /** What fits the source's integer widths and the nanosecond range of UnixNano. */
  predicate FieldOk(f: Field) {
    match f
    case FText(s) => |s| < TWO_64
    case FUint(n) => n < TWO_64
    case FInt(i) => IsInt64(i)
    case FByte(_) => true
    case FBlob(o) => BlobLen(o) + 1 < TWO_64
    case FTime(t) => t == ZERO_TIME || IsInt64(t - UNIX_EPOCH)
  }

  /** 0 stands for "no time", so the exact Unix epoch is written one nanosecond late. */
  function TimeNanos(t: Time): int {
    if t == ZERO_TIME then 0 else if t == UNIX_EPOCH then 1 else t - UNIX_EPOCH
  }

  function NanosTime(ns: int): Time {
    if ns == 0 then ZERO_TIME else UNIX_EPOCH + ns
  }

  function NormTime(t: Time): Time {
    if t == UNIX_EPOCH then UNIX_EPOCH + 1 else t
  }

  function NormField(f: Field): Field {
    if f.FTime? then FTime(NormTime(f.t)) else f
  }

  function PutField(f: Field): (b: Bytes)
    ensures b != []
  {
    match f
    case FText(s) => PutUvarint(|s|) + s
    case FUint(n) => PutUvarint(n)
    case FInt(i) => PutUvarint(ZigZag(i))
    case FByte(b) => [b]
    case FBlob(o) => if o.None? then PutUvarint(0) else PutUvarint(|o.value| + 1) + o.value
    case FTime(t) => PutUvarint(ZigZag(TimeNanos(t)))
  }

  /** Splits off n bytes, if there are that many. */
  function Take(b: Bytes, n: nat): (r: Option<(Bytes, Bytes)>)
    ensures r.Some? <==> n <= |b|
    ensures r.Some? ==> r.value.0 + r.value.1 == b
  {
    if n > |b| then None else Some((b[..n], b[n..]))
  }

  function GetField(k: Kind, b: Bytes): (r: Option<(Field, Bytes)>)
    ensures r.Some? ==> KindOf(r.value.0) == k && |r.value.1| < |b|
  {
    match k
    case KByte => if b == [] then None else Some((FByte(b[0]), b[1..]))
    case KText =>
      var (n, b1) :- GetUvarint(b);
      var (s, b2) :- Take(b1, n);
      Some((FText(s), b2))
    case KBlob =>
      var (n, b1) :- GetUvarint(b);
      if n == 0 then Some((FBlob(None), b1))
      else
        var (s, b2) :- Take(b1, n - 1);
        Some((FBlob(Some(s)), b2))
    case KUint =>
      var (n, b1) :- GetUvarint(b);
      Some((FUint(n), b1))
    case KInt =>
      var (n, b1) :- GetUvarint(b);
      Some((FInt(UnZigZag(n)), b1))
    case KTime =>
      var (n, b1) :- GetUvarint(b);
      Some((FTime(NanosTime(UnZigZag(n))), b1))
  }

  lemma ZigZagRoundTrip(x: int)
    requires IsInt64(x)
    ensures UnZigZag(ZigZag(x)) == x && ZigZag(x) < TWO_64
  {
  }

  lemma FieldRoundTrip(f: Field, rest: Bytes)
    requires FieldOk(f)
    ensures GetField(KindOf(f), PutField(f) + rest) == Some((NormField(f), rest))
  {
    match f
    case FByte(b) => assert ([b] + rest)[1..] == rest;
    case FUint(n) => UvarintRoundTrip(n, rest);
    case FInt(i) => ZigZagRoundTrip(i); UvarintRoundTrip(ZigZag(i), rest);
    case FTime(t) =>
      ZigZagRoundTrip(TimeNanos(t));
      UvarintRoundTrip(ZigZag(TimeNanos(t)), rest);
    case FText(s) => LengthPrefixed(|s|, s, rest);
    case FBlob(o) =>
      if o.None? {
        UvarintRoundTrip(0, rest);
      } else {
        LengthPrefixed(|o.value| + 1, o.value, rest);
      }
  }

  lemma LengthPrefixed(n: nat, s: Bytes, rest: Bytes)
    requires n < TWO_64
    ensures GetUvarint(PutUvarint(n) + s + rest) == Some((n, s + rest))
    ensures (s + rest)[..|s|] == s && (s + rest)[|s|..] == rest
  {
    assert PutUvarint(n) + s + rest == PutUvarint(n) + (s + rest);
    UvarintRoundTrip(n, s + rest);
  }

  lemma FieldPrefixRejected(f: Field, k: nat)
    requires FieldOk(f) && k < |PutField(f)|
    ensures GetField(KindOf(f), PutField(f)[..k]) == None
  {
    match f
    case FByte(_) =>
    case FUint(n) => UvarintPrefixRejected(n, k, 0);
    case FInt(i) => UvarintPrefixRejected(ZigZag(i), k, 0);
    case FTime(t) => UvarintPrefixRejected(ZigZag(TimeNanos(t)), k, 0);
    case FText(s) => LengthPrefixedCut(|s|, s, k);
    case FBlob(o) =>
      if o.None? {
        UvarintPrefixRejected(0, k, 0);
      } else {
        LengthPrefixedCut(|o.value| + 1, o.value, k);
      }
  }

  lemma LengthPrefixedCut(n: nat, s: Bytes, k: nat)
    requires n < TWO_64 && k < |PutUvarint(n) + s|
    ensures var cut := (PutUvarint(n) + s)[..k];
            GetUvarint(cut) == None ||
            (k >= |PutUvarint(n)| && GetUvarint(cut) == Some((n, s[..k - |PutUvarint(n)|])))
  {
    var h := PutUvarint(n);
    if k < |h| {
      assert (h + s)[..k] == h[..k];
      UvarintPrefixRejected(n, k, 0);
    } else {
      assert (h + s)[..k] == h + s[..k - |h|];
      UvarintRoundTrip(n, s[..k - |h|]);
    }
  }

  // ---- lists of fields ----

  predicate FieldsOk(fs: seq<Field>) { forall f <- fs :: FieldOk(f) }

  function PutFields(fs: seq<Field>): Bytes {
    if fs == [] then [] else PutField(fs[0]) + PutFields(fs[1..])
  }

  function Kinds(fs: seq<Field>): (ks: seq<Kind>)
    ensures |ks| == |fs|
    ensures forall i :: 0 <= i < |fs| ==> ks[i] == KindOf(fs[i])
  {
    seq(|fs|, i requires 0 <= i < |fs| => KindOf(fs[i]))
  }

  function NormFields(fs: seq<Field>): (r: seq<Field>)
    ensures |r| == |fs|
    ensures forall i :: 0 <= i < |fs| ==> r[i] == NormField(fs[i])
  {
    seq(|fs|, i requires 0 <= i < |fs| => NormField(fs[i]))
  }

  function GetFields(ks: seq<Kind>, b: Bytes): (r: Option<(seq<Field>, Bytes)>)
    ensures r.Some? ==> |r.value.0| == |ks| && |r.value.1| + |ks| <= |b|
    ensures r.Some? ==> forall i :: 0 <= i < |ks| ==> KindOf(r.value.0[i]) == ks[i]
  {
    if ks == [] then Some(([], b))
    else
      var (f, b1) :- GetField(ks[0], b);
      var (fs, b2) :- GetFields(ks[1..], b1);
      Some(([f] + fs, b2))
  }

  lemma {:induction false} FieldsRoundTrip(fs: seq<Field>, rest: Bytes)
    requires FieldsOk(fs)
    ensures GetFields(Kinds(fs), PutFields(fs) + rest) == Some((NormFields(fs), rest))
  {
    if fs == [] {
      assert PutFields(fs) + rest == rest;
    } else {
      assert PutFields(fs) + rest == PutField(fs[0]) + (PutFields(fs[1..]) + rest);
      FieldRoundTrip(fs[0], PutFields(fs[1..]) + rest);
      FieldsRoundTrip(fs[1..], rest);
      assert Kinds(fs)[1..] == Kinds(fs[1..]);
      assert [NormField(fs[0])] + NormFields(fs[1..]) == NormFields(fs);
    }
  }

  /** Reading more fields than a cut encoding holds whole always fails. */
  lemma {:induction false} FieldsPrefixRejected(fs: seq<Field>, more: seq<Kind>, k: nat)
    requires FieldsOk(fs) && k < |PutFields(fs)|
    ensures GetFields(Kinds(fs) + more, PutFields(fs)[..k]) == None
  {
    hide PutField, GetField, FieldOk, NormField;
    var h, t := PutField(fs[0]), PutFields(fs[1..]);
    var ks := Kinds(fs) + more;
    assert ks[1..] == Kinds(fs[1..]) + more;
    if k < |h| {
      assert (h + t)[..k] == h[..k];
      FieldPrefixRejected(fs[0], k);
    } else {
      assert (h + t)[..k] == h + t[..k - |h|];
      FieldRoundTrip(fs[0], t[..k - |h|]);
      FieldsPrefixRejected(fs[1..], more, k - |h|);
    }
  }

  lemma AllFieldsPrefixRejected(fs: seq<Field>, k: nat)
    requires FieldsOk(fs) && k < |PutFields(fs)|
    ensures GetFields(Kinds(fs), PutFields(fs)[..k]) == None
  {
    assert Kinds(fs) + [] == Kinds(fs);
    FieldsPrefixRejected(fs, [], k);
  }

  lemma {:induction false} PutFieldsConcat(a: seq<Field>, b: seq<Field>)
    ensures PutFields(a + b) == PutFields(a) + PutFields(b)
  {
    if a == [] {
      assert a + b == b;
    } else {
      assert (a + b)[1..] == a[1..] + b;
      PutFieldsConcat(a[1..], b);
    }
  }

  lemma {:induction false} PutFieldsLength(fs: seq<Field>)
    ensures |PutFields(fs)| >= |fs|
  {
    if fs != [] {
      PutFieldsLength(fs[1..]);
    }
  }
}
