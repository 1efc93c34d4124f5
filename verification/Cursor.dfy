/** The encoder and decoder of dlq/wal_codec.go as objects: a buffer that grows and a
    cursor with a sticky error. Their methods are proved against the pure format. */
module Cursor {
  import opened Records
  import opened Codec
  import opened RecordCodec

  class Encoder {
    var b: Bytes
    ghost var fields: seq<Field> // what b spells

    ghost predicate Valid()
      reads this
    {
      b == PutFields(fields)
    }

    constructor ()
      ensures Valid() && fields == []
    {
      b, fields := [], [];
    }

    method Put(bytes: Bytes, ghost f: Field)
      requires Valid() && bytes == PutField(f)
      modifies this
      ensures Valid() && fields == old(fields) + [f]
    {
      PutFieldsSnoc(fields, f);
      b, fields := b + bytes, fields + [f];
    }

    method U8(v: byte)
      requires Valid()
      modifies this
      ensures Valid() && fields == old(fields) + [FByte(v)]
    {
      Put([v], FByte(v));
    }

    method Uvarint(v: nat)
      requires Valid()
      modifies this
      ensures Valid() && fields == old(fields) + [FUint(v)]
    {
      Put(PutUvarint(v), FUint(v));
    }

    method Varint(v: int)
      requires Valid()
      modifies this
      ensures Valid() && fields == old(fields) + [FInt(v)]
    {
      Put(PutUvarint(ZigZag(v)), FInt(v));
    }

    method Str(s: Text)
      requires Valid()
      modifies this
      ensures Valid() && fields == old(fields) + [FText(s)]
    {
      Put(PutUvarint(|s|) + s, FText(s));
    }

    /** nil and empty are written differently: 0 for nil, length + 1 otherwise. */
    method Nullable(o: Option<Bytes>)
      requires Valid()
      modifies this
      ensures Valid() && fields == old(fields) + [FBlob(o)]
    {
      if o.None? {
        Put(PutUvarint(0), FBlob(o));
      } else {
        Put(PutUvarint(|o.value| + 1) + o.value, FBlob(o));
      }
    }

    method Time(t: Time)
      requires Valid()
      modifies this
      ensures Valid() && fields == old(fields) + [FTime(t)]
    {
      var ns := 0;
      if t != ZERO_TIME {
        ns := t - UNIX_EPOCH;
        if ns == 0 {
          ns := 1;
        }
      }
      Put(PutUvarint(ZigZag(ns)), FTime(t));
    }

    method Headers(hs: seq<Header>)
      requires Valid()
      modifies this
      ensures Valid() && fields == old(fields) + HeaderFields(hs)
    {
      for i := 0 to |hs|
        invariant Valid() && fields == old(fields) + HeaderFields(hs[..i])
      {
        Str(hs[i].key);
        Nullable(hs[i].value);
        assert hs[..i + 1][..i] == hs[..i];
      }
      assert hs[..|hs|] == hs;
    }

    method Origin(s: Source)
      requires Valid()
      modifies this
      ensures Valid() && fields == old(fields) + [FText(s.kind), FText(s.name), FInt(s.partition), FInt(s.offset)]
    {
      Str(s.kind);
      Str(s.name);
      Varint(s.partition);
      Varint(s.offset);
    }

    method Identity(r: Record)
      requires Valid()
      modifies this
      ensures Valid() && fields == old(fields) + [FText(r.id), FUint(r.seqNo), FByte(StateByte(r.state))]
    {
      Str(r.id);
      Uvarint(r.seqNo);
      U8(StateByte(r.state));
    }

    method Head(r: Record)
      requires Valid()
      modifies this
      ensures Valid() && fields == old(fields) + HeadFields(r)
    {
      Identity(r);
      Origin(r.source);
      Nullable(r.key);
      Nullable(r.value);
      Uvarint(|HeaderList(r.headers)|);
    }

    method Times(r: Record)
      requires Valid()
      modifies this
      ensures Valid()
      ensures fields == old(fields) + [FTime(r.firstFailed), FTime(r.lastFailed), FTime(r.nextAttempt)]
    {
      Time(r.firstFailed);
      Time(r.lastFailed);
      Time(r.nextAttempt);
    }

    method Waiting(r: Record)
      requires Valid()
      modifies this
      ensures Valid() && fields == old(fields) + [FText(r.orderKey), FText(r.blockedOn), FUint(AsUint64(r.attempts))]
    {
      hide AsUint64;
      Str(r.orderKey);
      Str(r.blockedOn);
      Uvarint(AsUint64(r.attempts));
    }

    method Outcome(r: Record)
      requires Valid()
      modifies this
      ensures Valid() && fields == old(fields) + [FText(r.lastError), FBlob(r.checkpoint), FUint(AsUint64(r.schemaVersion))]
    {
      hide AsUint64;
      Str(r.lastError);
      Nullable(r.checkpoint);
      Uvarint(AsUint64(r.schemaVersion));
    }

    method Tail(r: Record)
      requires Valid()
      modifies this
      ensures Valid() && fields == old(fields) + TailFields(r)
    {
      hide AsUint64;
      Waiting(r);
      Times(r);
      Outcome(r);
    }

    method EncodeRecord(r: Record)
      requires Valid() && fields == []
      modifies this
      ensures b == PutRecord(r)
    {
      Head(r);
      Headers(HeaderList(r.headers));
      Tail(r);
      PutThree(HeadFields(r), HeaderFields(HeaderList(r.headers)), TailFields(r));
    }
  }

  lemma PutThree(h: seq<Field>, m: seq<Field>, t: seq<Field>)
    ensures PutFields([] + h + m + t) == PutFields(h) + (PutFields(m) + PutFields(t))
  {
    assert [] + h + m + t == h + (m + t);
    PutFieldsConcat(h, m + t);
    PutFieldsConcat(m, t);
  }

  lemma PutFieldsSnoc(fs: seq<Field>, f: Field)
    ensures PutFields(fs + [f]) == PutFields(fs) + PutField(f)
  {
    PutFieldsConcat(fs, [f]);
    assert [f][1..] == [];
    assert PutFields([f]) == PutField(f);
  }

  /** How far a straight line of reads has come: every field so far is what the list
      reading gives, or one has failed and so has the list reading. */
  ghost predicate Reading(ks: seq<Kind>, b0: Bytes, done: seq<Field>, b: Bytes, err: bool) {
    && |done| <= |ks|
    && (err ==> GetFields(ks, b0) == None)
    && (!err ==> GetFields(ks[..|done|], b0) == Some((done, b)))
  }

  function Snoc(fs: seq<Field>, next: Option<(Field, Bytes)>): Option<(seq<Field>, Bytes)> {
    var (f, rest) :- next;
    Some((fs + [f], rest))
  }

  lemma {:induction false} GetFieldsSnoc(ks: seq<Kind>, k: Kind, b: Bytes)
    ensures GetFields(ks, b).None? ==> GetFields(ks + [k], b) == None
    ensures GetFields(ks, b).Some? ==>
              GetFields(ks + [k], b) == Snoc(GetFields(ks, b).value.0, GetField(k, GetFields(ks, b).value.1))
  {
    if ks == [] {
      assert [k][1..] == [];
      assert ks + [k] == [k];
      var u := GetField(k, b);
      if u.Some? {
        assert GetFields([], u.value.1) == Some(([], u.value.1));
        assert [u.value.0] + [] == [] + [u.value.0];
      }
    } else {
      assert (ks + [k])[1..] == ks[1..] + [k];
      var r := GetField(ks[0], b);
      if r.Some? {
        GetFieldsSnoc(ks[1..], k, r.value.1);
        var t := GetFields(ks[1..], r.value.1);
        if t.Some? {
          var u := GetField(k, t.value.1);
          if u.Some? {
            assert [r.value.0] + (t.value.0 + [u.value.0]) == ([r.value.0] + t.value.0) + [u.value.0];
          }
        }
      }
    }
  }

  lemma {:induction false} GetFieldsFails(ks: seq<Kind>, n: nat, b: Bytes)
    requires n <= |ks| && GetFields(ks[..n], b) == None
    ensures GetFields(ks, b) == None
    decreases |ks| - n
  {
    if n < |ks| {
      GetFieldsSnoc(ks[..n], ks[n], b);
      assert ks[..n] + [ks[n]] == ks[..n + 1];
      GetFieldsFails(ks, n + 1, b);
    } else {
      assert ks[..n] == ks;
    }
  }

  lemma ReadingStep(ks: seq<Kind>, b0: Bytes, done: seq<Field>, b: Bytes, err: bool, v: Field, b': Bytes, err': bool)
    requires Reading(ks, b0, done, b, err) && |done| < |ks|
    requires err ==> err'
    requires !err ==> (err' <==> GetField(ks[|done|], b).None?)
    requires !err' ==> GetField(ks[|done|], b) == Some((v, b'))
    ensures Reading(ks, b0, done + [v], b', err')
  {
    if !err {
      var n := |done|;
      assert ks[..n + 1] == ks[..n] + [ks[n]];
      GetFieldsSnoc(ks[..n], ks[n], b0);
      if err' {
        GetFieldsFails(ks, n + 1, b0);
      }
    }
  }

  lemma {:induction false} HeaderKindAt(n: nat, i: nat)
    requires i < n
    ensures HeaderKinds(n)[2 * i] == KText && HeaderKinds(n)[2 * i + 1] == KBlob
  {
    if i < n - 1 {
      HeaderKindAt(n - 1, i);
    }
  }

  class Decoder {
    var b: Bytes
    var err: bool

    constructor (body: Bytes)
      ensures b == body && !err
    {
      b, err := body, false;
    }

    /** What every read promises: v is the next field, or the error is set for good. */
    twostate predicate Took(k: Kind, v: Field)
      reads this
    {
      && (old(err) ==> err)
      && (!old(err) ==> (err <==> GetField(k, old(b)).None?))
      && (!err ==> GetField(k, old(b)) == Some((v, b)))
    }

    method U8() returns (v: byte)
      modifies this
      ensures Took(KByte, FByte(v))
    {
      if err || |b| < 1 {
        err := true;
        return 0;
      }
      v := b[0];
      b := b[1..];
    }

    method Uvarint() returns (v: nat)
      modifies this
      ensures Took(KUint, FUint(v))
      ensures err ==> v == 0 && b == old(b)
    {
      v := 0;
      if err {
        return;
      }
      match GetUvarint(b) {
        case None => err := true;
        case Some((n, rest)) => v, b := n, rest;
      }
    }

    method Varint() returns (v: int)
      modifies this
      ensures Took(KInt, FInt(v))
      ensures err ==> v == 0
    {
      var u := Uvarint();
      v := UnZigZag(u);
    }

    method Take(n: nat) returns (s: Bytes)
      modifies this
      ensures err <==> old(err) || n > |old(b)|
      ensures !err ==> Codec.Take(old(b), n) == Some((s, b))
    {
      if err || n > |b| {
        err := true;
        return [];
      }
      s, b := b[..n], b[n..];
    }

    method Str() returns (s: Text)
      modifies this
      ensures Took(KText, FText(s))
    {
      var n := Uvarint();
      s := Take(n);
    }

    method Nullable() returns (o: Option<Bytes>)
      modifies this
      ensures Took(KBlob, FBlob(o))
    {
      var n := Uvarint();
      if n == 0 {
        return None;
      }
      var s := Take(n - 1);
      o := Some(s);
    }

    method Time() returns (t: Time)
      modifies this
      ensures Took(KTime, FTime(t))
    {
      var ns := Varint();
      t := NanosTime(ns);
    }

    /** One field of the given kind. */
    method Field(k: Kind) returns (f: Field)
      modifies this
      ensures KindOf(f) == k && Took(k, f)
    {
      match k {
        case KByte => var v := U8(); f := FByte(v);
        case KUint => var v := Uvarint(); f := FUint(v);
        case KInt => var v := Varint(); f := FInt(v);
        case KText => var v := Str(); f := FText(v);
        case KBlob => var v := Nullable(); f := FBlob(v);
        case KTime => var v := Time(); f := FTime(v);
      }
    }

    /** The list reading that a run of reads amounts to, sticky error included. */
    twostate predicate TookAll(ks: seq<Kind>, fs: seq<Field>)
      reads this
    {
      && (old(err) ==> err)
      && (!old(err) ==> (err <==> GetFields(ks, old(b)).None?))
      && (!err ==> GetFields(ks, old(b)) == Some((fs, b)))
    }

    method Fields(ks: seq<Kind>) returns (fs: seq<Field>)
      modifies this
      ensures Shaped(fs, ks) && TookAll(ks, fs)
    {
      fs := [];
      for i := 0 to |ks|
        invariant Shaped(fs, ks[..i])
        invariant old(err) ==> err
        invariant !old(err) ==> Reading(ks, old(b), fs, b, err)
      {
        ghost var b1, err1 := b, err;
        var f := Field(ks[i]);
        if !old(err) {
          ReadingStep(ks, old(b), fs, b1, err1, f, b, err);
        }
        fs := fs + [f];
      }
      assert ks[..|ks|] == ks;
    }

    /** n headers, stopping at the first error. */
    method Headers(n: nat) returns (hs: seq<Header>)
      modifies this
      ensures old(err) ==> err
      ensures !old(err) ==> (err <==> GetFields(HeaderKinds(n), old(b)).None?)
      ensures !err ==> GetFields(HeaderKinds(n), old(b)).value.1 == b
      ensures !err ==> hs == ToHeaders(GetFields(HeaderKinds(n), old(b)).value.0)
    {
      hs := [];
      var i := 0;
      ghost var fs: seq<Codec.Field>, ks := [], HeaderKinds(n);
      while i < n && !err
        invariant 0 <= i <= n && |fs| == 2 * i && hs == ToHeaders(fs)
        invariant old(err) ==> err
        invariant !old(err) ==> Reading(ks, old(b), fs, b, err)
        decreases n - i
      {
        HeaderKindAt(n, i);
        ghost var b1, err1 := b, err;
        var k := Str();
        ReadingStep(ks, old(b), fs, b1, err1, FText(k), b, err);
        b1, err1 := b, err;
        var v := Nullable();
        ReadingStep(ks, old(b), fs + [FText(k)], b1, err1, FBlob(v), b, err);
        ToHeadersSnoc(fs, FText(k), FBlob(v));
        assert fs + [FText(k)] + [FBlob(v)] == fs + [FText(k), FBlob(v)];
        fs := fs + [FText(k), FBlob(v)];
        hs := hs + [Header(k, v)];
        i := i + 1;
      }
      if !err {
        assert ks[..2 * n] == ks;
      }
    }

    /** decodeRecord: the record GetRecord reads, or the error set. */
    method DecodeRecord() returns (r: Option<Record>)
      modifies this
      ensures old(err) ==> err
      ensures !old(err) ==> (err <==> GetRecord(old(b)).None?)
      ensures !err ==> r.Some? && GetRecord(old(b)) == Some((r.value, b))
    {
      var hd := Fields(HEAD_KINDS);
      assert KindOf(hd[9]) == HEAD_KINDS[9];
      var n, hs := hd[9].n, [];
      if n > |b| {
        err := true;
        return None;
      }
      hs := Headers(n);
      var tl := Fields(TAIL_KINDS);
      r := Assemble(hd, hs, tl);
      if r.None? {
        err := true;
      }
    }

    /** The end of a body: leftover bytes are an error. */
    method Done() returns (ok: bool)
      modifies this`err
      ensures ok == !err
      ensures err <==> old(err) || b != []
    {
      if !err && |b| != 0 {
        err := true;
      }
      ok := !err;
    }
  }
}
