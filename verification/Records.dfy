/** The data a dead-letter store holds (dlq/record.go, dlq/store.go), and the small
    vocabulary every other module shares. Go strings and byte slices are both byte
    sequences here; a slice that may be nil is an Option. */
module Records {

  datatype Option<+T> = None | Some(value: T) {
    predicate IsFailure() { None? }

    function PropagateFailure<U>(): Option<U>
      requires None?
    {
      None
    }

    function Extract(): T
      requires Some?
    {
      value
    }
  }

  type byte = x: int | 0 <= x < 256
  type Bytes = seq<byte>
  type Text = Bytes

  // Instants are nanoseconds since Go's zero time, which is the instant 0 itself.
  // Stored times may lie before it.
  type Time = int
  const ZERO_TIME: Time := 0
  // 1 January 1970 on that scale.
  const UNIX_EPOCH: Time := 62135596800 * 1000000000

  const TWO_31 := 0x8000_0000
  const TWO_32 := 0x1_0000_0000
  const TWO_63 := 0x8000_0000_0000_0000
  const TWO_64 := 0x1_0000_0000_0000_0000

  datatype State = Pending | Leased | Parked

  datatype Header = Header(key: Text, value: Option<Bytes>)

  datatype Source = Source(kind: Text, name: Text, partition: int, offset: int)

  datatype Record = Record(
    id: Text,
    seqNo: nat,
    state: State,
    source: Source,
    key: Option<Bytes>,
    value: Option<Bytes>,
    headers: Option<seq<Header>>,
    orderKey: Text,
    blockedOn: Text,
    attempts: int,
    firstFailed: Time,
    lastFailed: Time,
    nextAttempt: Time,
    lastError: Text,
    checkpoint: Option<Bytes>,
    schemaVersion: int)

  function BlobLen(o: Option<Bytes>): nat {
    if o.Some? then |o.value| else 0
  }

  function HeaderList(h: Option<seq<Header>>): seq<Header> {
    if h.Some? then h.value else []
  }

  function HeadersLen(hs: seq<Header>): nat {
    if hs == [] then 0 else |hs[0].key| + BlobLen(hs[0].value) + HeadersLen(hs[1..])
  }

  /** What key, value and headers take up; the checkpoint is counted apart. */
  function BodySize(r: Record): nat {
    BlobLen(r.key) + BlobLen(r.value) + HeadersLen(HeaderList(r.headers))
  }

  /** The bytes a record is charged for. */
  function Size(r: Record): nat {
    |r.id| + BodySize(r) + BlobLen(r.checkpoint) + |r.orderKey| + |r.blockedOn| +
    |r.lastError| + |r.source.kind| + |r.source.name| + 64
  }

  const MAX_ID_LEN := 256
  const CURRENT_SCHEMA := 1

  predicate ValidRecord(r: Record) {
    && 0 < |r.id| <= MAX_ID_LEN
    && 0 <= r.attempts
    && r.state != Leased
  }

  const NO_RECORD := Record([], 0, Pending, Source([], [], 0, 0), None, None, None, [], [], 0, 0, 0, 0, [], None, 0)

  /** What a record is charged: 64 bytes, and every byte of its texts once ... */
  lemma SizeOfTexts(r: Record, text: Text)
    ensures Size(r.(id := text)) == Size(r.(id := [])) + |text|
    ensures Size(r.(orderKey := text)) == Size(r.(orderKey := [])) + |text|
    ensures Size(r.(blockedOn := text)) == Size(r.(blockedOn := [])) + |text|
    ensures Size(r.(lastError := text)) == Size(r.(lastError := [])) + |text|
    ensures Size(r.(source := r.source.(kind := text))) == Size(r.(source := r.source.(kind := []))) + |text|
    ensures Size(r.(source := r.source.(name := text))) == Size(r.(source := r.source.(name := []))) + |text|
    ensures Size(NO_RECORD) == 64
  {
    assert HeadersLen([]) == 0;
    hide HeadersLen;
  }

  /** ... and of its payloads ... */
  lemma SizeOfBlobs(r: Record, blob: Bytes)
    ensures Size(r.(key := Some(blob))) == Size(r.(key := None)) + |blob|
    ensures Size(r.(value := Some(blob))) == Size(r.(value := None)) + |blob|
    ensures Size(r.(checkpoint := Some(blob))) == Size(r.(checkpoint := None)) + |blob|
  {
    hide HeadersLen;
  }

  /** ... and of its headers. */
  lemma SizeOfHeaders(r: Record, h: Header)
    ensures Size(r.(headers := Some([h] + HeaderList(r.headers)))) ==
              Size(r) + |h.key| + if h.value.Some? then |h.value.value| else 0
  {
    var hs := [h] + HeaderList(r.headers);
    assert hs[0] == h && hs[1..] == HeaderList(r.headers);
    assert HeadersLen(hs) == |h.key| + BlobLen(h.value) + HeadersLen(HeaderList(r.headers));
    hide HeadersLen;
  }
}
