/** Payloads on disk (dlq/wal_blob.go): a record in memory keeps its metadata and two
    references, one to the frame that holds its body and one to the frame that holds its
    checkpoint, often the same. */
module Blobs {
  import opened Records
  import opened Entries

  /** A segment by its first LSN, or a snapshot by its LSN. */
  datatype FileKey = FileKey(snap: bool, id: nat)

  datatype Ref = Ref(key: FileKey, off: nat)

  /** What a frame that a reference may point at holds. */
  datatype Blob =
    | Whole(rec: Record)                  // an appended record, or one in a snapshot
    | Progress(id: Text, cp: Option<Bytes>) // a checkpoint, or a requeue that replaces one

  /** Every frame ever written. Frames are written once; deleting a file takes it out of
      use but never changes what its frames were. */
  type Frames = map<Ref, Blob>

  datatype Refs = Refs(body: Option<Ref>, ckpt: Option<Ref>)

  /** A record without the parts that live on disk. */
  function Meta(r: Record): Record { r.(key := None, value := None, headers := None, checkpoint := None) }

  /** An entry without what stays on disk. */
  function MetaEntry(e: Entry): Entry {
    match e
    case Append(rec) => Append(Meta(rec))
    case Checkpoint(id, _) => Checkpoint(id, None)
    case Requeue(id, Some(_)) => Requeue(id, Some(None))
    case _ => e
  }

  function WithBody(m: Record, full: Record): Record {
    m.(key := full.key, value := full.value, headers := full.headers)
  }

  /** The metadata m with everything else taken from full. */
  function WithPayload(m: Record, full: Record): Record {
    WithBody(m, full).(checkpoint := full.checkpoint)
  }

  function LoadRecord(fs: Frames, ref: Ref, id: Text): Option<Record> {
    if ref in fs && fs[ref].Whole? && fs[ref].rec.id == id then Some(fs[ref].rec) else None
  }

  function LoadCheckpoint(fs: Frames, ref: Ref, id: Text): Option<Option<Bytes>> {
    if ref !in fs then None
    else
      match fs[ref]
      case Whole(rec) => if rec.id == id then Some(rec.checkpoint) else None
      case Progress(got, cp) => if got == id then Some(cp) else None
  }

  /** hydrate: the full record, or nothing if a frame is missing or another record's. */
  function Hydrate(fs: Frames, m: Record, refs: Refs): Option<Record> {
    if refs.body.None? then
      if refs.ckpt.None? then Some(m)
      else
        var cp :- LoadCheckpoint(fs, refs.ckpt.value, m.id);
        Some(m.(checkpoint := cp))
    else
      var full :- LoadRecord(fs, refs.body.value, m.id);
      if refs.ckpt == refs.body then Some(WithPayload(m, full))
      else if refs.ckpt.None? then Some(WithBody(m, full))
      else
        var cp :- LoadCheckpoint(fs, refs.ckpt.value, m.id);
        Some(WithBody(m, full).(checkpoint := cp))
  }

  /** The references lead to the frames that hold full. */
  ghost predicate Resolves(fs: Frames, refs: Refs, full: Record) {
    && refs.body.Some? && HoldsBody(fs, refs.body.value, full)
    && (if refs.ckpt.None? then full.checkpoint.None? else HoldsCheckpoint(fs, refs.ckpt.value, full))
  }

  predicate HoldsBody(fs: Frames, ref: Ref, full: Record) {
    && ref in fs && fs[ref].Whole? && fs[ref].rec.id == full.id
    && fs[ref].rec.key == full.key && fs[ref].rec.value == full.value && fs[ref].rec.headers == full.headers
  }

  predicate HoldsCheckpoint(fs: Frames, ref: Ref, full: Record) {
    LoadCheckpoint(fs, ref, full.id) == Some(full.checkpoint)
  }

  /** References that resolve hydrate to the record itself, whatever its metadata. */
  lemma ResolvedHydrates(fs: Frames, refs: Refs, full: Record, m: Record)
    requires Resolves(fs, refs, full) && m == Meta(m) && m.id == full.id
    ensures Hydrate(fs, m, refs) == Some(WithPayload(m, full))
  {
  }

  /** Whatever the references, what hydrates has the metadata it was asked with, and payload
      only from frames of that very record. */
  lemma HydratedIs(fs: Frames, m: Record, refs: Refs)
    requires Hydrate(fs, m, refs).Some?
    ensures var r := Hydrate(fs, m, refs).value;
            && r == m.(key := r.key, value := r.value, headers := r.headers, checkpoint := r.checkpoint)
            && (refs.body.Some? ==>
                 && refs.body.value in fs && fs[refs.body.value].Whole? && fs[refs.body.value].rec.id == m.id
                 && WithBody(m, fs[refs.body.value].rec) == WithBody(m, r))
            && (refs.ckpt.Some? ==> LoadCheckpoint(fs, refs.ckpt.value, m.id) == Some(r.checkpoint))
  {
  }

  /** A checkpoint is only ever read from a frame that says it is this record's. */
  lemma CheckpointOwned(fs: Frames, ref: Ref, id: Text)
    requires LoadCheckpoint(fs, ref, id).Some?
    ensures ref in fs && match fs[ref] { case Whole(rec) => rec.id == id && LoadCheckpoint(fs, ref, id) == Some(rec.checkpoint)
                                         case Progress(got, cp) => got == id && LoadCheckpoint(fs, ref, id) == Some(cp) }
  {
  }

  /** Frames are written once: what was resolved stays resolved. */
  lemma ResolvesLater(fs: Frames, fs': Frames, refs: Refs, full: Record)
    requires Resolves(fs, refs, full) && forall r <- fs :: r in fs' && fs'[r] == fs[r]
    ensures Resolves(fs', refs, full)
  {
  }
}
