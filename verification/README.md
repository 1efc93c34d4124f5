# A verified model of GoGuardLib

A Dafny model of the parts of GoGuardLib that decide whether work survives: the durable
dead-letter store and its write-ahead log, the Kafka consumer's partition protocol, the
resumable saga pipeline, and the redriver, rolling window and circuit breaker around them.
`dafny verify dfyconfig.toml` checks everything.

## How it is built

The store, bottom up:

- `Records`, `Codec`, `RecordCodec`, `Cursor`: records and their bytes. `Codec` and
  `RecordCodec` say what is written and read; `Cursor` holds the encoder, which appends to
  its buffer, and the decoder, which advances with a sticky error.
- `Chunks`, `Frames`, `Formats`, `Entries`: frames, file headers and log entries, cut at any
  byte, and which bytes read as what.
- `Queues`, `Store`, `Effects`: what every operation makes of the queue, live and in replay,
  runs of calls with leases, tokens and order keys, and what each call changes in the terms
  of those who make it.
- `Recovery`, `Wal`, `WalSafety`, `WalCrash`, `WalReopen`, `WalAck`, `WalLost`: the log protocol.
  Writers, the fsync loop, rotation, snapshots and swaps are atomic steps in any order; a
  crash keeps the fsynced bytes and any prefix of the rest, and of the files whose directory
  entry is not synced any that chance leaves; recovery reads files byte by byte; then the
  next process goes on. These modules know nothing of queues.
- `SnapshotCodec`, `SnapshotDamage`, `DurableQueue`, `DurableStore`: the two put together. A
  node is a live queue with its log, and a run mixes calls, background work and crashes.
- `TornTail`, `AnyDisk`: exactly when a log opens after a crash, and what opening promises
  whatever bytes are on disk.
- `Opening`: recovery as the loops it is, reading bytes, equal to `Recovery.Recover`.
- `MachineIndex`, `Selection`, `Machine`: the in-memory state machine with its incremental
  index, as a class.
- `Blobs`, `Compaction`, `ThreeStepLease`: payloads on disk, compaction that releases the
  lock while it copies, and leases that release it while they read.
- `Reload`, `OffloadedReload`: recovery into that machine, over runs of the durable store,
  with payloads in memory and on disk.
- `PoisonPill`: the redriver's attempt budget over runs of the durable store.

The consumer: `ConsumerState` (one partition), `ConsumerPool` (all of them and everything
in flight), `ConsumerLines` (keys), `ConsumerSteps` (each step of the loop as a function of
its state), `Consumer` (the class that carries them out), `ConsumerRuns` (whole runs),
`ConsumerHistory` (what was delivered, reported and safe over time), `Redelivery` (what is
delivered twice), and `KeyOrder` (the consumer running beside the store and everyone else
who calls it).

The rest: `SagaLog` and `Saga` (histories of a stored record, and the code that makes
them), `Limiter`, `Window`, `Breaker`.

Conventions: times are nanoseconds since Go's zero time and come in as parameters, as do
tokens, random draws, handler outcomes and what the broker or disk does. CRC-32C is a
parameter about which nothing is assumed. Go strings and byte slices are sequences of
bytes; a nil slice is `None`. Fields such as `hist`, `past`, `lines` and `history` record
what happened and are never read by the code. Where code and documentation differ the
model follows the code.

## What turned out false

- `Store.Append` documents that nil means stored durably. Two inputs break it, and
  `WalAck.LostIff` says for every reachable state and entry that there are no others.
  - A duplicate Append with nothing written since the log was opened: after a process crash
    the next process does not fsync what it finds, and such a call waits for nothing. A
    power failure can then lose the entry (`WalLost.DuplicateAppendLost`).
    `WalAck.DuplicateLostIff` is the exact condition.
  - Any call, if the process dies in a rotation after the new segment's header and before
    the directory sync. The next process opens on that segment and does not sync the
    directory, so a power failure can take the file with every fsynced entry in it
    (`WalLost.OrdinaryAppendLost`). `WalAck.NilLostIff` is the exact condition: a process
    opened on such a segment and no directory sync has come since.
- A snapshot that was renamed and whose directory entry was not synced is loaded, and what
  it covers is deleted. A power failure can then take the snapshot. The log is refused, not
  opened with a hole (`WalAck.MissingRefused`), and `WalAck.BreaksIff` is the exact
  condition.
- `Breaker.Refusing` is sound when each call is one step. With the probe flag swapped late
  by a call that saw the circuit half-open, an open circuit that is not refusing turns the
  next call down (`Breaker.StragglerRefused`); `Breaker.RefusingSoundIff` is the exact
  condition and `Breaker.Heals` says when it is over.
- After a rewind, messages that already finished are said to be remembered and skipped when
  they are delivered again. One that the frontier passes before it comes again is forgotten,
  and runs again in the same assignment (`Redelivery.FinishedRunsAgain` is such a run).
  `Redelivery.AcceptedIff` is the exact condition, for every delivery of every run: a
  finished message is skipped if and only if the frontier has not passed it.
- A saga step whose compensation ran runs again only under a new epoch if that
  compensation was recorded. One that ran and could not be saved does not count:
  `Saga.LostCompensation` carries it out, and `SagaLog.FreshEpochIff` is the exact
  condition.

## Model

| member | source | states |
|---|---|---|
| `Codec.UvarintRoundTrip` | dlq/wal_codec.go:164-167 | every 64-bit value reads back from its varint, whatever follows |
| `Codec.UvarintPrefixRejected` | dlq/wal_codec.go:219-230 | no strict prefix of a varint reads |
| `Formats.UvarintIs` | dlq/wal_codec.go:164-167 | a varint is the value in base 128, least first, every byte but the last marked, and no longer than needed |
| `Codec.FieldRoundTrip` | dlq/wal_codec.go:164-272 | every encodable field reads back, up to the nudged epoch time |
| `Codec.FieldPrefixRejected` | dlq/wal_codec.go:203-272 | no strict prefix of a field reads |
| `Codec.FieldsPrefixRejected` | dlq/wal_codec.go:203-272 | reading at least the fields of a cut encoding fails |
| `RecordCodec.RecordRoundTrip` | dlq/wal_codec.go:281-341 | decodeRecord inverts encodeRecord, whatever follows, up to an empty header list becoming absent and the epoch nudge |
| `RecordCodec.RecordPrefixRejected` | dlq/wal_codec.go:281-341 | no strict prefix of an encoded record decodes |
| `RecordCodec.WholeRecordRoundTrip` | dlq/wal_codec.go:274-341 | the same for a body that must be used up |
| `RecordCodec.NormChanges` | dlq/wal_codec.go:281-341 | a record that was written and read is the same in every field but times at the Unix epoch and a header list that is there and empty |
| `RecordCodec.DecodedLegal` | dlq/wal_codec.go:307-341 | whatever bytes are read, a decoded record has no negative attempts |
| `Cursor.Encoder.Nullable` | dlq/wal_codec.go:175-182 | appends the encoding of a slice that may be nil |
| `Cursor.Encoder.Time` | dlq/wal_codec.go:185-195 | appends the encoding of a time, the epoch nudged |
| `Cursor.Encoder.EncodeRecord` | dlq/wal_codec.go:281-305 | appends exactly the record's encoding to the buffer |
| `Cursor.Decoder.Take` | dlq/wal_codec.go:246-254 | takes n bytes, or sets the sticky error when n is more than is left |
| `Cursor.Decoder.Fields` | dlq/wal_codec.go:203-272 | reads what GetFields reads, or the error is set |
| `Cursor.Decoder.Headers` | dlq/wal_codec.go:307-341 | reads n headers, stopping at the first error |
| `Cursor.Decoder.DecodeRecord` | dlq/wal_codec.go:307-341 | reads exactly the record GetRecord reads and advances past it, or the error is set |
| `Cursor.Decoder.Done` | dlq/wal_codec.go:274-279 | left-over bytes are an error |
| `Chunks.CutScan` | dlq/wal_codec.go:130-161 | a run of chunks cut at any byte reads as the whole ones before the cut, then end or torn |
| `Frames.HeaderRoundTrip` | dlq/wal_codec.go:64-101 | a file header names the LSN it was written with |
| `Frames.FrameRoundTrip` | dlq/wal_codec.go:104-161 | a frame within the entry limit reads back, whatever follows |
| `Frames.FrameCutIsTorn` | dlq/wal_codec.go:130-161 | a frame cut anywhere inside reads as torn and nothing else |
| `Frames.CutFramesRead` | dlq/wal_codec.go:104-161 | any byte truncation of a frame sequence yields exactly the whole frames before the cut, then EOF or torn |
| `Formats.LittleEndian` | dlq/wal_codec.go:104-127 | byte i of a written integer is its i-th base 256 digit |
| `Formats.FrameLayout` | dlq/wal_codec.go:104-127 | where length, checksum, number, type and body of a frame lie, and what the checksum covers |
| `Formats.FrameReadsIff` | dlq/wal_codec.go:130-161 | bytes read as a frame if and only if they begin with what writing that frame gives, within the entry limit |
| `Formats.HeaderLayout` | dlq/wal_codec.go:64-76 | where magic, version, flags, LSN and checksum of a file header lie |
| `Formats.HeaderReadsIff` | dlq/wal_codec.go:77-101 | a header names an LSN if and only if everything but its reserved bytes is what would be written for it |
| `Entries.EntryRoundTrip` | dlq/wal_store.go:763-842 | every entry the store writes decodes to itself, up to the codec's normalisation |
| `Entries.NormEntryChanges` | dlq/wal_store.go:763-842 | an entry that was written and read is the same but for times at the Unix epoch, and an appended record for what its own trip changes |
| `Entries.NeverAppendsLeased` | dlq/wal_store.go:763-842 | whatever bytes are read, an entry never appends a leased record |
| `Queues.ReplayView` | dlq/wal_store.go:763-842 | each replayed entry keeps queues that differ only in Leased against Pending, or in normalised times, indistinguishable |
| `Queues.EndReplayIsSettled` | dlq/machine.go:648-656 | endReplay turns every lease into pending and changes nothing else |
| `Queues.SnapshotCut` | dlq/wal_snapshot.go:328-418 | loading a snapshot taken at an entry and replaying only later entries gives the queue that replaying the whole log gives: records, attempts, order and next Seq; per-key lists and byte total are then equal by Reload.SameIndex |
| `Effects.Outcomes` | dlq/wal_write.go:344-717 | what every call answers, and that one which is not done changes nothing |
| `Effects.AppendDoes` | dlq/machine.go:223-238 | the record is stored as prepared, pending or parked, without a lease, and is all that changes |
| `Effects.LeaseDoes` | dlq/machine.go:363-373 | each record is leased under its own token until the given time, counts one more attempt, and is not eligible before that time; no other record changes |
| `Effects.NackDoes` | dlq/machine.go:488-502 | the record is pending, not eligible before next and eligible from then on if it is the first of its key; when and why it failed, and what it is blocked on if that is said; every other field as it was |
| `Effects.ReleaseDoes` | dlq/machine.go:504-510 | the record is pending with the lease not counted, eligible from the time it already waited for; every other field as it was |
| `Effects.ParkDoes` | dlq/machine.go:512-518 | the record is parked with time and reason, and never eligible; every other field as it was |
| `Effects.RequeueDoes` | dlq/machine.go:520-527 | the record is pending with no attempts and no wait, eligible at once if it is the first of its key; the checkpoint is replaced exactly if asked |
| `Effects.CheckpointDoes` | dlq/machine.go:436-441 | only the checkpoint changes; the lease, its end and eligibility do not |
| `Effects.RemoveDoes` | dlq/machine.go:393-422 | the record is gone and nothing else changes |
| `Effects.ReplayTolerates` | dlq/machine.go:608-646 | a replayed entry about a record that is gone changes nothing, nor does a record that is there already, nor a requeue or discard of one not parked; no other record is touched and the next Seq only rises |
| `Effects.EndReplayDoes` | dlq/machine.go:648-656 | every lease is handed back; attempts, backoff, errors, checkpoints and order are as they were |
| `Effects.LeaseLasts` | dlq/machine.go:242-262 | in every run, a record leased at one moment whose token is still its lease at a later one is taken by no call before the time it was leased until; from then on it is eligible again if it is the first of its key |
| `Effects.BackoffHolds` | dlq/machine.go:488-502 | in every run, the first call to take a record after a Nack comes no sooner than the Nack said, and from then on the record is eligible if it is the first of its key |
| `Effects.ParkedStays` | dlq/machine.go:512-527 | in every run, nothing takes a parked record until it is requeued or discarded |
| `Store.StepSound` | dlq/machine.go:242-262 | every call keeps a leased record with an order key the oldest stored one of that key |
| `Store.AlwaysHeadOfLine` | dlq/machine.go:242-262 | the same over every run of calls, with restarts that give a sound queue; that crashes do is DurableStore.HeadOfLineAlways |
| `Store.OneLeasePerKey` | dlq/machine.go:242-262 | at most one record per order key is leased |
| `Store.SupersededStays` | dlq/machine.go:376-385 | a token that is not the current lease never becomes it again, and a call with it is refused and changes nothing |
| `Store.LeaseEnds` | dlq/wal_write.go:579-641 | finishing, failing, releasing, parking or re-leasing a record supersedes its token |
| `Store.FencedForever` | dlq/wal_write.go:579-641 | over every run, a superseded token is refused at every later moment |
| `Store.PerformIsReplay` | dlq/wal_write.go:344-717 | a successful call does to the live queue what replaying its log entry does |
| `Recovery.CutSegmentReplays` | dlq/wal_store.go:618-697 | a segment cut at any byte after its header replays exactly its whole entries from the next one on, passing over those the snapshot covers, or is refused: exactly when the cut is inside an entry and may not be repaired there, or the segment begins after the next entry |
| `TornTail.RepairMeans` | dlq/wal_store.go:699-727 | whether repairTail cuts off what a cut left, in terms of the bytes |
| `TornTail.TornRefusedIff` | dlq/wal_store.go:699-727 | a segment cut at any byte after its header, where replay has come to it, is refused if and only if the cut is inside an entry and the segment is not the last one, or FailOnTruncation is set, or some byte of the searched window after the last whole entry starts what reads as a frame with a later number and a known type |
| `TornTail.RunOpensIff` | dlq/wal_store.go:517-727 | in every reachable state of the durable store and for every crash: the log opens if and only if no entry is missing between the snapshot loaded and the last one left, no header names a segment past that, and the last segment is not cut inside an entry where that may not be repaired |
| `AnyDisk.AppliesIff` | dlq/wal_store.go:653-697 | the frames of a file apply if and only if those past the snapshot are entries numbered without a gap from the next one on, and then each is applied once, in order |
| `AnyDisk.SegmentIff` | dlq/wal_store.go:618-697 | whatever a segment file holds: it is set aside exactly if it is the last, unreadable in its header and not before the next entry; it replays exactly if its header names its start, nothing is missing before it, its frames apply, and it is whole or the last one and repairable; otherwise it is refused |
| `AnyDisk.OpenedMeans` | dlq/wal_store.go:517-613 | whatever bytes are on disk: if the log opens, the newest snapshot is what its name says and the queue is that snapshot with a gapless run of entries applied, read from files that are what their names say, only the last of them torn |
| `WalSafety.StepKeeps` | dlq/wal_write.go:52-248 | every step of every interleaving of writers, syncer, rotation and snapshots keeps: durable <= written, what is counted durable lies in fsynced bytes of its own segment, no sealed segment holds an unsynced entry, snapshots and removed segments still hold what the log holds, and which files the directory may not yet hold |
| `WalSafety.RollBackKeeps` | dlq/wal_write.go:127-162 | cutting off a failed write loses no logged entry, and takes the bytes cut off out of an fsync in flight |
| `WalSafety.SyncEndKeeps` | dlq/wal_write.go:221-248 | an fsync that ends makes durable exactly what it covers, and counts no more |
| `WalSafety.VouchKeeps` | dlq/wal_write.go:344-374 | a duplicate Append waits for the original like everything written since |
| `WalSafety.SwapKeeps` | dlq/wal_snapshot.go:328-373 | trimming segments behind a durable snapshot keeps the chain from the snapshot on |
| `WalCrash.SurvivesIffEnds` | dlq/wal_store.go:618-697 | an entry survives a cut exactly when it ends before it |
| `WalCrash.CutFileReplays` | dlq/wal_store.go:618-727 | reading a cut segment gives exactly the entries that survive, or is refused: exactly when what is left of it does not end well |
| `WalCrash.LoadedSnapshot` | dlq/wal_store.go:517-613 | whichever snapshots a crash leaves, recovery loads a good one or starts empty |
| `WalCrash.ReplayLeft` | dlq/wal_store.go:557-697 | whichever segments are left, in whatever state, replay refuses them, or no entry is missing between them and it gives every entry up to the last |
| `WalCrash.Apart` | dlq/wal_write.go:91-120 | segment files, live or removed, never hold the same entry, and all but the active one are whole |
| `WalCrash.PromiseKept` | dlq/wal_write.go:176-217 | everything counted durable survives every crash that leaves the active segment in the directory |
| `WalCrash.CrashSafe` | dlq/wal_store.go:517-727 | after any crash, whatever bytes and files it leaves, recovery refuses, or gives the queue after the last entry left, with leases handed back; if the active segment is there, everything promised is included |
| `WalCrash.OpensIff` | dlq/wal_store.go:557-613 | a log opens if and only if it holds every entry after its snapshot without a gap and the last file ends well |
| `WalReopen.ReopenKeeps` | dlq/wal_store.go:517-613 | the process that opens after a power failure or the death of a process starts with the invariant, on whatever files are there: new headers and renamed snapshots short of their directory sync included |
| `WalReopen.FreshKeeps` | dlq/wal_store.go:409-469 | a new, empty log satisfies the invariant |
| `WalReopen.LifeKeeps` | dlq/wal_store.go:409-469 | the invariant holds through any number of crashes |
| `WalReopen.SyncCovers` | dlq/wal_write.go:221-248 | while an fsync is in flight, the bytes it will make durable are bytes the file held when it began, whatever is written or cut off meanwhile |
| `WalReopen.PromisesKept` | dlq/wal_write.go:176-217 | what was promised once is in the log, unchanged, ever after, over any number of crashes, until one takes the segment being written |
| `WalReopen.Spared` | dlq/wal_write.go:52-75 | the death of the process alone never takes it, nor a power failure after a directory sync |
| `WalAck.AckedKept` | dlq/wal_write.go:176-217 | any nil stays, until a crash takes the segment being written, once a rotation or the syncer has fsynced in its process, or if the entry was on stable storage at opening |
| `WalAck.NilKept` | dlq/wal_write.go:176-217 | a call that waited for a position past 0 and returned nil is in every later log, with all before it, until a crash takes the segment being written |
| `WalAck.LostIff` | dlq/wal_write.go:176-217 | in every reachable state, a crash can lose what a call may vouch for if and only if its process has fsynced nothing, by syncer or rotation, and the entry was not on stable storage at opening, or the entry lies past every file whose directory entry is synced |
| `WalAck.NilLostIff` | dlq/wal_write.go:52-75 | a nil past position 0 about an entry of its own process can be lost if and only if a process opened on a segment whose creation had stopped between header and directory sync, and no directory sync has come since |
| `WalAck.AdriftMeans` | dlq/wal_store.go:699-761 | the count in that condition is that history: an opening on such a segment, and since then no rotation that ended, no snapshot made durable, nothing set aside and no power failure |
| `WalAck.MissingRefused` | dlq/wal_store.go:649-651 | a log with an entry missing between its snapshot and its end is refused |
| `WalAck.BreaksIff` | dlq/wal_store.go:547-562 | a crash that leaves every live segment can leave such a hole if and only if the loaded snapshot's directory entry is unsynced and the segments before it were removed |
| `WalAck.LostIsGone` | dlq/wal_store.go:517-727 | after such a crash the log is refused or opens without the entry |
| `WalAck.DuplicateLostIff` | dlq/wal_write.go:344-374 | a duplicate Append with nothing written since opening returns at once, and its entry can be lost to a power failure if and only if it was not on stable storage at opening and no rotation has come between, or its file is adrift |
| `WalAck.RotatedMeans` | dlq/wal_write.go:91-120 | the flag in that condition is whether a rotation has fsynced the active segment in this process |
| `WalAck.SurvivesIffSynced` | dlq/wal_write.go:221-248 | an entry outlives every crash if and only if it lies in fsynced bytes and in files whose directory entries are synced |
| `WalAck.SyncReleases` | dlq/wal_write.go:221-248 | group commit: an fsync that succeeds lets every call that was waiting when it began return nil |
| `WalAck.RotationReleases` | dlq/wal_write.go:91-120 | so does the fsync of a rotation |
| `WalLost.DuplicateAppendLost` | dlq/wal_write.go:344-374 | a life in which a duplicate Append returned nil and a power failure loses the entry |
| `WalLost.OrdinaryAppendLost` | dlq/wal_write.go:52-75 | a life in which an ordinary Append waited for its fsync and returned nil, and a power failure takes its file |
| `SnapshotCodec.FooterRoundTrip` | dlq/wal_snapshot.go:375-418 | the footer's count and Seq read back |
| `SnapshotCodec.SnapshotLoads` | dlq/wal_snapshot.go:22-92 | loadSnapshot inverts writeSnapshot on the frames |
| `SnapshotCodec.SnapshotRoundTrip` | dlq/wal_snapshot.go:22-92 | the same on the bytes of the file |
| `SnapshotDamage.CutRefused` | dlq/wal_snapshot.go:22-92 | no strict prefix of a snapshot file loads |
| `SnapshotDamage.JunkRefused` | dlq/wal_snapshot.go:22-92 | no snapshot file with anything after its footer loads |
| `SnapshotDamage.LoadsIff` | dlq/wal_snapshot.go:22-92 | frames of records and a footer load if and only if no record is there twice and the footer counts them right |
| `DurableQueue.StoreLawful` | dlq/wal_store.go:763-842 | the queue and its encodings meet everything the log protocol asks of them |
| `DurableStore.CallLogs` | dlq/wal_write.go:344-717 | a successful call is a step of the log protocol |
| `DurableStore.CaptureGood` | dlq/wal_snapshot.go:328-418 | the snapshot a compaction writes loads to the queue it was taken of |
| `DurableStore.RunKeeps` | dlq/wal_store.go:409-727 | queue and log agree in every reachable state |
| `DurableStore.RunCrashSafe` | dlq/wal_store.go:517-727 | in every reachable state of calls, rotations, compactions and crashes, and for every crash: if the log opens, it gives the live queue after some entry, with Leased turned into Pending, and at or past everything promised unless the crash takes the segment being written |
| `DurableStore.RunHonours` | dlq/wal_write.go:176-217 | what was promised at one moment begins the log at every later one, until a crash takes the segment being written |
| `DurableStore.AckedStays` | dlq/wal_write.go:288-291 | the entry of a call that returned nil, and all before it, begin every later log; the exceptions are a duplicate Append that waited for position 0, and a crash that takes the segment being written |
| `DurableStore.AckedLostIff` | dlq/wal_write.go:52-75 | the second exception, exactly: an entry written and acknowledged in this process can be lost if and only if a process opened on a segment whose creation had stopped between header and directory sync, and no directory sync has come since |
| `DurableStore.RunVouched` | dlq/wal_write.go:344-374 | only a duplicate Append ever waits for position 0 |
| `DurableStore.DuplicateLostIff` | dlq/wal_write.go:344-374 | the first exception, exactly: lost if and only if not on stable storage at opening and not rotated since, or its file is adrift |
| `DurableStore.HeadOfLineAlways` | dlq/machine.go:242-262 | in every reachable state, crashes included, a leased record with an order key is the oldest of that key, and at most one per key is leased |
| `DurableStore.FencedAcrossCrashes` | dlq/wal_write.go:579-641 | a superseded token stays refused in this process and the next |
| `DurableStore.LeaseLasts` | dlq/machine.go:242-262 | a lease lasts as long as it says, over runs of the durable store with crashes |
| `PoisonPill.CallMoves` | dlq/machine.go:363-373 | every successful call moves a record's attempts as its log entry says |
| `PoisonPill.AttemptsCover` | dlq/machine.go:488-527 | a record's attempts cover every lease that was not given back since it last started over |
| `PoisonPill.RunTracked` | dlq/wal_write.go:507-525 | in every reachable state the attempts in the queue are those its log counts, crashes included |
| `PoisonPill.StartStays` | dlq/wal_write.go:507-525 | a handler's start leaves its lease in every later log, until a crash takes the segment being written |
| `PoisonPill.AtMostMaxStarts` | dlq/redrive.go:396-420 | over every run the handler starts at most MaxAttempts times on leases of a record that were not refunded or released since it arrived or was requeued, counting starts since a crash last took the segment being written |
| `PoisonPill.BackWithBudget` | dlq/redrive.go:396-512 | however a handler ends, the lease is over, and the record is pending again only with budget for another start |
| `PoisonPill.EndsWith` | dlq/redrive.go:396-512 | which call ends a lease: Ack exactly when the handler succeeded, Park when it failed for good or the budget is used up, Release when the process is stopping, else Nack, refunded exactly when it was refused |
| `Opening.SearchFrame` | dlq/wal_store.go:851-885 | finds whether any byte after the damage starts a valid later frame |
| `Opening.Opener.RepairTail` | dlq/wal_store.go:699-727 | the tail is cut off exactly as Recovery.MayRepair says; TornTail.TornRefusedIff says what that is in bytes |
| `Opening.Opener.ReplayEntries` | dlq/wal_store.go:618-697 | the frame loop computes Recovery.ReplayBody |
| `Opening.Opener.ReplayFile` | dlq/wal_store.go:618-697 | replaySegment computes Recovery.ReplaySegment |
| `Opening.Opener.LoadFile` | dlq/wal_snapshot.go:22-92 | loadSnapshot computes the load of the snapshot codec |
| `Opening.Opener.ReplayFiles` | dlq/wal_store.go:517-613 | the segment loop computes Recovery.ReplaySegments |
| `Opening.Opener.Open` | dlq/wal_store.go:517-613 | recover computes Recovery.Recover |
| `Selection.FirstFitOldest` | dlq/machine.go:266-296 | a scan's first fits are its oldest fits |
| `Selection.OldestOfOldest` | dlq/machine.go:301-346 | the oldest of the groups' oldest are the oldest of all |
| `Selection.Merge` | dlq/machine.go:301-346 | the merge loop takes the max records with the least Seq, in order |
| `Selection.FindBest` | dlq/machine.go:301-346 | finds the list whose head has the least Seq |
| `Machine.InsertOrdered` | dlq/machine.go:103-127 | with any hint, the result is the Seq-sorted list with the record in it |
| `Machine.Machine.Link` | dlq/machine.go:130-143 | groups, parked list and counts stay what a recomputation from all items gives |
| `Machine.Machine.Unlink` | dlq/machine.go:146-164 | the same for a record that leaves, empty groups dropped |
| `Machine.Machine.Move` | dlq/machine.go:169-181 | state and dependency change, the index stays exact, and no cached wake time hides the record |
| `Machine.Machine.Prepare` | dlq/machine.go:186-219 | exactly when a record is invalid, a duplicate, too much or accepted; of an accepted one every field is the caller's but its Seq, a missing failure time and a missing schema version |
| `Machine.Machine.Append` | dlq/machine.go:186-238 | an accepted record is inserted and the limits hold |
| `Machine.Machine.Insert` | dlq/machine.go:223-238 | Queues.Insert, with index and byte total exact |
| `Machine.Machine.InsertOffloaded` | dlq/machine.go:465-486 | the same for a record whose payload stays on disk, charged in full |
| `Machine.Machine.Remove` | dlq/machine.go:393-422 | the record is gone from queue, index and byte total, and the next of its key may go |
| `Machine.Machine.Resize` | dlq/machine.go:387-391 | the byte total is charged for what the record holds now |
| `Machine.Machine.Scan` | dlq/machine.go:266-296 | the first max eligible of a list, and when that could change |
| `Machine.Machine.ScanGroup` | dlq/machine.go:266-296 | the same for a group; a cached wake time never hides a record that is due |
| `Machine.Machine.Collect` | dlq/machine.go:301-346 | groups skipped or asleep have nothing a lease may take |
| `Machine.Machine.Select` | dlq/machine.go:301-346 | selectLease returns exactly the first Max records in Seq order that a plain scan of all items would take |
| `Machine.EligibleMeans` | dlq/machine.go:242-262 | looking at the head of a key's list is the same as there being nothing older of that key |
| `Machine.TakesMeans` | dlq/machine.go:242-346 | what a lease may take: stored, not reserved, due, first of its key, of the dependency asked for and of none to be skipped |
| `Machine.SelectionAllowed` | dlq/machine.go:301-346 | what selectLease returns is a lease that may be granted: at most as many as asked, each once, each eligible |
| `Machine.HeadsOldest` | dlq/machine.go:242-262 | the head of a key's list is its oldest record |
| `Machine.Machine.Reserve` | dlq/machine.go:349-349 | a reserved record is passed over, nothing else changes |
| `Machine.Machine.Unreserve` | dlq/machine.go:352-360 | a released record is seen by the next scan |
| `Machine.Machine.Grant` | dlq/machine.go:363-373 | each record is Leased with one more attempt under the given token until the given time, every other field as it was, and is handed out so; other records are untouched; the queue becomes Store.Grant |
| `Machine.Machine.ApplyNack` | dlq/machine.go:488-502 | the queue's Nack, whose fields and consequence for eligibility are Effects.NackDoes, with the index exact |
| `Machine.Machine.ApplyRelease` | dlq/machine.go:504-510 | the queue's Release (Effects.ReleaseDoes), with the index exact |
| `Machine.Machine.ApplyPark` | dlq/machine.go:512-518 | the queue's Park (Effects.ParkDoes), with the index exact |
| `Machine.Machine.ApplyRequeue` | dlq/machine.go:520-527 | the queue's Requeue (Effects.RequeueDoes), with the index exact |
| `Machine.Machine.SetCheckpoint` | dlq/machine.go:436-441 | the checkpoint is set and charged |
| `Machine.Machine.SetCheckpointRef` | dlq/machine.go:445-450 | a checkpoint on disk is charged |
| `Machine.Machine.ReplayLease` | dlq/machine.go:608-613 | the attempt counts, without a lease |
| `Machine.Machine.ApplyEntry` | dlq/wal_store.go:763-842 | applyEntry does to the indexed machine what Queues.Replay does to the queue |
| `Machine.Machine.EndReplay` | dlq/machine.go:648-656 | every lease is handed back, with the index exact |
| `Machine.Machine.Raise` | dlq/wal_snapshot.go:75-87 | the next Seq of a snapshot footer is taken over |
| `Records.SizeOfTexts` | dlq/record.go:123-130 | a record is charged 64 bytes and every byte of its texts once |
| `Records.SizeOfBlobs` | dlq/record.go:123-130 | and every byte of its payloads once |
| `Records.SizeOfHeaders` | dlq/record.go:123-130 | and every byte of its headers once |
| `Reload.Restore` | dlq/wal_store.go:517-613 | refilling the indexed machine from a snapshot and the entries after it ends in the queue their replay gives, with the index exact |
| `Reload.RunCounts` | dlq/machine.go:186-219 | in every reachable state each logged Append has the next Seq, so numbers rise along every log |
| `Reload.SnapshotReady` | dlq/wal_snapshot.go:22-92 | the records of a snapshot, in order, load to the queue it was taken of |
| `Reload.RunReloads` | dlq/wal_store.go:517-613 | over every run, any snapshot of the history and the entries after it meet what the machine asks of its input, and lead to the queue of that moment |
| `Reload.Reopen` | dlq/wal_store.go:517-613 | after any crash of any run, opening leaves a machine with an exact index that holds what recovery returns |
| `Reload.SameIndex` | dlq/machine.go:103-181 | machines that hold the same queue have the same order, per-key lists, groups, parked list and counts, and the same byte total when payloads are in memory |
| `Machine.Machine.ApplyOffloaded` | dlq/wal_store.go:763-842 | with payloads on disk an entry does to the machine what replaying it without its payload does |
| `OffloadedReload.BareReplay` | dlq/wal_store.go:889-924 | replaying an entry and leaving payloads out commute |
| `OffloadedReload.Restore` | dlq/wal_store.go:517-613 | opening with payloads on disk refills a machine with an exact index that holds the recovered queue but for its payloads |
| `OffloadedReload.Reopen` | dlq/wal_store.go:517-613 | the same after any crash of any run of the durable store |
| `OffloadedReload.RecoveryHydrates` | dlq/wal_store.go:889-924 | the references recovery builds from a snapshot and the entries after it resolve: every recovered record hydrates to itself |
| `Blobs.ResolvedHydrates` | dlq/wal_blob.go:274-295 | references that lead to a record's frames hydrate to that record |
| `Blobs.HydratedIs` | dlq/wal_blob.go:211-295 | whatever the references, what hydrates has the metadata it was asked with, and payload only from frames of that very record |
| `Blobs.CheckpointOwned` | dlq/wal_blob.go:227-250 | a checkpoint is only read from a frame that says it is this record's |
| `Compaction.StepKeeps` | dlq/wal_snapshot.go:163-326 | every step between capture and swap keeps each live record's references resolving in files that exist |
| `Compaction.AbortKeeps` | dlq/wal_snapshot.go:163-268 | a failed copy changes no item, frame or file |
| `Compaction.SwapLeavesNothing` | dlq/wal_snapshot.go:163-268 | after a swap no reference leads into a deleted file |
| `Compaction.SwapFrees` | dlq/wal_snapshot.go:163-268 | over every run, of the files there were at a capture only the active one is left after its swap, and its snapshot is the only one |
| `Compaction.RunHydrates` | dlq/wal_blob.go:274-295 | in every reachable state of every interleaving, every live record reads back as itself |
| `ThreeStepLease.CommitHandsOut` | dlq/wal_write.go:454-525 | what a lease hands out is the stored record after the commit |
| `ThreeStepLease.EligibleAsQueue` | dlq/machine.go:242-262 | a record may be picked exactly if the queue would lease it and nobody has reserved it |
| `ThreeStepLease.ReadIsLeased` | dlq/wal_write.go:454-525 | a candidate whose payload was read is leased exactly if the lease is logged and nobody has touched the record since it was picked; otherwise the record stays as it is |
| `ThreeStepLease.CommitLasts` | dlq/wal_write.go:454-525 | what a commit granted counts one more attempt and is not picked again before its end |
| `ThreeStepLease.OnlyDamagedParked` | dlq/wal_write.go:532-544 | no readable record is parked as unreadable |
| `ThreeStepLease.PickedOnce` | dlq/wal_write.go:394-449 | no record is in two leases' hands |
| `ThreeStepLease.NothingStaysReserved` | dlq/wal_write.go:394-449 | a reservation never outlives its lease |
| `ThreeStepLease.LeaseSafe` | dlq/wal_write.go:394-525 | over every run, with acks, checkpoints and whole compactions between select and commit: what is handed out is the stored record at commit, what is set aside is damaged, and nothing stays reserved |
| `ConsumerState.AdvancedKeeps` | kafka/consumer.go:537-555 | the frontier moves forward over safe offsets, stops at the first that is not, and forgets only what it passed |
| `ConsumerState.RewindKeeps` | kafka/consumer.go:907-923 | after a rewind everything from the frontier on is delivered again |
| `ConsumerLines.DispatchOrder` | kafka/consumer.go:672-710 | when a message starts, every earlier one of its key is safe or ahead of it in line |
| `ConsumerSteps.TakenGood` | kafka/consumer.go:627-668 | accepting keeps the loop's invariant |
| `ConsumerSteps.SentGood` | kafka/consumer.go:700-710 | so does sending, to the workers or behind a busy key |
| `ConsumerSteps.FinishedSettles` | kafka/consumer.go:826-878 | a finished message moves the frontier forward only |
| `ConsumerSteps.FailedSettles` | kafka/consumer.go:883-902 | a failed one takes what waited behind its key with it |
| `ConsumerSteps.SettledGood` | kafka/consumer.go:907-923 | a drained, failed partition rewinds and the invariant holds again |
| `ConsumerSteps.RevokedGood` | kafka/consumer.go:506-531 | revoking drops everything of a partition but what runs |
| `ConsumerSteps.AssignedGood` | kafka/consumer.go:494-504 | assigning starts a fresh generation |
| `ConsumerSteps.CommittedGood` | kafka/consumer.go:566-604 | committing keeps the invariant and no commit goes down |
| `ConsumerSteps.CommitSafe` | kafka/consumer.go:566-604 | a committed offset is at most the frontier and every earlier offset of the assignment is done or stored |
| `ConsumerSteps.SafeIff` | kafka/consumer.go:537-555 | there is something to commit for a partition exactly when its frontier has passed the first offset of the assignment |
| `ConsumerSteps.CommitMeans` | kafka/consumer.go:566-612 | committing some partitions commits each of them whose frontier has passed its first offset at its frontier, and changes no other |
| `ConsumerSteps.NoneLost` | kafka/consumer.go:627-693 | an accepted offset that is not safe waits, is in flight, or has a rewind to it pending with work in flight to trigger it |
| `ConsumerSteps.WorkFits` | kafka/consumer.go:752-767 | the channels to and from the workers never overflow |
| `ConsumerSteps.KeyOrder` | kafka/consumer.go:695-727 | what runs, in the pool or inline, is alone with its key, and everything earlier of the key is safe |
| `ConsumerSteps.InlineOrder` | kafka/consumer.go:672-693 | with one worker a message runs only when every earlier one of its partition is done or stored |
| `ConsumerRuns.IdleGood` | kafka/consumer.go:254-313 | a new consumer satisfies the invariant |
| `ConsumerRuns.RunGood` | kafka/consumer.go:346-401 | the invariant holds in every reachable state of the running loop |
| `ConsumerRuns.RunSafe` | kafka/consumer.go:627-923 | commit safety and nothing lost, in every reachable state, for every order of results, failures, rewinds and rebalances |
| `ConsumerRuns.RunOrdered` | kafka/consumer.go:672-750 | per-key order and one execution at a time in every reachable state, with any number of workers |
| `ConsumerRuns.RunAlone` | kafka/consumer.go:684-689 | with one worker nothing stays in flight from one event to the next |
| `ConsumerRuns.CommitsNeverFall` | kafka/consumer.go:579-593 | within an assignment the committed offset never goes down |
| `ConsumerRuns.RunCommits` | kafka/consumer.go:566-612 | a commit commits: in every run, after one the broker takes, each named partition whose frontier has passed the first offset of its assignment is committed at the first offset neither done nor stored, and no other committed offset changes |
| `Consumer.Consumer.Accept` | kafka/consumer.go:627-668 | exactly the next offset is taken once; anything else changes nothing, and a gap asks for a seek |
| `Consumer.Consumer.Send` | kafka/consumer.go:700-710 | to the workers, or behind its key |
| `Consumer.Consumer.DispatchOne` | kafka/consumer.go:672-693 | the oldest waiting message is given up, sent, or run here and its result taken: exactly that event of a run |
| `Consumer.Consumer.DispatchBacklog` | kafka/consumer.go:672-693 | a run of such turns, ending with nothing waiting or the limit reached |
| `Consumer.Consumer.MarkDone` | kafka/consumer.go:537-555 | progress and commit point become those of ConsumerState.MarkedDone |
| `Consumer.Consumer.Released` | kafka/consumer.go:713-727 | the next message of the key starts |
| `Consumer.Consumer.Complete` | kafka/consumer.go:826-878 | a stale result moves nothing, a finished one is recorded, a failed one rewinds once drained, a fatal one stops the loop |
| `Consumer.Consumer.DropBehind` | kafka/consumer.go:732-750 | what waits behind a failed key is dropped and uncounted, exactly |
| `Consumer.Consumer.Fail` | kafka/consumer.go:883-902 | the failure is noted, and the least failed offset kept |
| `Consumer.Consumer.Drain` | kafka/consumer.go:790-810 | a run of results that takes every result so far, in any order, and commits nothing |
| `Consumer.Consumer.Commit` | kafka/consumer.go:579-612 | if the broker takes it, every named partition with something safe is committed at its frontier, which is the first offset neither done nor stored, and no other changes; otherwise nothing does |
| `Consumer.Consumer.OnAssigned` | kafka/consumer.go:494-504 | exactly one assignment of each partition, under a generation of its own |
| `Consumer.Consumer.OnRevoked` | kafka/consumer.go:506-531 | a commit of what is safe, if the broker takes it, then exactly one revocation of each partition |
| `ConsumerHistory.SeenKept` | kafka/consumer.go:627-668 | the deliveries of an assignment are all offsets from its first up to some offset, rewinds included |
| `ConsumerHistory.SafeKept` | kafka/consumer.go:826-878 | the loop takes for safe only what a worker reported done or stored |
| `ConsumerHistory.HandedFrom` | kafka/consumer.go:700-727 | a message comes to the workers only under an assignment that is held |
| `ConsumerHistory.FrontNow` | kafka/consumer.go:695-727 | before a message in hand, every delivery of its key and assignment is safe |
| `ConsumerHistory.CommittedReported` | kafka/consumer.go:826-878 | in every run, for every offset before a committed one, from the first of the assignment on, some earlier event reported that message done, deferred or parked |
| `Redelivery.SkippedIff` | kafka/consumer.go:627-668 | a finished message that comes again is skipped exactly if the frontier has not passed it |
| `Redelivery.AcceptedIff` | kafka/consumer.go:627-668 | in every run, a delivery that is taken is put in the backlog if and only if it has not finished in this assignment or the frontier has passed it |
| `Redelivery.FinishedRunsAgain` | kafka/consumer.go:904-923 | a run in which a message that finished before a rewind is run again in the same assignment |
| `KeyOrder.StartsInOrder` | kafka/consumer.go:939-959 | when a worker finds the key absent and runs a message, or a lease hands out the record it stored, every earlier delivery of its key and assignment is done or has left the store |
| `KeyOrder.RunKeeps` | kafka/consumer.go:939-959 | in every reachable joint state a stored message has every earlier one of its key done, gone, or ahead of it in the store |
| `KeyOrder.KeyOrderKept` | kafka/consumer.go:939-959 | the same at every start of every run of the consumer beside the store and its other callers, for every key, partition and assignment, in both worker modes |
| `SagaLog.AlwaysWf` | pipeline/pipeline.go:381-470 | Completed is a prefix of the steps and what is compensated is its newest part |
| `SagaLog.NotRestarted` | pipeline/pipeline.go:381-396 | a durably recorded step is not started again until a rewind forgets it |
| `SagaLog.NewestFirst` | pipeline/pipeline.go:445-470 | compensations are recorded strictly newest first |
| `SagaLog.EpochGrows` | pipeline/pipeline.go:680-714 | epochs never fall, and grow exactly at a rewind that finds a recorded compensation |
| `SagaLog.FreshEpoch` | pipeline/pipeline.go:680-714 | a step whose compensation was recorded runs again only under a larger epoch |
| `SagaLog.FreshEpochIff` | pipeline/pipeline.go:680-714 | a step a compensation ran for starts later under a larger epoch if and only if a rewind between found a recorded compensation |
| `Saga.LoadsIff` | pipeline/pipeline.go:303-334 | which checkpoints a pipeline goes on from: none at all, or its own, of this version, in a known phase, with a prefix of its steps completed |
| `Saga.RewindAnswers` | pipeline/pipeline.go:680-714 | when a rewind is refused as not this pipeline's, and when for want of such a step |
| `Saga.RewindLegal` | pipeline/pipeline.go:680-714 | Rewind never skips forward, keeps no compensated step as completed, and is refused exactly when it would |
| `Saga.Run.Save` | pipeline/pipeline.go:340-349 | the durable checkpoint becomes the one in memory, or stays, and only a known success counts |
| `Saga.Run.UndoOne` | pipeline/pipeline.go:445-470 | one compensation runs, and is recorded before the next; the events it adds, and the verdict: none exactly if it went well and was saved, else what it ended with |
| `Saga.Run.Compensate` | pipeline/pipeline.go:445-470 | adds exactly the events of undoing newest first, legally; each verdict exactly when the first compensation that does not go well, or none, calls for it |
| `Saga.Run.Fail` | pipeline/pipeline.go:417-433 | turns back exactly when there is something to undo, then undoes it; the events it adds, and each verdict exactly when |
| `Saga.Run.RunOne` | pipeline/pipeline.go:381-396 | one step runs, and is recorded before the next; the events it adds, and the verdict: none exactly if it went well and was saved, else waiting, stopped or failed as its outcome and the compensations say |
| `Saga.Run.Advance` | pipeline/pipeline.go:381-396 | adds exactly the events of an attempt, legally, resuming at the first unrecorded step; finished exactly if every step from there goes well, else the verdict of the first that does not |
| `Saga.Run.Attempt` | pipeline/pipeline.go:477-490 | one attempt of Handler adds exactly the events its steps, compensations and saves call for, legally; it ends finished, waiting, stopped or failed exactly when the first thing that does not go well says so |
| `Saga.UndoDecides` | pipeline/pipeline.go:445-470 | the first compensation that does not go well decides the verdict, and no other verdict fits |
| `Saga.RunDecides` | pipeline/pipeline.go:381-433 | the first step that does not go well decides the verdict, and no other verdict fits |
| `Saga.Run.Redrive` | pipeline/pipeline.go:723-739 | an operator's rewind extends the history legally, or is refused |
| `Saga.MishapEvents` | pipeline/pipeline.go:381-470 | what an attempt adds in which step 1 fails for good, step 0 is compensated and that cannot be saved |
| `Saga.LostCompensation` | pipeline/pipeline.go:445-470 | the failing input, carried out: that attempt, a rewind to step 0 and another attempt, in which step 0 runs again in the epoch its compensation ran in |
| `Limiter.RampRange` | dlq/redrive.go:566-575 | the ramp factor stays in [0.1, 1] |
| `Limiter.RampIs` | dlq/redrive.go:566-575 | a tenth of the rate at recovery, all of it after the ramp, a straight line between |
| `Limiter.GrantsMost` | dlq/redrive.go:585-602 | a reservation grants as many whole tokens as are there, up to what is asked, and takes exactly those |
| `Limiter.RecoveredEmpty` | dlq/redrive.go:577-582 | a bucket that was just refilled grants nothing right after a recovery |
| `Limiter.GivenAgain` | dlq/redrive.go:605-612 | tokens given back can be reserved again at once |
| `Limiter.StepWithin` | dlq/redrive.go:577-612 | what one call grants comes out of what the bucket could hand out |
| `Limiter.RateBound` | dlq/redrive.go:552-612 | over any run of calls, net tokens granted between two times are at most burst + rate*elapsed, and the bucket stays in [0, burst] |
| `Limiter.WaitSuffices` | dlq/redrive.go:585-602 | waiting as long as told is enough for a token, while the ramp rises |
| `Limiter.WaitTight` | dlq/redrive.go:585-602 | in less time than told no whole token comes together at the present rate |
| `Limiter.Limiter.Reserve` | dlq/redrive.go:585-602 | the bucket, the grant and the wait are those of the specification |
| `Limiter.Limiter.Recovered` | dlq/redrive.go:577-582 | the ramp restarts with an empty bucket |
| `Limiter.Limiter.Give` | dlq/redrive.go:605-612 | unused tokens come back, up to the burst |
| `Window.Advance` | internal/engine/engine.go:98-105 | one turn of the clearing loop: the oldest bucket is forgotten, the new one is empty, totals are exact |
| `Window.LongIdle` | internal/engine/engine.go:92-109 | clearing n buckets is enough however many have passed |
| `Window.RollingWindow.Rotate` | internal/engine/engine.go:79-110 | the ring holds the n buckets up to the one now falls into |
| `Window.RollingWindow.Add` | internal/engine/engine.go:129-155 | totals equal the events since the last reset in the last n buckets |
| `Window.RollingWindow.Success` | internal/engine/engine.go:129-139 | one success is recorded, with its latency |
| `Window.RollingWindow.Failure` | internal/engine/engine.go:141-147 | one failure is recorded |
| `Window.RollingWindow.RecordRetry` | internal/engine/engine.go:149-155 | one retry is recorded |
| `Window.RollingWindow.Reset` | internal/engine/engine.go:115-127 | nothing recorded before counts any more |
| `Window.RollingWindow.FailureRateBps` | internal/engine/engine.go:157-166 | the share of failures among the window's events |
| `Window.RollingWindow.RetryRateBps` | internal/engine/engine.go:171-180 | the share of retries among the window's traffic |
| `Window.RollingWindow.Counts` | internal/engine/engine.go:190-196 | the window's successes and failures |
| `Window.ShareReaches` | internal/breaker/breaker.go:310-330 | the truncated rate reaches a threshold exactly when the counts do |
| `Breaker.TooManyMeans` | internal/breaker/breaker.go:321-329 | the circuit opens exactly with MinSamples met and failures*10000 >= threshold*total |
| `Breaker.AdmitsIff` | internal/breaker/breaker.go:113-212 | exactly when a call is admitted, in times: a closed circuit admits every call with a slot, a half-open one the first canary or one a sleep window after the last, an open one after the sleep window and less than a tenth more, unless a health check is in charge and not overdue |
| `Breaker.RefusesIff` | internal/breaker/breaker.go:164-181 | exactly when a breaker says it is refusing, in times |
| `Breaker.StateMoves` | internal/breaker/breaker.go:113-330 | what makes a circuit change its state, each way, and that nothing else does |
| `Breaker.FailureTimes` | internal/breaker/breaker.go:282-330 | since when a circuit counts as failing: every failure, and a health check that reopens it |
| `Breaker.CanaryLeaves` | internal/breaker/breaker.go:222-330 | when a canary's place is free again |
| `Breaker.OneCanary` | internal/breaker/breaker.go:140-156 | in every run of whole calls, from an admitted canary until something reports, no other call is admitted within a sleep window |
| `Breaker.AlwaysQuiet` | internal/breaker/breaker.go:267-330 | in every reachable state the probe flag is clear outside half-open |
| `Breaker.RefusingSound` | internal/breaker/breaker.go:113-181 | in every reachable state an open circuit that is not Refusing admits the next call, whatever the jitter, with or without a health gate |
| `Breaker.RefusingSoundIff` | internal/breaker/breaker.go:113-181 | when calls overlap, an open circuit that is not Refusing admits the next call if and only if no late claim left its probe flag set |
| `Breaker.StragglerRefused` | internal/breaker/breaker.go:140-156 | a run in which a call that saw the circuit half-open claims the flag after it reopened, and the next due call is refused |
| `Breaker.Heals` | internal/breaker/breaker.go:140-156 | that call leaves the circuit half-open, where a call is admitted if and only if the late claim is a sleep window old |
| `Breaker.RefusingTight` | internal/breaker/breaker.go:164-181 | while Refusing, some jitter turns the call down, save at the last nanosecond |
| `Breaker.GateHolds` | internal/breaker/breaker.go:113-125 | while the health gate is shut every call is turned down and nothing changes |
| `Breaker.Breaker.CircuitAllows` | internal/breaker/breaker.go:113-156 | the decision and the new state are those of the specification |
| `Breaker.Breaker.AllowEx` | internal/breaker/breaker.go:195-212 | the verdict, the slot it holds, and the bulkhead limit |
| `Breaker.Breaker.GiveUp` | internal/breaker/breaker.go:222-227 | an abandoned call frees its slot and a half-open probe |
| `Breaker.Breaker.MarkSuccess` | internal/breaker/breaker.go:247-308 | a canary that succeeds closes the circuit with an empty window |
| `Breaker.Breaker.MarkFailure` | internal/breaker/breaker.go:310-330 | a failure is counted; a canary's reopens; a closed circuit opens exactly when the window then holds too many |
| `Breaker.Breaker.BeginProbe` | internal/breaker/breaker.go:269-272 | an open circuit becomes half-open with the probe free |
| `Breaker.Breaker.ResetClosed` | internal/breaker/breaker.go:275-278 | the circuit is closed with an empty window |
| `Breaker.Breaker.ReopenFromProbe` | internal/breaker/breaker.go:282-292 | only a real reopening restarts the open clock |
| `Breaker.Breaker.Transition` | internal/breaker/breaker.go:63-74 | only from the expected state, and closing empties the window |
| `Breaker.Breaker.WindowOpens` | internal/breaker/breaker.go:321-329 | whether the window holds too many failures, counted over the last n buckets |
| `Breaker.Breaker.SetHealthGate` | internal/breaker/breaker.go:262-265 | a health check owns the way out until maxOpen |
| `Breaker.Breaker.CanRetry` | internal/breaker/breaker.go:235-240 | retries are within their share of the window's traffic |

## Left out

- Operating-system files, directory locks, permissions, free-space checks and network file systems: append, fsync, truncate and atomic rename are assumed.
- Log signing and encryption, ForceRepair, and what bit rot does to single records. A cut log whose payload embeds a valid-looking frame is refused, so the crash results say "if it opens"; TornTail.RunOpensIff says when it does.
- SyncInterval mode: the results are about SyncAlways.
- WalReopen.ReopenKeeps: does not follow a process that opens where the last segment left ends before the loaded snapshot does, which takes several files short of their directory sync, gone at once; what such an opening gives is in WalCrash.CrashSafe. A segment file that was set aside, or removed because its creation failed, is taken to stay removed.
- WalReopen.LifeKeeps: the same restriction.
- WalAck.LostIff: the store's own directory is taken to stay; OpenWAL makes it and does not sync its parent.
- Store.AlwaysHeadOfLine: a restart is taken to give a sound queue; DurableStore.HeadOfLineAlways proves it for crashes.
- Machine.Machine.Insert: takes a record whose Seq is above the machine's; Reload.RunCounts and Reload.RunReloads show every log and snapshot of a run meets this. What a file with another numbering would do to the lists is not modelled.
- Machine.Machine.InsertOffloaded: the same.
- Machine.Machine.ApplyEntry: the same.
- Machine.Machine.ApplyOffloaded: the same.
- Compaction.RunHydrates: one process from an empty store; OffloadedReload.RecoveryHydrates is about the references the next process builds. Frames hold records, not bytes.
- ThreeStepLease.LeaseSafe: the same.
- SnapshotCodec.SnapshotRoundTrip: assumes each encoded record fits the entry limit; Nack and Park can grow LastError past it.
- Machine.Machine.Append: the limits are claimed when a record is accepted, not afterwards; Nack and Park grow LastError without a capacity check.
- Machine.Machine.Select: lists of the index are sequences in fields, not linked lists; handles to list elements are not modelled.
- The file cache's list and reference counts, paging of parked records, Scan, Stats and WALStats.
- ConsumerRuns.RunSafe: the running loop only. Shutdown, what is still drained and committed after a fatal result, gaps in offsets, UnstorableSkip, pausing and throttling are not modelled, and a partition is revoked before it is assigned again. At-most-once running is not claimed: Redelivery says when a finished message runs again.
- KeyOrder.KeyOrderKept: one process; a lease counts as work on a message when that message brought the record to the store, so a record left over from an earlier assignment is not its successor's. A record with a message's id has that message's key.
- Saga.Run.Attempt: stored records only, one attempt at a time: a worker that outlives its lease is not in it. Execute before anything is stored, retries and breakers inside a step, the state map and the checkpoint's JSON are not modelled.
- PoisonPill.AtMostMaxStarts: the redriver's fill loop, its worker pool, dependency holds and counters are not modelled; a start is any lease that was returned with attempts within the limit.
- Limiter.RateBound: floats are reals, and times never go back.
- Breaker.RefusingSound: each call is one step.
- Breaker.RefusingSoundIff: of the compare-and-swap steps only the claim of the probe flag comes late. With such steps a single half-open canary is not claimed; Breaker.OneCanary is about whole calls. Callbacks and waiting for a slot are left out.
- Window.RollingWindow.Rotate: the atomic fields are updated in one step; 64-bit wrap-around is not modelled.
- HTTP transport, Defer and replay, health probing, redaction, events, service wiring, the Kafka adapter, dlqctl and the demo.
- Timers, scheduling and liveness.
