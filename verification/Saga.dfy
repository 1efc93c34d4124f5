/** The pipeline's resumable saga (pipeline/pipeline.go): advance, failed and compensate
    with a durable checkpoint after every step, and rewinding. Everything one attempt does
    to a stored record is a legal history, so all that SagaLog proves holds over every
    sequence of attempts, crashes and rewinds. */
module Saga {
  import opened Records
  import opened SagaLog

  datatype StepDef = StepDef(name: Text, comp: bool)

  datatype Pipeline = Pipeline(name: Text, steps: seq<StepDef>, saga: bool)

  /** What New insists on. */
  ghost predicate PipelineOk(p: Pipeline) {
    p.steps != [] && forall i, j :: 0 <= i < j < |p.steps| ==> p.steps[i].name != p.steps[j].name
  }

  datatype Phase = Forward | Compensating | Unknown(text: Text)

  const CHECKPOINT_VERSION := 1

  datatype Checkpoint = Checkpoint(
    v: int, pipeline: Text, phase: Phase, completed: seq<Text>, compensated: seq<Text>, epoch: nat, failedStep: Text)

  /** A stored checkpoint as bytes: none, not JSON, or one. */
  datatype Raw = Absent | Garbage | Stored(c: Checkpoint)

  function Names(p: Pipeline): (ns: seq<Text>)
    ensures |ns| == |p.steps| && forall i :: 0 <= i < |ns| ==> ns[i] == p.steps[i].name
  {
    seq(|p.steps|, i requires 0 <= i < |p.steps| => p.steps[i].name)
  }

  function Comps(p: Pipeline): (cs: seq<bool>)
    ensures |cs| == |p.steps| && forall i :: 0 <= i < |cs| ==> cs[i] == p.steps[i].comp
  {
    seq(|p.steps|, i requires 0 <= i < |p.steps| => p.steps[i].comp)
  }

  function NewCheckpoint(p: Pipeline): Checkpoint {
    Checkpoint(CHECKPOINT_VERSION, p.name, Forward, [], [], 0, [])
  }

  /** load: a checkpoint of another format, pipeline or list of steps is refused. */
  function Load(p: Pipeline, raw: Raw): (r: Option<Checkpoint>)
    ensures r.Some? ==> r.value.completed <= Names(p) && !r.value.phase.Unknown? && r.value.pipeline == p.name && r.value.v == 1
    ensures raw.Absent? ==> r.Some? && r.value.completed == [] && r.value.compensated == [] && r.value.phase == Forward && r.value.epoch == 0
    ensures raw.Stored? && r.Some? ==> r.value == raw.c
  {
    match raw
    case Absent => Some(NewCheckpoint(p))
    case Garbage => None
    case Stored(c) =>
      if c.v != CHECKPOINT_VERSION || c.pipeline != p.name || c.phase.Unknown? || !(c.completed <= Names(p)) then None else Some(c)
  }

  // ---- what a checkpoint records ----

  ghost predicate Matches(p: Pipeline, c: Checkpoint, s: Progress) {
    && c.v == CHECKPOINT_VERSION && c.pipeline == p.name && c.epoch == s.epoch && c.phase == (if s.back then Compensating else Forward)
    && s.done <= |p.steps| && c.completed == Names(p)[..s.done]
    && |c.compensated| == |s.undone| && forall i :: 0 <= i < |s.undone| ==> s.undone[i] < |p.steps| && c.compensated[i] == p.steps[s.undone[i]].name
  }

  /** Step names are unique, so a name in the list is its step in the record. */
  lemma CompensatedMeans(p: Pipeline, c: Checkpoint, s: Progress, i: nat)
    requires PipelineOk(p) && Matches(p, c, s) && i < |p.steps|
    ensures p.steps[i].name in c.compensated <==> i in s.undone
  {
    if p.steps[i].name in c.compensated {
      var k :| 0 <= k < |c.compensated| && c.compensated[k] == p.steps[i].name;
      SameStep(p, i, s.undone[k]);
    }
    if i in s.undone {
      var k :| 0 <= k < |s.undone| && s.undone[k] == i;
      assert c.compensated[k] == p.steps[i].name;
    }
  }

  lemma UndoInRange(comp: seq<bool>, s: Progress, i: nat)
    requires NextUndo(comp, s, i)
    ensures i < |comp|
  {
  }

  lemma UndoneMatches(p: Pipeline, c: Checkpoint, s: Progress, i: nat)
    requires Matches(p, c, s) && i < |p.steps|
    ensures Matches(p, c.(compensated := c.compensated + [p.steps[i].name]), After(s, Undone(i)))
  {
  }

  lemma SameStep(p: Pipeline, i: nat, j: nat)
    requires PipelineOk(p) && i < |p.steps| && j < |p.steps|
    ensures p.steps[i].name == p.steps[j].name <==> i == j
  {
  }

  // ---- rewinding ----

  datatype RewindResult = Mismatch | UnknownStep | CannotSkipForward | StepUndone | Resumes(c: Checkpoint)

  /** The last step of that name. */
  function FindStep(p: Pipeline, name: Text, n: nat): (r: Option<nat>)
    requires n <= |p.steps|
    ensures r.Some? ==> r.value < n && p.steps[r.value].name == name
    ensures r.None? ==> forall i :: 0 <= i < n ==> p.steps[i].name != name
    decreases n
  {
    if n == 0 then None else if p.steps[n - 1].name == name then Some(n - 1) else FindStep(p, name, n - 1)
  }

  /** Rewind. */
  function Rewind(p: Pipeline, raw: Raw, to: Text): RewindResult {
    match Load(p, raw)
    case None => Mismatch
    case Some(c) =>
      match FindStep(p, to, |p.steps|)
      case None => UnknownStep
      case Some(idx) => RewindTo(c, idx)
  }

  /** Exactly which checkpoints a pipeline goes on from: none at all, or its own, of this
      version, with a prefix of its steps completed. */
  lemma LoadsIff(p: Pipeline, raw: Raw)
    ensures Load(p, raw).Some? <==>
              match raw
              case Absent => true
              case Garbage => false
              case Stored(c) =>
                && c.v == 1 && c.pipeline == p.name && (c.phase == Forward || c.phase == Compensating)
                && |c.completed| <= |p.steps| && forall i :: 0 <= i < |c.completed| ==> c.completed[i] == p.steps[i].name
  {
  }

  /** When a rewind says that the checkpoint is not this pipeline's, or that it has no such step. */
  lemma RewindAnswers(p: Pipeline, raw: Raw, to: Text)
    ensures var r := Rewind(p, raw, to);
            && (r == Mismatch <==> Load(p, raw).None?)
            && (r == UnknownStep <==> Load(p, raw).Some? && forall i :: 0 <= i < |p.steps| ==> p.steps[i].name != to)
  {
    hide Load;
  }

  /** A rewind is a legal event: it never skips forward and keeps no compensated step as
      completed. It is refused exactly when it would. */
  lemma RewindLegal(p: Pipeline, c: Checkpoint, s: Progress, idx: nat)
    requires PipelineOk(p) && Wf(Comps(p), s) && Matches(p, c, s) && idx < |p.steps|
    ensures var r := Rewind(p, Stored(c), p.steps[idx].name);
            && (r.Resumes? <==> Legal1(Comps(p), s, Rewound(idx)))
            && (r.Resumes? ==> Matches(p, r.c, After(s, Rewound(idx))) && r.c.failedStep == [])
            && (r == CannotSkipForward <==> idx > s.done)
            && (r == StepUndone <==> idx <= s.done && exists u :: u in s.undone && u < idx)
            && r != Mismatch && r != UnknownStep
  {
    FoundStep(p, idx);
    hide FindStep;
    var r := Rewind(p, Stored(c), p.steps[idx].name);
    assert Names(p)[..s.done] <= Names(p);
    assert r == RewindTo(c, idx);
    hide Rewind, Load;
    if idx <= s.done {
      KeptUndone(p, c, s, idx);
      assert Names(p)[..s.done][..idx] == Names(p)[..idx];
    }
  }

  /** Rewind, once the step is found. */
  function RewindTo(c: Checkpoint, idx: nat): RewindResult {
    if idx > |c.completed| then CannotSkipForward
    else if exists i :: 0 <= i < idx && c.completed[i] in c.compensated then StepUndone
    else Resumes(c.(epoch := if c.compensated != [] then c.epoch + 1 else c.epoch,
                    completed := c.completed[..idx], compensated := [], phase := Forward, failedStep := []))
  }

  lemma FoundStep(p: Pipeline, idx: nat)
    requires PipelineOk(p) && idx < |p.steps|
    ensures FindStep(p, p.steps[idx].name, |p.steps|) == Some(idx)
  {
    var f := FindStep(p, p.steps[idx].name, |p.steps|);
    assert f.Some?;
    SameStep(p, idx, f.value);
  }

  /** A step to be kept was compensated exactly if the record says so. */
  lemma KeptUndone(p: Pipeline, c: Checkpoint, s: Progress, idx: nat)
    requires PipelineOk(p) && Matches(p, c, s) && idx <= s.done
    ensures (exists i :: 0 <= i < idx && c.completed[i] in c.compensated) <==> (exists u :: u in s.undone && u < idx)
  {
    forall i | 0 <= i < idx ensures c.completed[i] in c.compensated <==> i in s.undone {
      CompensatedMeans(p, c, s, i);
    }
    if exists u :: u in s.undone && u < idx {
      var u :| u in s.undone && u < idx;
      assert c.completed[u] in c.compensated;
    }
  }

  // ---- one attempt ----

  datatype StepResult = Ok | Permanent | Blocked | Interrupted

  /** Saving a checkpoint: durable; not; or durable, but the attempt never learns it. */
  datatype SaveResult = Saved | Lost | SavedUnknown

  /** What the world answers during one attempt. */
  datatype Luck = Luck(run: nat -> StepResult, undo: nat -> StepResult, save: Event -> SaveResult)

  datatype Verdict = Finished | Failed | Waiting | Stopped

  /** Every compensation and every save goes well. */
  ghost predicate Kind(luck: Luck) { (forall i :: luck.undo(i).Ok?) && forall e :: luck.save(e).Saved? }

  /** Every step does too. */
  ghost predicate Smooth(luck: Luck) { Kind(luck) && forall i :: luck.run(i).Ok? }

  /** Every completed step that can be undone is. */
  ghost predicate AllUndone(p: Pipeline, s: Progress) {
    forall i :: 0 <= i < s.done && i < |p.steps| && p.steps[i].comp ==> i in s.undone
  }

  // ---- how one attempt ends ----

  /** The step is completed, can be undone and has not been. */
  predicate ToUndo(p: Pipeline, s: Progress, i: int) { 0 <= i < s.done && i < |p.steps| && p.steps[i].comp && i !in s.undone }

  predicate UndoesWell(luck: Luck, i: nat) { luck.undo(i).Ok? && luck.save(Undone(i)).Saved? }

  /** Every compensation of a step above i goes well. */
  ghost predicate UndoneAbove(p: Pipeline, s: Progress, luck: Luck, i: int) {
    forall k: nat :: i < k && ToUndo(p, s, k) ==> UndoesWell(luck, k)
  }

  /** The first compensation, newest step first, that does not go well. */
  ghost predicate UndoStopsAt(p: Pipeline, s: Progress, luck: Luck, i: nat) {
    ToUndo(p, s, i) && UndoneAbove(p, s, luck, i) && !UndoesWell(luck, i)
  }

  /** What an attempt that compensates answers. */
  ghost predicate UndoEnds(p: Pipeline, s: Progress, luck: Luck, v: Verdict) {
    match v
    case Finished => false
    case Waiting => exists i: nat :: UndoStopsAt(p, s, luck, i) && luck.undo(i).Blocked?
    case Stopped => exists i: nat :: UndoStopsAt(p, s, luck, i) && (luck.undo(i).Interrupted? || luck.undo(i).Ok?)
    case Failed => UndoneAbove(p, s, luck, -1) || exists i: nat :: UndoStopsAt(p, s, luck, i) && luck.undo(i).Permanent?
  }

  predicate RunsWell(luck: Luck, i: nat) { luck.run(i).Ok? && luck.save(Done(i)).Saved? }

  /** Every step from where the record stands up to i goes well. */
  ghost predicate RunUpTo(s: Progress, luck: Luck, i: nat) { forall k: nat :: s.done <= k < i ==> RunsWell(luck, k) }

  /** The first step that does not go well. */
  ghost predicate RunStopsAt(p: Pipeline, s: Progress, luck: Luck, i: nat) {
    s.done <= i < |p.steps| && RunUpTo(s, luck, i) && !RunsWell(luck, i)
  }

  /** What an attempt answers that stops at step s.done: the caller went away or the record
      could not be saved; the step has to wait; or it failed for good, and what was done is
      undone if the pipeline is a saga and there is something to undo. */
  ghost predicate StepEnds(p: Pipeline, s: Progress, luck: Luck, v: Verdict) {
    match luck.run(s.done)
    case Ok => v == Stopped
    case Interrupted => v == Stopped
    case Blocked => v == Waiting
    case Permanent =>
      if !p.saga || !(exists k: nat :: k < s.done && k < |p.steps| && p.steps[k].comp) then v == Failed
      else if !luck.save(Turn).Saved? then v == Stopped
      else UndoEnds(p, s, luck, v)
  }

  /** What one attempt on a record that stands at s answers. */
  ghost predicate Ends(p: Pipeline, s: Progress, luck: Luck, v: Verdict) {
    if s.back then UndoEnds(p, s, luck, v)
    else if v == Finished then RunUpTo(s, luck, |p.steps|)
    else exists i: nat :: RunStopsAt(p, s, luck, i) && StepEnds(p, s.(done := i), luck, v)
  }

  lemma UndoStopsOnce(p: Pipeline, s: Progress, luck: Luck, i: nat, j: nat)
    requires UndoStopsAt(p, s, luck, i) && UndoStopsAt(p, s, luck, j)
    ensures i == j
  {
  }

  /** Where compensating stops decides the verdict. */
  lemma UndoDecides(p: Pipeline, s: Progress, luck: Luck, i: nat, v: Verdict)
    requires UndoStopsAt(p, s, luck, i)
    requires v == if luck.undo(i).Permanent? then Failed else if luck.undo(i).Blocked? then Waiting else Stopped
    ensures forall x: Verdict :: v == x <==> UndoEnds(p, s, luck, x)
  {
    forall j: nat | UndoStopsAt(p, s, luck, j) ensures i == j {
      UndoStopsOnce(p, s, luck, i, j);
    }
  }

  lemma AllUndoneDecides(p: Pipeline, s: Progress, luck: Luck, now: Progress)
    requires UndoneDownTo(p, s, luck, now, -1)
    ensures AllUndone(p, now) && forall x: Verdict :: x == Failed <==> UndoEnds(p, s, luck, x)
  {
  }

  /** Compensating from s has come down past step i: what was to undo above it is undone, and
      nothing below is touched. */
  ghost predicate UndoneDownTo(p: Pipeline, s: Progress, luck: Luck, now: Progress, i: int) {
    && now.done == s.done <= |p.steps| && UndoneAbove(p, s, luck, i)
    && (forall j :: 0 <= j && i < j < now.done && p.steps[j].comp ==> j in now.undone)
    && (forall k :: 0 <= k <= i ==> (k in now.undone <==> k in s.undone))
  }

  lemma KindUndoes(luck: Luck, i: nat)
    ensures Kind(luck) ==> UndoesWell(luck, i)
    ensures UndoesWell(luck, i) <==> luck.undo(i).Ok? && luck.save(Undone(i)).Saved?
  {
  }

  lemma NoneUndone(p: Pipeline, s: Progress, luck: Luck)
    requires s.done <= |p.steps|
    ensures UndoneDownTo(p, s, luck, s, s.done - 1)
  {
  }

  /** One step further down. */
  lemma UndoneOneMore(p: Pipeline, s: Progress, luck: Luck, now: Progress, i: nat)
    requires UndoneDownTo(p, s, luck, now, i) && i < now.done
    ensures !p.steps[i].comp || i in now.undone ==> UndoneDownTo(p, s, luck, now, i - 1)
    ensures p.steps[i].comp && i !in now.undone ==> ToUndo(p, s, i) && UndoneAbove(p, s, luck, i) && NextUndo(Comps(p), now, i)
    ensures p.steps[i].comp && i !in now.undone && UndoesWell(luck, i) ==>
              UndoneDownTo(p, s, luck, After(now, Undone(i)), i - 1)
  {
  }

  /** Whether a step was undone before tells nothing about the phase. */
  lemma TurnedEnds(p: Pipeline, s: Progress, t: Progress, luck: Luck)
    requires t.done == s.done && t.undone == s.undone
    ensures forall x: Verdict :: UndoEnds(p, s, luck, x) <==> UndoEnds(p, t, luck, x)
  {
    assert forall i: int :: ToUndo(p, s, i) <==> ToUndo(p, t, i);
    assert forall i: int :: UndoneAbove(p, s, luck, i) <==> UndoneAbove(p, t, luck, i);
    assert forall i: nat :: UndoStopsAt(p, s, luck, i) <==> UndoStopsAt(p, t, luck, i);
  }

  /** Where running stops decides the verdict. */
  lemma RunDecides(p: Pipeline, s: Progress, luck: Luck, i: nat, v: Verdict)
    requires !s.back && RunStopsAt(p, s, luck, i) && v != Finished
    requires forall x: Verdict :: v == x <==> StepEnds(p, s.(done := i), luck, x)
    ensures forall x: Verdict :: v == x <==> Ends(p, s, luck, x)
  {
    hide StepEnds;
    forall j: nat | RunStopsAt(p, s, luck, j) ensures i == j {
    }
  }

  lemma AllRunDecides(p: Pipeline, s: Progress, luck: Luck)
    requires !s.back && RunUpTo(s, luck, |p.steps|)
    ensures forall x: Verdict :: x == Finished <==> Ends(p, s, luck, x)
  {
    hide StepEnds;
    forall j: nat ensures !RunStopsAt(p, s, luck, j) {
    }
  }

  // ---- what one attempt adds to the history ----

  /** Saving e goes one of three ways; rest is what follows a save known to be good. */
  function SaveEvents(luck: Luck, e: Event, rest: seq<Event>): seq<Event> {
    match luck.save(e)
    case Saved => [e] + rest
    case SavedUnknown => [e]
    case Lost => []
  }

  /** compensate, from step i down. */
  function Undoing(p: Pipeline, s: Progress, luck: Luck, i: int): seq<Event>
    requires -1 <= i < |p.steps|
    decreases i + 1
  {
    if i < 0 then []
    else if !p.steps[i].comp || i in s.undone then Undoing(p, s, luck, i - 1)
    else
      [Undo(i, s.epoch)] +
      if luck.undo(i).Ok? then SaveEvents(luck, Undone(i), Undoing(p, After(s, Undone(i)), luck, i - 1)) else []
  }

  /** Some completed step can be undone. */
  predicate Undoable(p: Pipeline, s: Progress) { exists i :: 0 <= i < s.done && i < |p.steps| && p.steps[i].comp }

  /** failed, for a permanent failure. */
  function Failing(p: Pipeline, s: Progress, luck: Luck): seq<Event>
    requires s.done <= |p.steps|
  {
    if p.saga && Undoable(p, s) then SaveEvents(luck, Turn, Undoing(p, After(s, Turn), luck, s.done - 1)) else []
  }

  /** advance, going forward. */
  function Advancing(p: Pipeline, s: Progress, luck: Luck): seq<Event>
    requires s.done <= |p.steps|
    decreases |p.steps| - s.done
  {
    if s.done == |p.steps| then []
    else
      [Start(s.done, s.epoch)] +
      match luck.run(s.done)
      case Ok => SaveEvents(luck, Done(s.done), Advancing(p, After(s, Done(s.done)), luck))
      case Permanent => Failing(p, s, luck)
      case _ => []
  }

  /** One attempt on a record that stands at s. */
  function Attempting(p: Pipeline, s: Progress, luck: Luck): seq<Event>
    requires s.done <= |p.steps|
  {
    if s.back then Undoing(p, s, luck, s.done - 1) else Advancing(p, s, luck)
  }

  lemma SaveThen(luck: Luck, e: Event, rest: seq<Event>)
    ensures SaveEvents(luck, e, rest) == SaveEvents(luck, e, []) + if luck.save(e).Saved? then rest else []
  {
  }

  /** What one step of compensate adds, and what is left to add. */
  lemma UndoingFrom(p: Pipeline, s: Progress, luck: Luck, i: nat)
    requires i < |p.steps|
    ensures var now := [Undo(i, s.epoch)] + if luck.undo(i).Ok? then SaveEvents(luck, Undone(i), []) else [];
            Undoing(p, s, luck, i) ==
            if !p.steps[i].comp || i in s.undone then Undoing(p, s, luck, i - 1)
            else if luck.undo(i).Ok? && luck.save(Undone(i)).Saved?
            then now + Undoing(p, After(s, Undone(i)), luck, i - 1)
            else now
  {
    SaveThen(luck, Undone(i), Undoing(p, After(s, Undone(i)), luck, i - 1));
  }

  /** What one step of advance adds. */
  function Stepping(p: Pipeline, s: Progress, luck: Luck): seq<Event>
    requires s.done < |p.steps|
  {
    [Start(s.done, s.epoch)] +
    match luck.run(s.done)
    case Ok => SaveEvents(luck, Done(s.done), [])
    case Permanent => Failing(p, s, luck)
    case _ => []
  }

  lemma AdvancingFrom(p: Pipeline, s: Progress, luck: Luck)
    requires s.done < |p.steps|
    ensures Advancing(p, s, luck) == Stepping(p, s, luck) +
            if luck.run(s.done).Ok? && luck.save(Done(s.done)).Saved? then Advancing(p, After(s, Done(s.done)), luck) else []
  {
    if luck.run(s.done).Ok? {
      SaveThen(luck, Done(s.done), Advancing(p, After(s, Done(s.done)), luck));
    }
  }

  lemma UndoingNone(p: Pipeline, s: Progress, luck: Luck)
    ensures Undoing(p, s, luck, -1) == []
  {
  }

  lemma AdvancingDone(p: Pipeline, s: Progress, luck: Luck)
    requires s.done == |p.steps|
    ensures Advancing(p, s, luck) == []
  {
  }

  lemma DoneMatches(p: Pipeline, c: Checkpoint, s: Progress)
    requires Matches(p, c, s) && s.done < |p.steps|
    ensures Matches(p, c.(completed := c.completed + [p.steps[s.done].name]), After(s, Done(s.done)))
  {
    assert c.completed + [p.steps[s.done].name] == Names(p)[..s.done + 1];
  }

  class Run {
    const p: Pipeline
    var cp: Checkpoint     // in memory
    var stored: Checkpoint // in the record
    ghost const init: Progress
    ghost var log: seq<Event>

    ghost function At(): Progress
      reads this
    {
      Recorded(init, log)
    }

    /** The record holds what its history says, and the history is legal. */
    ghost predicate Valid()
      reads this
    {
      PipelineOk(p) && Wf(Comps(p), At()) && Legal(Comps(p), init, log) && Matches(p, stored, At())
    }

    /** A record as it was first stored. */
    constructor (p: Pipeline, c: Checkpoint, ghost s: Progress)
      requires PipelineOk(p) && Wf(Comps(p), s) && Matches(p, c, s)
      ensures Valid() && this.p == p && init == s && At() == s && log == []
    {
      this.p, cp, stored, init, log := p, c, c, s, [];
    }

    /** Something runs: it is part of the history, though nothing is recorded yet. */
    ghost method Note(e: Event)
      requires Valid() && Legal1(Comps(p), At(), e) && (e.Start? || e.Undo?)
      modifies this`log
      ensures Valid() && log == old(log) + [e] && At() == old(At())
    {
      LegalMore(Comps(p), init, log, e);
      log := log + [e];
    }

    /** save. */
    method Save(r: SaveResult, ghost e: Event) returns (ok: bool)
      requires Valid() && Legal1(Comps(p), At(), e) && Matches(p, cp, After(At(), e))
      modifies this`stored, this`log
      ensures Valid() && old(log) <= log
      ensures ok ==> At() == After(old(At()), e) && Matches(p, cp, At())
      ensures ok <==> r.Saved?
      ensures if r.Lost? then stored == old(stored) && log == old(log) else stored == cp && log == old(log) + [e]
    {
      if r.Lost? {
        return false;
      }
      LegalMore(Comps(p), init, log, e);
      AfterWf(Comps(p), At(), e);
      stored := cp;
      log := log + [e];
      return r.Saved?;
    }

    /** One compensation, recorded before the next begins. Nothing means it was. */
    method UndoOne(i: nat, luck: Luck) returns (v: Option<Verdict>)
      requires Valid() && Matches(p, cp, At()) && At().back && NextUndo(Comps(p), At(), i)
      modifies this`cp, this`stored, this`log
      ensures Valid() && old(log) <= log && v != Some(Finished)
      ensures v.None? ==> At() == After(old(At()), Undone(i)) && Matches(p, cp, At())
      ensures v.None? <==> luck.undo(i).Ok? && luck.save(Undone(i)).Saved?
      ensures v == Some(Failed) <==> luck.undo(i).Permanent?
      ensures v == Some(Waiting) <==> luck.undo(i).Blocked?
      ensures cp.failedStep == old(cp.failedStep) && (stored.failedStep == old(stored.failedStep) || stored.failedStep == cp.failedStep)
      ensures log == old(log) + [Undo(i, old(At()).epoch)] + if luck.undo(i).Ok? then SaveEvents(luck, Undone(i), []) else []
    {
      hide Legal, Recorded, NextUndo;
      Note(Undo(i, cp.epoch));
      var r := luck.undo(i);
      if !r.Ok? {
        return Some(if r.Permanent? then Failed else if r.Blocked? then Waiting else Stopped);
      }
      assert i < |p.steps| by {
        UndoInRange(Comps(p), old(At()), i);
      }
      UndoneMatches(p, cp, At(), i);
      cp := cp.(compensated := cp.compensated + [p.steps[i].name]);
      var ok := Save(luck.save(Undone(i)), Undone(i));
      return if ok then None else Some(Stopped);
    }

    /** compensate: completed steps are undone newest first, and it only ends by itself when
        nothing is left to undo. */
    method Compensate(luck: Luck) returns (v: Verdict)
      requires Valid() && Matches(p, cp, At()) && At().back
      modifies this`cp, this`stored, this`log
      ensures Valid() && old(log) <= log && v != Finished
      ensures v == Failed && (forall i :: luck.undo(i) != Permanent) ==> AllUndone(p, At())
      ensures Kind(luck) ==> v == Failed && At().back && AllUndone(p, At())
      ensures forall x: Verdict :: v == x <==> UndoEnds(p, old(At()), luck, x)
      ensures cp.failedStep == old(cp.failedStep) && (stored.failedStep == old(stored.failedStep) || stored.failedStep == cp.failedStep)
      ensures log == old(log) + Undoing(p, old(At()), luck, old(At()).done - 1)
    {
      hide Legal, Recorded, Wf, Undoing, UndoEnds, UndoneDownTo, NextUndo;
      var i := |cp.completed| - 1;
      ghost var s := At();
      ghost var all := Undoing(p, At(), luck, At().done - 1);
      NoneUndone(p, s, luck);
      assert i == s.done - 1 && s.done <= |p.steps|;
      hide Matches, Kind, UndoesWell, AllUndone, PipelineOk;
      while i >= 0
        invariant -1 <= i < At().done == s.done && Valid() && Matches(p, cp, At()) && At().back && old(log) <= log
        invariant old(log) + all == log + Undoing(p, At(), luck, i)
        invariant UndoneDownTo(p, s, luck, At(), i)
        invariant cp.failedStep == old(cp.failedStep) && (stored.failedStep == old(stored.failedStep) || stored.failedStep == cp.failedStep)
      {
        CompensatedMeans(p, cp, At(), i);
        UndoingFrom(p, At(), luck, i);
        UndoneOneMore(p, s, luck, At(), i);
        KindUndoes(luck, i);
        if p.steps[i].comp && p.steps[i].name !in cp.compensated {
          var stop := UndoOne(i, luck);
          if stop.Some? {
            UndoDecides(p, s, luck, i, stop.value);
            return stop.value;
          }
        }
        i := i - 1;
      }
      UndoingNone(p, At(), luck);
      AllUndoneDecides(p, s, luck, At());
      return Failed;
    }

    /** anyCompensation. */
    method AnyCompensation() returns (any: bool)
      requires |cp.completed| <= |p.steps|
      ensures any <==> exists i :: 0 <= i < |cp.completed| && p.steps[i].comp
    {
      for i := 0 to |cp.completed|
        invariant forall j :: 0 <= j < i ==> !p.steps[j].comp
      {
        if p.steps[i].comp {
          return true;
        }
      }
      return false;
    }

    /** failed, for a permanent failure of step i. */
    method Fail(i: nat, luck: Luck) returns (v: Verdict)
      requires Valid() && Matches(p, cp, At()) && !At().back && i < |p.steps|
      modifies this`cp, this`stored, this`log
      ensures Valid() && old(log) <= log && v != Finished
      ensures !(p.saga && Undoable(p, old(At()))) ==> v == Failed
      ensures p.saga && Undoable(p, old(At())) && Kind(luck) ==> v == Failed && At().back && AllUndone(p, At())
      ensures luck.run(old(At()).done).Permanent? ==> forall x: Verdict :: v == x <==> StepEnds(p, old(At()), luck, x)
      ensures p.saga && Undoable(p, old(At())) && !luck.save(Turn).Lost? ==> stored.failedStep == p.steps[i].name
      ensures log == old(log) + Failing(p, old(At()), luck)
    {
      hide Legal, Recorded, Undoing, Wf, UndoEnds;
      ghost var s := At();
      var any := AnyCompensation();
      if !p.saga || !any {
        return Failed;
      }
      cp := cp.(phase := Compensating, failedStep := p.steps[i].name);
      var ok := Save(luck.save(Turn), Turn);
      if !ok {
        return Stopped;
      }
      TurnedEnds(p, s, At(), luck);
      v := Compensate(luck);
    }

    /** The next step runs, and is recorded before another begins. Nothing means it was. */
    method RunOne(luck: Luck) returns (v: Option<Verdict>)
      requires Valid() && Matches(p, cp, At()) && !At().back && At().done < |p.steps|
      modifies this`cp, this`stored, this`log
      ensures Valid() && old(log) <= log && v != Some(Finished)
      ensures v.None? ==> At() == After(old(At()), Done(old(At()).done)) && Matches(p, cp, At())
      ensures v.None? <==> luck.run(old(At()).done).Ok? && luck.save(Done(old(At()).done)).Saved?
      ensures v.Some? ==> forall x: Verdict :: v == Some(x) <==> StepEnds(p, old(At()), luck, x)
      ensures log == old(log) + Stepping(p, old(At()), luck)
    {
      hide Legal, Recorded, Failing, Wf, UndoEnds;
      var i := |cp.completed|;
      Note(Start(i, cp.epoch));
      var r := luck.run(i);
      if r.Permanent? {
        var f := Fail(i, luck);
        return Some(f);
      }
      if !r.Ok? {
        return Some(if r.Blocked? then Waiting else Stopped);
      }
      DoneMatches(p, cp, At());
      cp := cp.(completed := cp.completed + [p.steps[i].name]);
      var ok := Save(luck.save(Done(i)), Done(i));
      return if ok then None else Some(Stopped);
    }

    /** advance: resumes at the first step that is not recorded, and records each step
        before the next begins. It ends well only with every step recorded. */
    method Advance(luck: Luck) returns (v: Verdict)
      requires Valid() && Matches(p, cp, At())
      modifies this`cp, this`stored, this`log
      ensures Valid() && old(log) <= log
      ensures v == Finished ==> !At().back && At().done == |p.steps|
      ensures Smooth(luck) ==> v == if old(At().back) then Failed else Finished
      ensures forall x: Verdict :: v == x <==> Ends(p, old(At()), luck, x)
      ensures log == old(log) + Attempting(p, old(At()), luck)
    {
      hide Legal, Recorded, Undoing, Advancing, Stepping, Wf, UndoEnds, StepEnds;
      if cp.phase == Compensating {
        v := Compensate(luck);
        return;
      }
      ghost var s := At();
      ghost var all := Advancing(p, At(), luck);
      var i := |cp.completed|;
      while i < |p.steps|
        invariant i == At().done <= |p.steps| && !At().back && Valid() && Matches(p, cp, At()) && old(log) <= log
        invariant old(log) + all == log + Advancing(p, At(), luck)
        invariant s.done <= i && At() == s.(done := i) && RunUpTo(s, luck, i)
      {
        AdvancingFrom(p, At(), luck);
        var stop := RunOne(luck);
        if stop.Some? {
          RunDecides(p, s, luck, i, stop.value);
          return stop.value;
        }
        i := i + 1;
      }
      AdvancingDone(p, At(), luck);
      AllRunDecides(p, s, luck);
      return Finished;
    }

    /** Handler: one attempt on the stored record, from what it holds. */
    method Attempt(luck: Luck) returns (v: Verdict)
      requires Valid()
      modifies this`cp, this`stored, this`log
      ensures Valid() && old(log) <= log
      ensures v == Finished ==> !At().back && At().done == |p.steps|
      ensures Smooth(luck) ==> v == if old(At().back) then Failed else Finished
      ensures forall x: Verdict :: v == x <==> Ends(p, old(At()), luck, x)
      ensures old(At()).done <= |p.steps| && log == old(log) + Attempting(p, old(At()), luck)
    {
      hide Legal, Recorded, Attempting, Ends;
      var c := Load(p, Stored(stored));
      assert c == Some(stored) by {
        assert Names(p)[..At().done] <= Names(p);
      }
      cp := c.value;
      v := Advance(luck);
    }

    /** Redrive: an operator sends the record back to a step, or is refused. */
    method Redrive(idx: nat) returns (r: RewindResult)
      requires Valid() && idx < |p.steps|
      modifies this`stored, this`log
      ensures Valid() && old(log) <= log
      ensures r.Resumes? <==> Legal1(Comps(p), old(At()), Rewound(idx))
      ensures if r.Resumes? then At() == After(old(At()), Rewound(idx)) && log == old(log) + [Rewound(idx)]
              else stored == old(stored) && log == old(log)
    {
      hide Recorded, Rewind;
      RewindLegal(p, stored, At(), idx);
      r := Rewind(p, Stored(stored), p.steps[idx].name);
      if r.Resumes? {
        LegalMore(Comps(p), init, log, Rewound(idx));
        AfterWf(Comps(p), At(), Rewound(idx));
        stored := r.c;
        log := log + [Rewound(idx)];
      }
    }
  }

  // ---- a compensation that is lost ----

  const TWO_STEPS := Pipeline([], [StepDef([1], true), StepDef([2], false)], true)

  const NOT_BEGUN := Progress(0, false, [], 0)

  /** The second step fails for good, the first is compensated, and that cannot be saved. */
  function Mishap(): Luck {
    Luck(i => if i == 1 then Permanent else Ok, _ => Ok, (e: Event) => if e.Undone? then Lost else Saved)
  }

  function Calm(): Luck { Luck(_ => Ok, _ => Ok, _ => Saved) }

  lemma MishapEvents()
    ensures Attempting(TWO_STEPS, NOT_BEGUN, Mishap()) == [Start(0, 0), Done(0), Start(1, 0), Turn, Undo(0, 0)]
  {
    var p, luck := TWO_STEPS, Mishap();
    var one := After(NOT_BEGUN, Done(0));
    assert one == Progress(1, false, [], 0);
    assert p.steps[0].comp && Undoable(p, one);
    assert Undoing(p, After(one, Turn), luck, 0) == [Undo(0, 0)];
    assert Failing(p, one, luck) == [Turn, Undo(0, 0)];
    assert Advancing(p, one, luck) == [Start(1, 0), Turn, Undo(0, 0)];
  }

  lemma CalmEvents()
    ensures Attempting(TWO_STEPS, NOT_BEGUN, Calm()) == [Start(0, 0), Done(0), Start(1, 0), Done(1)]
  {
    var p, luck := TWO_STEPS, Calm();
    var one := After(NOT_BEGUN, Done(0));
    assert one == Progress(1, false, [], 0);
    AdvancingDone(p, After(one, Done(1)), luck);
    assert Advancing(p, one, luck) == [Start(1, 0), Done(1)];
  }

  /** A compensation that ran and was lost before it could be recorded does not count: here
      the first step is compensated in epoch 0 and, after a rewind, runs again in epoch 0. */
  method LostCompensation() returns (r: Run)
    ensures r.Valid() && r.p == TWO_STEPS && r.init == NOT_BEGUN
    ensures r.log == [Start(0, 0), Done(0), Start(1, 0), Turn, Undo(0, 0), Rewound(0),
                      Start(0, 0), Done(0), Start(1, 0), Done(1)]
  {
    hide Legal, Attempting, Mishap, Calm, Recorded;
    r := new Run(TWO_STEPS, NewCheckpoint(TWO_STEPS), NOT_BEGUN);
    MishapEvents();
    var first := r.Attempt(Mishap());
    MishapLeaves(r.log);
    var back := r.Redrive(0);
    CalmEvents();
    var second := r.Attempt(Calm());
  }

  lemma MishapLeaves(log: seq<Event>)
    requires log == [Start(0, 0), Done(0), Start(1, 0), Turn, Undo(0, 0)]
    ensures Recorded(NOT_BEGUN, log) == Progress(1, true, [], 0)
  {
    hide Recorded;
    RecordedNone(NOT_BEGUN, log);
    forall k: nat | k < 5 ensures Recorded(NOT_BEGUN, log[..k + 1]) == After(Recorded(NOT_BEGUN, log[..k]), log[k]) {
      Next(NOT_BEGUN, log, k);
    }
    assert Recorded(NOT_BEGUN, log[..0 + 1]) == NOT_BEGUN;
    assert Recorded(NOT_BEGUN, log[..1 + 1]) == Progress(1, false, [], 0);
    assert Recorded(NOT_BEGUN, log[..2 + 1]) == Progress(1, false, [], 0);
    assert Recorded(NOT_BEGUN, log[..3 + 1]) == Progress(1, true, [], 0);
    assert log[..4 + 1] == log;
  }

  lemma RecordedNone(init: Progress, log: seq<Event>)
    ensures Recorded(init, log[..0]) == init
  {
  }
}
