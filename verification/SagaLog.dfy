/** Histories of one stored record's saga (pipeline/pipeline.go): which steps started,
    which were durably recorded, which were undone, and when an operator rewound it. What
    a legal history is, and what follows for all of them. */
module SagaLog {

  /** What a stored checkpoint records: the first done steps are complete, undone lists
      those compensated since, newest first. */
  datatype Progress = Progress(done: nat, back: bool, undone: seq<nat>, epoch: nat)

  datatype Event =
    | Start(i: nat, epoch: nat) // a step runs, under this epoch's idempotency keys
    | Done(i: nat)              // and is recorded
    | Turn                      // recorded: the saga turns back
    | Undo(i: nat, epoch: nat)  // a compensation runs
    | Undone(i: nat)            // and is recorded
    | Rewound(idx: nat)         // the record will resume at step idx

  function After(s: Progress, e: Event): Progress {
    match e
    case Done(_) => s.(done := s.done + 1)
    case Turn => s.(back := true)
    case Undone(i) => s.(undone := s.undone + [i])
    case Rewound(idx) => Progress(idx, false, [], if s.undone != [] then s.epoch + 1 else s.epoch)
    case _ => s
  }

  function Recorded(init: Progress, log: seq<Event>): Progress {
    if log == [] then init else After(Recorded(init, log[..|log| - 1]), log[|log| - 1])
  }

  /** The newest completed step with a compensation that has not been undone. */
  ghost predicate NextUndo(comp: seq<bool>, s: Progress, i: nat) {
    && i < s.done && i < |comp| && comp[i] && i !in s.undone
    && (forall j :: i < j < s.done && j < |comp| && comp[j] ==> j in s.undone)
  }

  /** What may happen next. */
  ghost predicate Legal1(comp: seq<bool>, s: Progress, e: Event) {
    match e
    case Start(i, epoch) => !s.back && i == s.done && i < |comp| && epoch == s.epoch
    case Done(i) => !s.back && i == s.done && i < |comp|
    case Turn => !s.back
    case Undo(i, epoch) => s.back && NextUndo(comp, s, i) && epoch == s.epoch
    case Undone(i) => s.back && NextUndo(comp, s, i)
    case Rewound(idx) => idx <= s.done && (forall u <- s.undone :: idx <= u)
  }

  ghost predicate Legal(comp: seq<bool>, init: Progress, log: seq<Event>) {
    forall k :: 0 <= k < |log| ==> Legal1(comp, Recorded(init, log[..k]), log[k])
  }

  /** A checkpoint as the pipeline writes them. */
  ghost predicate Wf(comp: seq<bool>, s: Progress) {
    && s.done <= |comp| && (!s.back ==> s.undone == [])
    && (forall u <- s.undone :: u < s.done && comp[u])
    && (forall u <- s.undone, j :: u < j < s.done && comp[j] ==> j in s.undone)
    && (forall i, j :: 0 <= i < j < |s.undone| ==> s.undone[j] < s.undone[i])
  }

  lemma AfterWf(comp: seq<bool>, s: Progress, e: Event)
    requires Wf(comp, s) && Legal1(comp, s, e)
    ensures Wf(comp, After(s, e))
  {
    if e.Undone? {
      var t := After(s, e);
      forall i, j | 0 <= i < j < |t.undone| ensures t.undone[j] < t.undone[i] {
        if j == |s.undone| {
          assert s.undone[i] in s.undone;
        }
      }
      forall u <- t.undone, j | u < j < t.done && comp[j] ensures j in t.undone {
        if u in s.undone {
          assert j in s.undone;
        }
      }
    }
  }

  lemma LegalMore(comp: seq<bool>, init: Progress, log: seq<Event>, e: Event)
    requires Legal(comp, init, log) && Legal1(comp, Recorded(init, log), e)
    ensures Legal(comp, init, log + [e]) && Recorded(init, log + [e]) == After(Recorded(init, log), e)
  {
    var more := log + [e];
    assert more[..|log|] == log;
    forall k | 0 <= k < |more| ensures Legal1(comp, Recorded(init, more[..k]), more[k]) {
      if k < |log| {
        assert more[..k] == log[..k];
      }
    }
  }

  lemma Next(init: Progress, log: seq<Event>, k: nat)
    requires k < |log|
    ensures Recorded(init, log[..k + 1]) == After(Recorded(init, log[..k]), log[k])
  {
    assert log[..k + 1][..k] == log[..k];
  }

  /** Every recorded checkpoint is well formed: Completed is a prefix of the steps, and
      compensations are recorded strictly newest first. */
  lemma {:induction false} AlwaysWf(comp: seq<bool>, init: Progress, log: seq<Event>, k: nat)
    requires Wf(comp, init) && Legal(comp, init, log) && k <= |log|
    ensures Wf(comp, Recorded(init, log[..k]))
  {
    if k > 0 {
      AlwaysWf(comp, init, log, k - 1);
      Next(init, log, k - 1);
      AfterWf(comp, Recorded(init, log[..k - 1]), log[k - 1]);
    }
  }

  /** A durably recorded step is not started again until a rewind forgets it. */
  lemma {:induction false} NotRestarted(comp: seq<bool>, init: Progress, log: seq<Event>, j: nat, k: nat)
    requires Legal(comp, init, log) && j < k < |log| && log[j].Done?
    requires forall m :: j < m < k && log[m].Rewound? ==> log[m].idx > log[j].i
    ensures Recorded(init, log[..k]).done > log[j].i
    ensures log[k].Start? ==> log[k].i != log[j].i
  {
    hide Recorded;
    Next(init, log, k - 1);
    assert Legal1(comp, Recorded(init, log[..j]), log[j]) && Legal1(comp, Recorded(init, log[..k]), log[k]);
    assert Legal1(comp, Recorded(init, log[..k - 1]), log[k - 1]);
    if j < k - 1 {
      NotRestarted(comp, init, log, j, k - 1);
    }
  }

  /** Between two rewinds, compensations are recorded strictly newest first. */
  lemma NewestFirst(comp: seq<bool>, init: Progress, log: seq<Event>, j: nat, k: nat)
    requires Wf(comp, init) && Legal(comp, init, log) && j < k < |log| && log[j].Undone? && log[k].Undone?
    requires forall m :: j < m < k ==> !log[m].Rewound?
    ensures log[k].i < log[j].i
  {
    StaysUndone(init, log, j, k);
    AlwaysWf(comp, init, log, k + 1);
    Next(init, log, k);
    var s, t := Recorded(init, log[..k]), Recorded(init, log[..k + 1]);
    var a :| 0 <= a < |s.undone| && s.undone[a] == log[j].i;
    assert t.undone[a] == log[j].i && t.undone[|s.undone|] == log[k].i;
  }

  lemma {:induction false} StaysUndone(init: Progress, log: seq<Event>, j: nat, k: nat)
    requires j < k <= |log| && log[j].Undone? && forall m :: j < m < k ==> !log[m].Rewound?
    ensures log[j].i in Recorded(init, log[..k]).undone
  {
    Next(init, log, k - 1);
    if j < k - 1 {
      StaysUndone(init, log, j, k - 1);
    }
  }

  /** Epochs only grow, and exactly at a rewind that finds a recorded compensation. */
  lemma {:induction false} EpochGrows(init: Progress, log: seq<Event>, j: nat, k: nat)
    requires j <= k <= |log|
    ensures Recorded(init, log[..j]).epoch <= Recorded(init, log[..k]).epoch
    ensures Recorded(init, log[..j]).epoch < Recorded(init, log[..k]).epoch <==>
            exists m :: j <= m < k && Bumps(init, log, m)
  {
    if j < k {
      EpochGrows(init, log, j, k - 1);
      Next(init, log, k - 1);
      if Recorded(init, log[..j]).epoch < Recorded(init, log[..k]).epoch && !Bumps(init, log, k - 1) {
        var m :| j <= m < k - 1 && Bumps(init, log, m);
      }
    }
  }

  ghost predicate Bumps(init: Progress, log: seq<Event>, m: nat)
    requires m < |log|
  {
    log[m].Rewound? && Recorded(init, log[..m]).undone != []
  }

  /** After a recorded compensation the saga is turned back with something undone, until a
      rewind begins a new epoch. */
  lemma {:induction false} UndoneOrLater(comp: seq<bool>, init: Progress, log: seq<Event>, j: nat, k: nat)
    requires Legal(comp, init, log) && j < k <= |log| && log[j].Undone?
    ensures var e, s := Recorded(init, log[..j]).epoch, Recorded(init, log[..k]);
            s.epoch > e || (s.epoch == e && s.back && s.undone != [])
  {
    hide Recorded;
    Next(init, log, k - 1);
    assert Legal1(comp, Recorded(init, log[..k - 1]), log[k - 1]);
    if j < k - 1 {
      UndoneOrLater(comp, init, log, j, k - 1);
    }
  }

  /** A step whose compensation was recorded only runs again under a larger epoch, so its
      idempotency keys are new. */
  lemma FreshEpoch(comp: seq<bool>, init: Progress, log: seq<Event>, j: nat, k: nat)
    requires Legal(comp, init, log) && j < k < |log| && log[j].Undone? && log[k].Start?
    ensures log[k].epoch > Recorded(init, log[..j]).epoch
  {
    hide Recorded;
    assert Legal1(comp, Recorded(init, log[..k]), log[k]);
    UndoneOrLater(comp, init, log, j, k);
  }

  /** Exactly when a step that a compensation ran for runs again under a larger epoch: a
      rewind in between found a recorded compensation. */
  lemma FreshEpochIff(comp: seq<bool>, init: Progress, log: seq<Event>, j: nat, k: nat)
    requires Legal(comp, init, log) && j < k < |log| && log[j].Undo? && log[k].Start?
    ensures log[k].epoch > log[j].epoch <==> exists m :: j <= m < k && Bumps(init, log, m)
  {
    assert Legal1(comp, Recorded(init, log[..j]), log[j]) && Legal1(comp, Recorded(init, log[..k]), log[k]);
    EpochGrows(init, log, j, k);
  }
}
