/**
 When the success of an operation rests on a status that was seen. The status answer may lack its field; then the stored
 status is taken instead, and others write that one too. For which operations, and beside which other writers, every
 success is observed, in both directions.
 */
module OperationObserved {
  import opened Common
  import opened OperationRecord
  import opened OperationHistory
  import opened OperationGuarantees

  // The operation is for a guest in a certain state: a start, stop or reboot, or the creation of a guest that is to
  // run.
  predicate Aims(db0: Db) {
    IsPower(db0.row.job.op) || (db0.row.job.op == VmCreate && db0.row.job.autoStart)
  }

  function Goal(db0: Db): VmStatus
    requires Aims(db0)
  {
    if IsPower(db0.row.job.op) then PowerGoal(db0.row.job.op) else VmRunning
  }

  predicate Succeeds(log: seq<Event>, j: nat) {
    j < |log| && log[j].Saved? && log[j].saved.row.life.state == Succeeded
  }

  // Event `j` commits a success although the guest was not seen in the state the operation is for.
  predicate Unobserved(db0: Db, log: seq<Event>, j: nat)
    requires Aims(db0)
  {
    Succeeds(log, j) && StatusSeen(log[..j]) != Some(Some(Goal(db0)))
  }

  // A success is unobserved exactly if the answer had no status and the guest stood in the database, at the last look
  // at it, in the state the operation is for.
  lemma UnobservedIffFallback(db0: Db, log: seq<Event>, j: nat)
    requires Clean(db0, log) && Fresh(db0) && Aims(db0) && Succeeds(log, j)
    ensures Unobserved(db0, log, j) <==>
            StatusSeen(log[..j]) == Some(None) && Shows(Stored(db0, log[..j]), Goal(db0))
  {
    SuccessIsAlwaysObserved(db0, log);
    assert SuccessSeen(db0, log[..j], log[j].saved);
  }

  // ---- rows that are over

  predicate Over(db: Db) {
    db.row.life.state.Terminal()
  }

  lemma {:induction false} OverIsKept(db0: Db, log: seq<Event>, i: nat)
    requires Clean(db0, log) && Fresh(db0) && i < |log| && log[i].Saved? && Over(log[i].saved)
    ensures Over(Stored(db0, log))
    decreases |log|
  {
    var n := |log| - 1;
    if i < n {
      CleanStep(db0, log, n);
      OverIsKept(db0, log[..n], i);
      JudgeStored(db0, log[..n]);
    }
  }

  // A row that is over is never committed again.
  lemma EndIsFinal(db0: Db, log: seq<Event>, i: nat, j: nat)
    requires Clean(db0, log) && Fresh(db0) && i < j < |log| && log[i].Saved? && Over(log[i].saved)
    ensures !log[j].Saved?
  {
    if log[j].Saved? {
      SaveIsAllowed(db0, log, j);
      OverIsKept(db0, log[..j], i);
      JudgeStored(db0, log[..j]);
    }
  }

  // ---- who stored the goal

  // The guest is stored in the state the operation is for, at a point where an answer without a status would take it.
  predicate Holding(db0: Db, db: Db)
    requires Aims(db0)
  {
    Shows(db, Goal(db0)) && (db0.row.job.op == VmCreate ==> StoresStart(db))
  }

  ghost predicate WroteGoal(db0: Db, log: seq<Event>)
    requires Aims(db0)
  {
    exists i | 0 <= i < |log| :: log[i] == Reloaded(Some(Goal(db0)))
  }

  // Until it succeeds, the operation itself never puts its guest there: it stood there before, or others wrote it.
  lemma {:induction false} HeldByOthers(db0: Db, log: seq<Event>)
    requires Clean(db0, log) && Fresh(db0) && Aims(db0) && Holding(db0, Stored(db0, log))
    requires forall j | 0 <= j < |log| :: !Succeeds(log, j)
    ensures WroteGoal(db0, log) || (IsPower(db0.row.job.op) && Shows(db0, Goal(db0)))
    ensures db0.guest.vm.Some?
    decreases |log|
  {
    if log != [] {
      var n := |log| - 1;
      CleanStep(db0, log, n);
      StoredAt(db0, log);
      StoredAt(db0, log[..n]);
      JudgeStored(db0, log[..n]);
      assert !Succeeds(log, n);
      forall j | 0 <= j < n
        ensures !Succeeds(log[..n], j)
      {
        assert !Succeeds(log, j);
      }
      GuestIsThere(db0, log);
      if log[n] != Reloaded(Some(Goal(db0))) {
        assert Holding(db0, Stored(db0, log[..n]));
        HeldByOthers(db0, log[..n]);
        if i :| 0 <= i < n && log[..n][i] == Reloaded(Some(Goal(db0))) { assert log[i] == Reloaded(Some(Goal(db0))); }
      }
    }
  }

  lemma {:induction false} GuestIsThere(db0: Db, log: seq<Event>)
    requires Clean(db0, log)
    ensures Stored(db0, log).guest.vm.Some? == db0.guest.vm.Some?
    ensures Stored(db0, log).guest.templateExists == db0.guest.templateExists
    decreases |log|
  {
    if log != [] {
      var n := |log| - 1;
      CleanStep(db0, log, n);
      GuestIsThere(db0, log[..n]);
      JudgeStored(db0, log[..n]);
    }
  }

  // A task is awaited only over records that the operation can use.
  lemma {:induction false} DoneIsUsable(db0: Db, log: seq<Event>)
    requires Clean(db0, log) && Fresh(db0) && TaskDone(db0.row.job.op, log).Some?
    ensures Usable(db0)
    decreases |log|
  {
    var n := |log| - 1;
    CleanStep(db0, log, n);
    if log[n].Polled? {
      JudgeStored(db0, log[..n]);
      StoredAt(db0, log[..n]);
      GuestIsThere(db0, log[..n]);
    } else {
      DoneIsUsable(db0, log[..n]);
    }
  }

  // What an unobserved success rests on.
  lemma UnobservedSuccessRests(db0: Db, log: seq<Event>, j: nat)
    requires Clean(db0, log) && Fresh(db0) && Aims(db0) && Unobserved(db0, log, j)
    ensures StatusSeen(log[..j]) == Some(None) && Usable(db0)
    ensures WroteGoal(db0, log[..j]) || (IsPower(db0.row.job.op) && Shows(db0, Goal(db0)))
  {
    SuccessIsAlwaysObserved(db0, log);
    assert SuccessSeen(db0, log[..j], log[j].saved);
    CleanStep(db0, log, j);
    DoneIsUsable(db0, log[..j]);
    forall i | 0 <= i < j
      ensures !Succeeds(log[..j], i)
    {
      if Succeeds(log[..j], i) { EndIsFinal(db0, log, i, j); }
    }
    HeldByOthers(db0, log[..j]);
  }

  // Others write no status of the guest but those in `foreign`.
  ghost predicate WritesOnly(log: seq<Event>, foreign: set<VmStatus>) {
    forall i | 0 <= i < |log| :: log[i].Reloaded? && log[i].written.Some? ==> log[i].written.value in foreign
  }

  ghost predicate AlwaysObserved(db0: Db, foreign: set<VmStatus>)
    requires Aims(db0)
  {
    forall log: seq<Event>, j: nat | Clean(db0, log) && WritesOnly(log, foreign) && j < |log| ::
        !Unobserved(db0, log, j)
  }

  // The operation, and everybody beside it, leaves it to the hypervisor to say that the goal is reached.
  predicate OnlySeen(db0: Db, foreign: set<VmStatus>)
    requires Aims(db0)
  {
    Usable(db0) ==> Goal(db0) !in foreign && (IsPower(db0.row.job.op) ==> !Shows(db0, Goal(db0)))
  }

  // Every success of the operation is observed if and only if its guest was not stored in the state it is for when it
  // was enqueued, and nobody else stores that state while it is open. For a creation only the second matters.
  lemma AlwaysObservedIff(db0: Db, foreign: set<VmStatus>)
    requires Fresh(db0) && Aims(db0) && db0.row.life.state == Queued
    ensures AlwaysObserved(db0, foreign) <==> OnlySeen(db0, foreign)
  {
    if OnlySeen(db0, foreign) {
      forall log: seq<Event>, j: nat | Clean(db0, log) && WritesOnly(log, foreign) && j < |log|
        ensures !Unobserved(db0, log, j)
      {
        if Unobserved(db0, log, j) {
          UnobservedSuccessRests(db0, log, j);
        }
      }
    } else if IsPower(db0.row.job.op) {
      var written := if Shows(db0, Goal(db0)) then None else Some(Goal(db0));
      SilentPowerIsClean(db0, written);
      var log := SilentPower(db0, written);
      assert WritesOnly(log, foreign) && Unobserved(db0, log, |log| - 1);
    } else {
      SilentCreateIsClean(db0);
      var log := SilentCreate(db0);
      assert WritesOnly(log, foreign) && Unobserved(db0, log, |log| - 1);
    }
  }

  // ---- two attempts in which everything is granted and answered, but the status answers have no status

  function With(db0: Db, state: State, phase: Phase, task: Option<Task>, status: Option<VmStatus>): Db {
    var db := Written(db0.(row := db0.row.(life := db0.row.life.(state := state), phase := phase, task := task)),
        status);
    db.(guest := db.guest.(assignment := Reassigned(db0.guest.assignment, db)))
  }

  function SilentPower(db0: Db, written: Option<VmStatus>): seq<Event>
    requires IsPower(db0.row.job.op)
  {
    var task := Task(0, PowerAction(db0.row.job.op));
    [Began(db0), Saved(With(db0, Running, NoPhase, None, None)), Authorized(Said(true)),
     Submitted(task.origin, true, Said(Some(0))), Saved(With(db0, Running, NoPhase, Some(task), None)),
     Reloaded(written), Polled(task, Ended(ExitOk)), Observed(Said(None)),
     Saved(With(db0, Succeeded, NoPhase, Some(task), Some(PowerGoal(db0.row.job.op))))]
  }

  lemma JudgeStep(db0: Db, log: seq<Event>, n: nat)
    requires n < |log|
    ensures Judge(db0, log[..n + 1]) == Next(Judge(db0, log[..n]), log[n])
  {
    assert log[..n + 1][..n] == log[..n];
  }

  // Where the power operation stands after its first `n` events.
  predicate PowerAt(db0: Db, w: Watch, task: Option<Task>, status: Option<VmStatus>) {
    !w.bad && !w.dead && w.db == With(db0, Running, NoPhase, task, status)
  }

  lemma PowerStart(db0: Db, written: Option<VmStatus>)
    requires Fresh(db0) && IsPower(db0.row.job.op) && db0.row.life.state == Queued && db0.guest.vm.Some?
    ensures var w := Judge(db0, SilentPower(db0, written)[..2]); PowerAt(db0, w, None, None) && !w.polled
  {
    var log := SilentPower(db0, written);
    assert log[..0] == [];
    JudgeStep(db0, log, 0);
    assert Judge(db0, log[..1]) == AfterBegan(Start0(db0), db0);
    JudgeStep(db0, log, 1);
  }

  lemma PowerGrant(db0: Db, written: Option<VmStatus>)
    requires Fresh(db0) && IsPower(db0.row.job.op) && db0.row.life.state == Queued && db0.guest.vm.Some?
    ensures var w := Judge(db0, SilentPower(db0, written)[..3]);
            PowerAt(db0, w, None, None) && !w.polled && w.granted && w.last == Authorized(Said(true))
  {
    PowerStart(db0, written);
    JudgeStep(db0, SilentPower(db0, written), 2);
  }

  lemma PowerCall(db0: Db, written: Option<VmStatus>)
    requires Fresh(db0) && IsPower(db0.row.job.op) && db0.row.life.state == Queued && db0.guest.vm.Some?
    ensures var w := Judge(db0, SilentPower(db0, written)[..4]);
            && PowerAt(db0, w, None, None) && !w.polled && w.granted
            && w.last == Submitted(PowerAction(db0.row.job.op), true, Said(Some(0)))
  {
    PowerGrant(db0, written);
    JudgeStep(db0, SilentPower(db0, written), 3);
  }

  lemma PowerCommitted(db0: Db, written: Option<VmStatus>)
    requires Fresh(db0) && IsPower(db0.row.job.op) && db0.row.life.state == Queued && db0.guest.vm.Some?
    ensures var w := Judge(db0, SilentPower(db0, written)[..5]);
            PowerAt(db0, w, Some(Task(0, PowerAction(db0.row.job.op))), None) && !w.polled && w.granted
  {
    PowerCall(db0, written);
    JudgeStep(db0, SilentPower(db0, written), 4);
  }

  lemma PowerLook(db0: Db, written: Option<VmStatus>)
    requires Fresh(db0) && IsPower(db0.row.job.op) && db0.row.life.state == Queued && db0.guest.vm.Some?
    ensures var w := Judge(db0, SilentPower(db0, written)[..6]);
            PowerAt(db0, w, Some(Task(0, PowerAction(db0.row.job.op))), written) && !w.polled && w.granted
  {
    PowerCommitted(db0, written);
    JudgeStep(db0, SilentPower(db0, written), 5);
  }

  lemma PowerMiddle(db0: Db, written: Option<VmStatus>)
    requires Fresh(db0) && IsPower(db0.row.job.op) && db0.row.life.state == Queued && db0.guest.vm.Some?
    ensures var task := Some(Task(0, PowerAction(db0.row.job.op)));
            var w := Judge(db0, SilentPower(db0, written)[..7]);
            PowerAt(db0, w, task, written) && w.granted && w.finished == task
  {
    PowerLook(db0, written);
    JudgeStep(db0, SilentPower(db0, written), 6);
  }

  lemma SilentPowerIsClean(db0: Db, written: Option<VmStatus>)
    requires Fresh(db0) && IsPower(db0.row.job.op) && db0.row.life.state == Queued && db0.guest.vm.Some?
    requires Shows(Written(db0, written), PowerGoal(db0.row.job.op))
    ensures Clean(db0, SilentPower(db0, written))
    ensures StatusSeen(SilentPower(db0, written)[..8]) == Some(None)
  {
    var log := SilentPower(db0, written);
    PowerMiddle(db0, written);
    JudgeStep(db0, log, 7);
    JudgeStep(db0, log, 8);
    assert log[..9] == log;
    JudgeStatus(db0, log[..8]);
  }

  function SilentCreate(db0: Db): seq<Event> {
    var clone, start := Task(0, Clone), Task(1, Start);
    [Began(db0), Saved(With(db0, Running, NoPhase, None, None)), Authorized(Said(true)), Inventory(Said(false)),
     Authorized(Said(true)), Submitted(Clone, true, Said(Some(0))),
         Saved(With(db0, Running, CloneSubmitted, Some(clone), None)),
     Polled(clone, Ended(ExitOk)), Observed(Said(None)), Authorized(Said(true)),
     Submitted(Start, true, Said(Some(1))), Saved(With(db0, Running, StartSubmitted, Some(start), Some(VmStopped))),
     Reloaded(Some(VmRunning)), Polled(start, Ended(ExitOk)), Observed(Said(None)),
     Saved(With(db0, Succeeded, StartSubmitted, Some(start), Some(VmRunning)))]
  }

  predicate Creates(db0: Db) {
    && Fresh(db0) && db0.row.job.op == VmCreate && db0.row.job.autoStart && db0.row.life.state == Queued
    && db0.guest.vm.Some? && db0.guest.templateExists
  }

  // Where the creation stands after its first `n` events.
  predicate Stands(db0: Db, w: Watch, phase: Phase, task: Option<Task>, status: Option<VmStatus>) {
    !w.bad && !w.dead && w.granted && w.db == With(db0, Running, phase, task, status)
  }

  lemma CreateClaimed(db0: Db)
    requires Creates(db0)
    ensures var w := Judge(db0, SilentCreate(db0)[..4]); Stands(db0, w, NoPhase, None, None) && !w.polled && w.free
  {
    var log := SilentCreate(db0);
    assert log[..0] == [];
    JudgeStep(db0, log, 0);
    JudgeStep(db0, log, 1);
    JudgeStep(db0, log, 2);
    JudgeStep(db0, log, 3);
  }

  lemma CreateStart(db0: Db)
    requires Creates(db0)
    ensures var w := Judge(db0, SilentCreate(db0)[..6]);
            Stands(db0, w, NoPhase, None, None) && !w.polled && w.last == Submitted(Clone, true, Said(Some(0)))
  {
    var log := SilentCreate(db0);
    CreateClaimed(db0);
    JudgeStep(db0, log, 4);
    JudgeStep(db0, log, 5);
  }

  lemma CreateSaved(db0: Db)
    requires Creates(db0)
    ensures var w := Judge(db0, SilentCreate(db0)[..7]);
            Stands(db0, w, CloneSubmitted, Some(Task(0, Clone)), None) && !w.polled
  {
    var log := SilentCreate(db0);
    var w, db := Judge(db0, log[..6]), With(db0, Running, CloneSubmitted, Some(Task(0, Clone)), None);
    CreateStart(db0);
    CloneIsCommitted(db0, w);
    JudgeStep(db0, log, 6);
    SavedStands(w, db);
  }

  lemma SavedStands(w: Watch, db: Db)
    requires AllowedSave(w, db) && !w.bad
    ensures var n := Next(w, Saved(db));
            !n.bad && n.dead == w.dead && n.granted == w.granted && n.db == db && !n.polled
  {
  }

  lemma CloneIsCommitted(db0: Db, w: Watch)
    requires Creates(db0) && Stands(db0, w, NoPhase, None, None) && w.last == Submitted(Clone, true, Said(Some(0)))
    ensures AllowedSave(w, With(db0, Running, CloneSubmitted, Some(Task(0, Clone)), None))
  {
  }

  lemma CreateCloned(db0: Db)
    requires Creates(db0)
    ensures var w := Judge(db0, SilentCreate(db0)[..9]);
            Stands(db0, w, CloneSubmitted, Some(Task(0, Clone)), None) && w.lastStatus == Some(None)
  {
    var log := SilentCreate(db0);
    CreateSaved(db0);
    JudgeStep(db0, log, 7);
    JudgeStep(db0, log, 8);
  }

  lemma CreateCalled(db0: Db)
    requires Creates(db0)
    ensures var w := Judge(db0, SilentCreate(db0)[..11]);
            && Stands(db0, w, CloneSubmitted, Some(Task(0, Clone)), None)
            && w.last == Submitted(Start, true, Said(Some(1)))
  {
    var log := SilentCreate(db0);
    CreateCloned(db0);
    JudgeStep(db0, log, 9);
    JudgeStep(db0, log, 10);
  }

  lemma CreateStarted(db0: Db)
    requires Creates(db0)
    ensures var w := Judge(db0, SilentCreate(db0)[..12]);
            Stands(db0, w, StartSubmitted, Some(Task(1, Start)), Some(VmStopped)) && !w.polled
  {
    CreateCalled(db0);
    JudgeStep(db0, SilentCreate(db0), 11);
  }

  lemma CreateRunning(db0: Db)
    requires Creates(db0)
    ensures var w := Judge(db0, SilentCreate(db0)[..14]);
            && Stands(db0, w, StartSubmitted, Some(Task(1, Start)), Some(VmRunning))
            && w.finished == Some(Task(1, Start))
  {
    var log := SilentCreate(db0);
    CreateStarted(db0);
    JudgeStep(db0, log, 12);
    JudgeStep(db0, log, 13);
  }

  lemma SilentCreateIsClean(db0: Db)
    requires Creates(db0)
    ensures Clean(db0, SilentCreate(db0))
    ensures StatusSeen(SilentCreate(db0)[..15]) == Some(None)
  {
    var log := SilentCreate(db0);
    CreateRunning(db0);
    JudgeStep(db0, log, 14);
    JudgeStatus(db0, log[..15]);
    JudgeStep(db0, log, 15);
    assert log[..16] == log;
  }

  // ---- logs without a status in any answer

  lemma {:induction false} SilentAnswers(log: seq<Event>)
    requires forall e | e in log :: e.Observed? ==> e.status == Said(None)
    ensures StatusSeen(log) in {None, Some(None)}
    decreases |log|
  {
    if log != [] {
      assert log == log[..|log| - 1] + [log[|log| - 1]];
      SilentAnswers(log[..|log| - 1]);
    }
  }

  lemma {:induction false} SuccessWasSaved(db0: Db, log: seq<Event>) returns (j: nat)
    requires db0.row.life.state != Succeeded && Stored(db0, log).row.life.state == Succeeded
    ensures Succeeds(log, j)
    decreases |log|
  {
    var n := |log| - 1;
    if log[n].Saved? {
      j := n;
    } else {
      j := SuccessWasSaved(db0, log[..n]);
    }
  }

  lemma SilentSuccess(db0: Db, log: seq<Event>)
    requires Aims(db0) && db0.row.life.state != Succeeded && Stored(db0, log).row.life.state == Succeeded
    requires forall e | e in log :: e.Observed? ==> e.status == Said(None)
    ensures exists j: nat :: j < |log| && Unobserved(db0, log, j)
  {
    var j := SuccessWasSaved(db0, log);
    SilentAnswers(log[..j]);
    assert Unobserved(db0, log, j);
  }
}
