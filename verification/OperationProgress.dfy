/**
 What the operations achieve: where nothing stands in their way, they succeed, with the records they are for. And the
 runs in which a success is not observed.
 */
module OperationProgress {
  import opened Common
  import opened OperationRecord
  import opened OperationHistory
  import opened OperationEngine
  import opened OperationGuarantees
  import opened OperationObserved
  import opened OperationCauses
  import opened OperationWorker

  // Everything is granted and answered with a task, every task ends well and in time, every commit lands.
  ghost predicate Fair(env: Env) {
    forall i: nat ::
      && env.authorize(i) == Said(true) && env.submit(i).taskId.Said? && env.submit(i).taskId.value.Some?
      && env.poll(i) == Ended(ExitOk) && !env.overdue(i) && env.save(i)
  }

  // ---- what a log holds, found in its events

  predicate Calls(e: Event, action: Action) {
    e.Submitted? && e.action == action
  }

  ghost predicate HasCall(log: seq<Event>, action: Action) {
    exists i | 0 <= i < |log| :: Calls(log[i], action)
  }

  lemma HasCallMore(log: seq<Event>, n: nat, action: Action)
    requires n <= |log| && HasCall(log[..n], action)
    ensures HasCall(log, action)
  {
    var i :| 0 <= i < n && Calls(log[..n][i], action);
    assert Calls(log[i], action);
  }

  // A phase is stored only after the call it is named after.
  lemma {:induction false} PhaseWasCalled(db0: Db, log: seq<Event>, action: Action)
    requires Clean(db0, log) && Fresh(db0)
    requires Some(Stored(db0, log).row.phase) == Named(db0.row.job.op, action)
    ensures HasCall(log, action)
    decreases |log|
  {
    if log != [] {
      var n := |log| - 1;
      CleanStep(db0, log, n);
      StoredAt(db0, log);
      StoredAt(db0, log[..n]);
      JudgeStored(db0, log[..n]);
      if Stored(db0, log[..n]).row.phase == Stored(db0, log).row.phase {
        PhaseWasCalled(db0, log[..n], action);
        HasCallMore(log, n, action);
      } else if n > 0 {
        JudgeLast(db0, log[..n]);
        assert Calls(log[n - 1], action);
      }
    }
  }

  // In a log of one attempt, which called something, the last call has an answer.
  lemma {:induction false} CallHasAnswer(log: seq<Event>, i: nat)
    requires i < |log| && log[i].Submitted? && forall j | i < j < |log| :: !log[j].Began?
    ensures LastAnswer(log).Some?
    decreases |log|
  {
    if i < |log| - 1 { CallHasAnswer(log[..|log| - 1], i); }
  }

  lemma {:induction false} AnswerWasCalled(log: seq<Event>) returns (i: nat)
    requires LastAnswer(log).Some?
    ensures i < |log| && log[i].Submitted? && LastAnswer(log) == Some(log[i].taskId)
    decreases |log|
  {
    var n := |log| - 1;
    if log[n].Submitted? {
      i := n;
    } else {
      i := AnswerWasCalled(log[..n]);
    }
  }

  predicate Raises(e: Event, error: RemoteError) {
    || e == Observed(Raised(error))
    || e == Inventory(Raised(error))
    || (e.Submitted? && e.taskId == Raised(error))
  }

  lemma {:induction false} ErrorWasRaised(log: seq<Event>) returns (i: nat)
    requires LastRaised(log).Some?
    ensures i < |log| && Raises(log[i], LastRaised(log).value)
    decreases |log|
  {
    var n := |log| - 1;
    if LastRaised(log) == LastRaised(log[..n]) && !Raises(log[n], LastRaised(log).value) {
      i := ErrorWasRaised(log[..n]);
    } else {
      i := n;
    }
  }

  lemma {:induction false} SeenWasAsked(log: seq<Event>) returns (i: nat)
    requires StatusSeen(log).Some?
    ensures i < |log| && log[i] == Observed(Said(StatusSeen(log).value))
    decreases |log|
  {
    var n := |log| - 1;
    if log[n].Observed? {
      i := n;
    } else {
      i := SeenWasAsked(log[..n]);
    }
  }

  // ---- the first run of a fresh operation in a fair world

  // The run is over, and with what: success, or a cause that is none of the world's unkindness.
  ghost predicate RunIsOver(db0: Db, env: Env, s: Session, out: Outcome) {
    && |s.log| > 1 && s.log[0].Began? && s.log[|s.log| - 1] == Saved(s.stored)
    && (forall i | 0 < i < |s.log| :: ToldFairly(env, i, s.log[i]))
    && (out == Done || out == FailedRun)
    && (out == Done ==> s.stored.row.life.state == Succeeded)
    && (out == FailedRun ==> Hindered(db0, s.log[..|s.log| - 1]))
  }

  // What an event of a fair world can be.
  ghost predicate ToldFairly(env: Env, i: nat, e: Event) {
    match e
    case Began(_) => false
    case Authorized(granted) => granted == Said(true)
    case Inventory(present) => present == env.inventory(i)
    case Observed(status) => status == env.status(i)
    case Submitted(_, _, taskId) => taskId.Said? && taskId.value.Some?
    case Polled(_, poll) => poll == Ended(ExitOk)
    case Overdue => false
    case Reloaded(written) => written == env.touch(i)
    case Saved(_) => true
    case SaveFailed => false
  }

  lemma FairLog(cfg: Config, env: Env, log: seq<Event>)
    requires Fair(env) && Runs(cfg, env, [], log)
    ensures forall i | 0 < i < |log| :: ToldFairly(env, i, log[i])
  {
    forall i | 0 < i < |log|
      ensures ToldFairly(env, i, log[i])
    {
      assert Told(cfg, env, i, log[i]);
    }
  }

  method RunFairly(cfg: Config, env: Env, worker: WorkerId, db0: Db) returns (out: Outcome, s: Session)
    requires Fair(env) && env.crashAt > 26 && cfg.Valid() && Fresh(db0) && WellFormed(db0.row.life, cfg)
    requires (db0.guest.vm.Some? ==> db0.row.job.hasTarget) && Claimable(db0.row.life, env.clock(1))
    ensures Sound(db0, s, cfg) && RunIsOver(db0, env, s, out)
  {
    s := Session(db0, db0, [], Start0(db0));
    assert Trail(db0, [], [Start0(db0)]);
    out, s := RunOnce(db0, cfg, env, worker, s);
    FairLog(cfg, env, s.log);
    AuditedIsJudge(db0, s.log, s.seen);
    if s.log != [] { JudgeLast(db0, s.log); }
  }

  // What hinders an operation in a fair world is an inventory or a status, or its records.
  lemma FairCause(db0: Db, env: Env, log: seq<Event>)
    requires Clean(db0, log) && Fresh(db0) && |log| > 0 && log[0].Began? && Hindered(db0, log)
    requires forall i | 0 < i < |log| :: ToldFairly(env, i, log[i])
    ensures Hopeless(Stored(db0, log)) || log[|log| - 1].Inventory? || log[|log| - 1].Observed?
  {
    if LastAnswer(log).Some? {
      var i := AnswerWasCalled(log);
      assert ToldFairly(env, i, log[i]);
    }
  }

  // The records of a finished run: its success was observed, and its assignment follows the guest.
  lemma DoneIsSeen(db0: Db, env: Env, s: Session)
    requires Clean(db0, s.log) && Fresh(db0) && RunIsOver(db0, env, s, Done)
    ensures SuccessSeen(db0, s.log[..|s.log| - 1], s.stored)
    ensures s.stored.guest.assignment == Reassigned(db0.guest.assignment, s.stored)
    ensures s.stored.row.job == db0.row.job
  {
    var n := |s.log| - 1;
    SuccessIsAlwaysObserved(db0, s.log);
    SaveIsAllowed(db0, s.log, n);
    JudgeStored(db0, s.log[..n]);
    StoredAt(db0, s.log);
    AssignmentWaits(db0, s.log[..n]);
  }

  // Until the operation has succeeded, its assignment is what it was.
  lemma {:induction false} AssignmentWaits(db0: Db, log: seq<Event>)
    requires Clean(db0, log) && Fresh(db0) && Stored(db0, log).row.life.state != Succeeded
    ensures Stored(db0, log).guest.assignment == db0.guest.assignment
    decreases |log|
  {
    if log != [] {
      var n := |log| - 1;
      CleanStep(db0, log, n);
      JudgeStored(db0, log[..n]);
      AssignmentWaits(db0, log[..n]);
    }
  }

  // ---- creation

  // No status answered after the call is other than `status`.
  ghost predicate AnswersAfter(log: seq<Event>, action: Action, status: VmStatus) {
    forall i, j | 0 <= i < j < |log| && Calls(log[i], action) && log[j].Observed? :: log[j].status == Said(Some(status))
  }

  function StatusOr(status: Option<VmStatus>, default: VmStatus): VmStatus {
    if status.Some? then status.value else default
  }

  predicate StoredAsSeen(db: Db, status: Option<VmStatus>) {
    Shows(db, StatusOr(status, VmStopped))
  }

  // A guest is created whatever status it is seen in, and is stored as seen; one that is to run is created as soon as
  // it is seen running after its start. Its assignment is ready then, and only the start's answer can stop it.
  method CreateGuest(cfg: Config, env: Env, worker: WorkerId, db0: Db) returns (out: Outcome, s: Session)
    requires Fair(env) && env.crashAt > 26 && cfg.Valid() && Fresh(db0) && WellFormed(db0.row.life, cfg)
    requires db0.row.job.hasTarget && Claimable(db0.row.life, env.clock(1))
    requires db0.row.job.op == VmCreate && db0.guest.vm.Some? && db0.guest.templateExists
    requires forall i :: env.inventory(i) == Said(false) && env.status(i).Said?
    ensures Clean(db0, s.log) && s.stored == Stored(db0, s.log)
    ensures !db0.row.job.autoStart || AnswersAfter(s.log, Start, VmRunning) ==> out == Done
    ensures out == Done ==>
              && s.stored.row.life.state == Succeeded
              && s.stored.guest.assignment == (match db0.guest.assignment
                                               case Some(a) => Some(a.(status := Ready))
                                               case None => None)
              && if db0.row.job.autoStart then Shows(s.stored, VmRunning)
                 else exists e | e in s.log && e.Observed? && e.status.Said? :: StoredAsSeen(s.stored, e.status.value)
  {
    out, s := RunFairly(cfg, env, worker, db0);
    AuditedIsJudge(db0, s.log, s.seen);
    JudgeStored(db0, s.log);
    var before := s.log[..|s.log| - 1];
    CleanStep(db0, s.log, |before|);
    if out == Done {
      DoneIsSeen(db0, env, s);
      if !db0.row.job.autoStart {
        var i := SeenWasAsked(before);
        assert s.log[i] in s.log && StoredAsSeen(s.stored, s.log[i].status.value);
      }
    } else {
      CreationIsMissed(db0, env, before);
    }
  }

  lemma CreationIsMissed(db0: Db, env: Env, log: seq<Event>)
    requires Clean(db0, log) && Fresh(db0) && |log| > 0 && log[0].Began? && Hindered(db0, log)
    requires forall i | 0 < i < |log| :: ToldFairly(env, i, log[i])
    requires db0.row.job.op == VmCreate && db0.guest.vm.Some? && db0.guest.templateExists
    requires forall i :: env.inventory(i) == Said(false) && env.status(i).Said?
    ensures db0.row.job.autoStart && !AnswersAfter(log, Start, VmRunning)
  {
    var n := |log| - 1;
    FairCause(db0, env, log);
    GuestIsThere(db0, log);
    StoredAt(db0, log);
    JudgeStored(db0, log);
    PhaseWasCalled(db0, log, Start);
    var i :| 0 <= i < |log| && Calls(log[i], Start);
    CallIsAllowed(db0, log, i);
    StoredAt(db0, log[..i]);
    JudgeStored(db0, log[..i]);
    assert Calls(log[i], Start) && log[n].Observed?;
  }

  // ---- power

  // A start, stop or reboot succeeds once the guest is seen in its state, and stores that state.
  method PowerGuest(cfg: Config, env: Env, worker: WorkerId, db0: Db) returns (out: Outcome, s: Session)
    requires Fair(env) && env.crashAt > 26 && cfg.Valid() && Fresh(db0) && WellFormed(db0.row.life, cfg)
    requires db0.row.job.hasTarget && Claimable(db0.row.life, env.clock(1))
    requires IsPower(db0.row.job.op) && db0.guest.vm.Some?
    requires forall i :: env.inventory(i).Said? && env.status(i).Said?
    ensures Clean(db0, s.log) && s.stored == Stored(db0, s.log)
    ensures (forall e | e in s.log && e.Observed? :: e.status == Said(Some(PowerGoal(db0.row.job.op)))) ==> out == Done
    ensures out == Done ==>
              && s.stored.row.life.state == Succeeded && Shows(s.stored, PowerGoal(db0.row.job.op))
              && s.stored.guest.assignment == db0.guest.assignment
  {
    out, s := RunFairly(cfg, env, worker, db0);
    AuditedIsJudge(db0, s.log, s.seen);
    JudgeStored(db0, s.log);
    var before := s.log[..|s.log| - 1];
    CleanStep(db0, s.log, |before|);
    if out == Done {
      DoneIsSeen(db0, env, s);
    } else {
      FairCause(db0, env, before);
      GuestIsThere(db0, before);
      StoredAt(db0, before);
      assert before[|before| - 1] == s.log[|before| - 1];
    }
  }

  // ---- deletion

  // The guest does what it is told: seen after its stop it is stopped, seen after its deletion it is gone, and where
  // the hypervisor has lost it, the inventory has too.
  ghost predicate Obeys(log: seq<Event>) {
    && (forall i, j | 0 <= i < j < |log| && Calls(log[i], Stop) && log[j].Observed? && log[j].status.Said? ::
          log[j].status == Said(Some(VmStopped)))
    && (forall i, j | 0 <= i < j < |log| && Calls(log[i], Delete) && log[j].Observed? :: log[j].status.Raised?)
    && (forall i, j | 0 <= i < j < |log| && Lost(log[i]) && log[j].Inventory? :: log[j] == Inventory(Said(false)))
  }

  predicate Lost(e: Event) {
    e == Observed(Raised(Http(404))) || e == Observed(Raised(Http(500)))
  }

  // A deletion succeeds whatever state its guest is found in: running, in which case it is stopped first, not running,
  // lost, or not in the inventory; its status question may end in a 404 or a 500 at any time. The guest is tombstoned
  // then, and its assignment is free of it.
  method DeleteGuest(cfg: Config, env: Env, worker: WorkerId, db0: Db) returns (out: Outcome, s: Session)
    requires Fair(env) && env.crashAt > 26 && cfg.Valid() && Fresh(db0) && WellFormed(db0.row.life, cfg)
    requires db0.row.job.hasTarget && Claimable(db0.row.life, env.clock(1))
    requires db0.row.job.op == VmDelete && db0.guest.vm.Some?
    requires forall i :: env.inventory(i).Said?
    requires forall i :: env.status(i).Said? || Lost(Observed(env.status(i)))
    ensures Clean(db0, s.log) && s.stored == Stored(db0, s.log)
    ensures Obeys(s.log) ==> out == Done
    ensures out == Done ==>
              && s.stored.row.life.state == Succeeded && Tombstoned(s.stored) && Shows(s.stored, VmDeleted)
              && s.stored.guest.assignment == (match db0.guest.assignment
                                               case Some(_) =>
                                                 Some(Assignment(if db0.row.job.cleanup then Expired
                                                     else Assigned, false))
                                               case None => None)
  {
    out, s := RunFairly(cfg, env, worker, db0);
    AuditedIsJudge(db0, s.log, s.seen);
    JudgeStored(db0, s.log);
    var before := s.log[..|s.log| - 1];
    CleanStep(db0, s.log, |before|);
    if out == Done {
      GuestIsThere(db0, s.log);
      DoneIsSeen(db0, env, s);
    } else {
      DeletionIsDefied(db0, env, before);
      ObeysBefore(s.log, |before|);
    }
  }

  lemma ObeysBefore(log: seq<Event>, n: nat)
    requires n <= |log|
    ensures Obeys(log) ==> Obeys(log[..n])
  {
  }

  lemma DeletionIsDefied(db0: Db, env: Env, log: seq<Event>)
    requires Clean(db0, log) && Fresh(db0) && |log| > 0 && log[0].Began? && Hindered(db0, log)
    requires forall i | 0 < i < |log| :: ToldFairly(env, i, log[i])
    requires db0.row.job.op == VmDelete
    requires forall i :: env.inventory(i).Said?
    requires forall i :: env.status(i).Said? || Lost(Observed(env.status(i)))
    ensures !Obeys(log)
  {
    var n := |log| - 1;
    FairCause(db0, env, log);
    StoredAt(db0, log);
    JudgeStored(db0, log);
    if log[n].Inventory? {
      var i := ErrorWasRaised(log);
      assert Lost(log[i]);
    } else if Missed(db0, log, log[n].status.value) {
      PhaseWasCalled(db0, log, Stop);
      var i :| 0 <= i < |log| && Calls(log[i], Stop);
    } else {
      PhaseWasCalled(db0, log, Delete);
      var i :| 0 <= i < |log| && Calls(log[i], Delete);
    }
  }

  // ---- successes that nobody saw

  // An operation whose guest is stored in the state it is for: a power operation over a guest that was there when it
  // was enqueued, or is put there by somebody else meanwhile, or the creation of a guest that somebody else stores as
  // running.
  predicate StoredByOthers(db0: Db, touch: Option<VmStatus>)
    requires Aims(db0)
  {
    if IsPower(db0.row.job.op) then Shows(Written(db0, touch), Goal(db0))
    else db0.guest.vm.Some? && db0.guest.templateExists && touch == Some(VmRunning)
  }

  // Others write nothing but `touch`, at every look.
  ghost predicate WritesJust(log: seq<Event>, touch: Option<VmStatus>) {
    forall i | 0 <= i < |log| :: log[i].Reloaded? ==> log[i].written == touch
  }

  lemma {:induction false} RereadShows(db0: Db, log: seq<Event>, status: VmStatus)
    requires Clean(db0, log) && WritesJust(log, Some(status)) && Reread(log) && db0.guest.vm.Some?
    ensures Shows(Stored(db0, log), status)
    decreases |log|
  {
    var n := |log| - 1;
    CleanStep(db0, log, n);
    GuestIsThere(db0, log[..n]);
    if !log[n].Reloaded? { RereadShows(db0, log[..n], status); }
  }

  lemma {:induction false} PowerStaysShown(db0: Db, log: seq<Event>, status: VmStatus)
    requires Clean(db0, log) && Fresh(db0) && IsPower(db0.row.job.op) && WritesJust(log, None) && Shows(db0, status)
    requires Stored(db0, log).row.life.state != Succeeded
    ensures Shows(Stored(db0, log), status)
    decreases |log|
  {
    if log != [] {
      var n := |log| - 1;
      CleanStep(db0, log, n);
      StoredAt(db0, log);
      JudgeStored(db0, log[..n]);
      PowerStaysShown(db0, log[..n], status);
    }
  }

  // For every such operation: a run that succeeds on a status answer without a status.
  method SucceedUnobserved(cfg: Config, db0: Db, worker: WorkerId, now: Time, touch: Option<VmStatus>)
    returns (final: Db, log: seq<Event>)
    requires cfg.Valid() && Fresh(db0) && WellFormed(db0.row.life, cfg) && db0.row.job.hasTarget
    requires Aims(db0) && StoredByOthers(db0, touch) && Claimable(db0.row.life, now)
    ensures Clean(db0, log) && final == Stored(db0, log) && final.row.life.state == Succeeded
    ensures exists j: nat :: j < |log| && Unobserved(db0, log, j)
    ensures WritesOnly(log, if touch.Some? then {touch.value} else {})
  {
    var env := Env(_ => Said(true), _ => Said(false), _ => Said(None), _ => Submission(true, Said(Some(0))),
                   _ => Ended(ExitOk), _ => false, _ => touch, _ => true, _ => now, 27);
    var out, s := RunFairly(cfg, env, worker, db0);
    final, log := s.stored, s.log;
    AuditedIsJudge(db0, log, s.seen);
    JudgeStored(db0, log);
    var before := log[..|log| - 1];
    CleanStep(db0, log, |before|);
    SaveIsAllowed(db0, log, |before|);
    JudgeStored(db0, before);
    if out != Done { NothingHinders(db0, env, before, touch); }
    SilentWorld(env, log, touch);
    SilentSuccess(db0, log);
  }

  lemma SilentWorld(env: Env, log: seq<Event>, touch: Option<VmStatus>)
    requires |log| > 0 && log[0].Began? && forall i | 0 < i < |log| :: ToldFairly(env, i, log[i])
    requires forall i :: env.status(i) == Said(None) && env.touch(i) == touch
    ensures forall e | e in log :: e.Observed? ==> e.status == Said(None)
    ensures WritesOnly(log, if touch.Some? then {touch.value} else {})
  {
    forall e | e in log
      ensures e.Observed? ==> e.status == Said(None)
    {
      var i :| 0 <= i < |log| && log[i] == e;
    }
  }

  lemma NothingHinders(db0: Db, env: Env, log: seq<Event>, touch: Option<VmStatus>)
    requires Clean(db0, log) && Fresh(db0) && |log| > 0 && log[0].Began? && Aims(db0) && StoredByOthers(db0, touch)
    requires forall i | 0 < i < |log| :: ToldFairly(env, i, log[i])
    requires forall i :: env.inventory(i) == Said(false) && env.status(i) == Said(None) && env.touch(i) == touch
    requires Stored(db0, log).row.life.state != Succeeded
    ensures !Hindered(db0, log)
  {
    if Hindered(db0, log) {
      FairCause(db0, env, log);
      GuestIsThere(db0, log);
      StoredAt(db0, log);
      JudgeStored(db0, log);
      if touch.Some? && Reread(log) { RereadShows(db0, log, touch.value); }
      if IsPower(db0.row.job.op) {
        if touch.None? { PowerStaysShown(db0, log, Goal(db0)); }
      } else {
        PhaseWasCalled(db0, log, Start);
        var i :| 0 <= i < |log| && Calls(log[i], Start);
        CallHasAnswer(log, i);
      }
    }
  }
}
