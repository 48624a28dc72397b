/**
 `run_once` of the operation worker: claim, execute, and on an exception roll back and
 retry, fail or cancel. `Serve` is any number of such runs over one operation.
 */
module OperationWorker {
  import opened Common
  import opened OperationRecord
  import opened OperationHistory
  import opened OperationEngine
  import opened OperationGuarantees
  import opened OperationObserved
  import opened OperationCauses

  datatype Outcome = Idle | Done | CancelledRun | FailedRun | Died

  // The run got no further: the process died, or a commit failed.
  predicate Stopped(env: Env, s: Session) {
    env.crashAt <= |s.log| || s.seen.last == SaveFailed
  }

  // The row is claimed by a commit, the second event of the attempt, under the clock that it then shows.
  function ClaimTime(env: Env, s: Session): Time {
    env.clock(|s.log| + 1)
  }

  // The attempt that follows `before` in `log` has claimed its row.
  predicate Claims(before: seq<Event>, log: seq<Event>) {
    |before| + 1 < |log| && log[|before|].Began? && log[|before| + 1].Saved?
  }

  // The session starts from the committed records; `Began` marks the attempt in the log.
  method Claim(ghost db0: Db, cfg: Config, env: Env, worker: WorkerId, s0: Session)
    returns (r: Result<bool, Fault>, s: Session)
    requires Sound(db0, s0, cfg)
    ensures Sound(db0, s, cfg) && (r == Ok(false) || Runs(cfg, env, s0.log, s.log))
    ensures r == Ok(true) ==>
              && AtWork(db0, s, cfg) && s.stored == s.cur && Begins(s.seen) && Claims(s0.log, s.log)
              && s.stored == Db(s0.stored.row.(life := Claimed(s0.stored.row.life, worker, ClaimTime(env, s0), cfg)),
                                s0.stored.guest)
              && Claimable(s0.stored.row.life, ClaimTime(env, s0))
    ensures !Claimable(s0.stored.row.life, ClaimTime(env, s0)) ==> r == Ok(false)
    ensures r == Ok(false) ==> s == s0 && !Claimable(s0.stored.row.life, ClaimTime(env, s0))
    ensures r.Err? ==> s.stored == s0.stored && Stopped(env, s)
    ensures |s.log| <= |s0.log| + 2
  {
    var now := ClaimTime(env, s0);
    if !Claimable(s0.stored.row.life, now) { return Ok(false), s0; }
    AuditedNext(db0, s0.log, s0.seen, Began(s0.stored));
    var cur := s0.stored.(row := s0.stored.row.(life := Claimed(s0.stored.row.life, worker, now, cfg)));
    s := Session(cur, s0.stored, s0.log + [Began(s0.stored)], AfterBegan(s0.seen, s0.stored));
    var saved;
    ghost var begun := s.log;
    saved, s := Save(db0, cfg, env, s);
    assert s.log[..|begun|] == begun;
    r := if saved.Ok? then Ok(true) else Err(saved.error);
  }

  // `db.rollback()` and the handler's own commit. A fault in that commit leaves the row leased.
  method Settle(ghost db0: Db, cfg: Config, env: Env, s0: Session, fault: Fault) returns (out: Outcome, s: Session)
    requires Sound(db0, s0, cfg) && s0.stored.row.life.state == Running && fault != Crash
    ensures Sound(db0, s, cfg) && Grows(cfg, env, s0.log, s.log)
    ensures out == CancelledRun ==>
              && fault == Refused
              && s.stored.row.life == Cancellation(s0.stored.row.life, env.clock(|s0.log|))
              && s.stored.row == s0.stored.row.(life := s.stored.row.life)
    ensures out == FailedRun ==>
              && fault != Refused
              && s.stored.row.life == RetriedOrFailed(s0.stored.row.life, env.clock(|s0.log|), cfg)
              && s.stored.row == s0.stored.row.(life := s.stored.row.life)
    ensures out == FailedRun ==> s.stored.guest == GuestAfterFailure(s.stored.row, s0.stored)
    ensures out == CancelledRun ==> s.stored.guest == s0.stored.guest
    ensures out == Died ==> s.stored == s0.stored && Stopped(env, s)
    ensures out == CancelledRun || out == FailedRun || out == Died
    ensures out != Died ==> s.log == s0.log + [Saved(s.stored)]
    ensures |s.log| <= |s0.log| + 1
  {
    var now, life, guest, done := env.clock(|s0.log|), s0.stored.row.life, s0.stored.guest, ();
    if fault == Refused {
      life := Cancellation(life, now);
    } else {
      life := RetriedOrFailed(life, now, cfg);
      if life.state == Failed && s0.stored.row.job.op == VmCreate && guest.vm.Some? {
        guest := guest.(vm := Some(guest.vm.value.(status := VmError)));
      }
    }
    var saved;
    saved, s := Save(db0, cfg, env, s0.(cur := Db(s0.stored.row.(life := life), guest)));
    out := if saved.Err? then Died else if fault == Refused then CancelledRun else FailedRun;
  }

  // A guest whose creation has failed for good shows an error; any other guest is left as it was.
  function GuestAfterFailure(row: Row, before: Db): Guest {
    if row.life.state == Failed && row.job.op == VmCreate && before.guest.vm.Some? then
      WithStatus(before, VmError).guest
    else
      before.guest
  }

  lemma RunsOn(cfg: Config, env: Env, a: seq<Event>, b: seq<Event>, c: seq<Event>)
    requires Runs(cfg, env, a, b) && Grows(cfg, env, b, c)
    ensures Runs(cfg, env, a, c)
    ensures Claims(a, b) ==> Claims(a, c)
  {
    assert c[..|b|] == b;
    assert c[..|a| + 1] == b[..|a| + 1];
    assert c[..|a|] == b[..|a|];
  }

  // A run that failed or was cancelled has done so after a cause in its log; it is cancelled exactly for a refusal.
  predicate HasCause(db0: Db, s: Session, out: Outcome) {
    s.log != [] && s.log[|s.log| - 1] == Saved(s.stored)
    && var before := s.log[..|s.log| - 1];
       && before != [] && Hindered(db0, before)
       && (out == CancelledRun <==> before[|before| - 1] == Authorized(Said(false)))
  }

  // A fault that reached the driver is the cause, and the row is given back.
  method EndRun(ghost db0: Db, cfg: Config, env: Env, s0: Session, fault: Fault) returns (out: Outcome, s: Session)
    requires Sound(db0, s0, cfg) && Fresh(db0) && s0.log != []
    requires s0.stored.row.life.state == Running && fault != Crash && Ends(s0.seen, fault)
    ensures Sound(db0, s, cfg) && Grows(cfg, env, s0.log, s.log)
    ensures out == CancelledRun ==> s.stored.row.life.state == Cancelled
    ensures out == FailedRun ==>
              s.stored.row.life.state == (if s.stored.row.life.attempts < cfg.maxAttempts then Queued else Failed)
    ensures out == FailedRun || out == CancelledRun ==> HasCause(db0, s, out)
    ensures out == CancelledRun || out == FailedRun || (out == Died && Stopped(env, s))
    ensures |s.log| <= |s0.log| + 1
  {
    AuditedIsJudge(db0, s0.log, s0.seen);
    EndIsHindered(db0, s0.log, fault);
    out, s := Settle(db0, cfg, env, s0, fault);
  }

  predicate EndsWithSuccess(s: Session) {
    s.stored.row.life.state == Succeeded && s.log != [] && s.log[|s.log| - 1] == Saved(s.stored)
  }

  // The claimed operation is executed, to its success or to the handler of its fault.
  method Attempt(ghost db0: Db, cfg: Config, env: Env, s0: Session) returns (out: Outcome, s: Session)
    requires AtWork(db0, s0, cfg) && s0.stored == s0.cur && Begins(s0.seen) && Fresh(db0) && s0.log != []
    ensures Sound(db0, s, cfg) && Grows(cfg, env, s0.log, s.log) && out != Idle
    ensures out == Done ==> EndsWithSuccess(s)
    ensures out == CancelledRun ==> s.stored.row.life.state == Cancelled
    ensures out == FailedRun ==>
              s.stored.row.life.state == (if s.stored.row.life.attempts < cfg.maxAttempts then Queued else Failed)
    ensures out == FailedRun || out == CancelledRun ==> HasCause(db0, s, out)
    ensures out == Died ==> Stopped(env, s)
    ensures Brisk(env) ==> |s.log| <= |s0.log| + 24
  {
    var r;
    r, s := ExecuteOperation(db0, cfg, env, s0);
    if r.Ok? { return Done, s; }
    if r.error == Crash { return Died, s; }
    out, s := EndRun(db0, cfg, env, s, r.error);
  }

  method RunOnce(ghost db0: Db, cfg: Config, env: Env, worker: WorkerId, s0: Session) returns (out: Outcome, s: Session)
    requires Sound(db0, s0, cfg) && Fresh(db0)
    ensures Sound(db0, s, cfg) && (out == Idle || Runs(cfg, env, s0.log, s.log))
    ensures out == Idle <==> !Claimable(s0.stored.row.life, ClaimTime(env, s0))
    ensures out == Idle ==> s == s0
    ensures out != Idle ==> Claims(s0.log, s.log) || (out == Died && |s.log| <= |s0.log| + 2)
    ensures out == Done ==> EndsWithSuccess(s)
    ensures out == CancelledRun ==> s.stored.row.life.state == Cancelled
    ensures out == FailedRun ==>
              s.stored.row.life.state == (if s.stored.row.life.attempts < cfg.maxAttempts then Queued else Failed)
    ensures out == FailedRun || out == CancelledRun ==> HasCause(db0, s, out)
    ensures out == Died ==> Stopped(env, s)
    ensures Brisk(env) ==> |s.log| <= |s0.log| + 26
  {
    var claim;
    claim, s := Claim(db0, cfg, env, worker, s0);
    if claim.Err? { return Died, s; }
    if !claim.value { return Idle, s; }
    ghost var claimed := s.log;
    out, s := Attempt(db0, cfg, env, s);
    RunsOn(cfg, env, s0.log, claimed, s.log);
  }

  // Any number of runs, each with its own worker, hypervisor answers and crash point.
  method Serve(cfg: Config, db0: Db, runs: seq<(WorkerId, Env)>) returns (final: Db, log: seq<Event>)
    requires cfg.Valid() && Fresh(db0) && WellFormed(db0.row.life, cfg)
    requires db0.guest.vm.Some? ==> db0.row.job.hasTarget
    ensures Clean(db0, log) && final == Stored(db0, log) && WellFormed(final.row.life, cfg)
    ensures NoRepeatedPower(db0, log)
    ensures ClonesStayVisible(log) ==> AcceptedClones(log) <= 1
    ensures DeletionIsLast(db0, log) && TombstonesAreObserved(db0, log)
    ensures CallsAreGuarded(db0, log) && PolledTasksAreOurs(db0, log)
    ensures SuccessIsObserved(db0, log) && LostTasksEndAttempts(db0, log) && AttemptsAreAuthorized(db0, log)
  {
    var s := Session(db0, db0, [], Start0(db0));
    assert Trail(db0, [], [Start0(db0)]);
    for n := 0 to |runs|
      invariant Sound(db0, s, cfg)
    {
      var out;
      out, s := RunOnce(db0, cfg, runs[n].1, runs[n].0, s);
    }
    final, log := s.stored, s.log;
    AuditedIsJudge(db0, log, s.seen);
    JudgeStored(db0, log);
    CleanIsSafe(db0, log);
  }

  lemma CleanIsSafe(db0: Db, log: seq<Event>)
    requires Clean(db0, log) && Fresh(db0)
    ensures NoRepeatedPower(db0, log)
    ensures ClonesStayVisible(log) ==> AcceptedClones(log) <= 1
    ensures DeletionIsLast(db0, log) && TombstonesAreObserved(db0, log)
    ensures CallsAreGuarded(db0, log) && PolledTasksAreOurs(db0, log)
    ensures SuccessIsObserved(db0, log) && LostTasksEndAttempts(db0, log) && AttemptsAreAuthorized(db0, log)
  {
    PowerIsNotRepeated(db0, log);
    if ClonesStayVisible(log) { AtMostOneClone(db0, log); }
    DeletionIsNotFollowed(db0, log);
    TombstonesAreAllObserved(db0, log);
    CallsAreAllGuarded(db0, log);
    PolledTasksAreAllOurs(db0, log);
    SuccessIsAlwaysObserved(db0, log);
    LostTasksAlwaysEndAttempts(db0, log);
    AttemptsAreAllAuthorized(db0, log);
  }
}
