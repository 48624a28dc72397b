/**
 What a log with a clean judgement means, stated on the log itself, for every operation type,
 every number of attempts and every crash point.
 */
module OperationGuarantees {
  import opened Common
  import opened OperationRecord
  import opened OperationHistory

  predicate Clean(db0: Db, log: seq<Event>) {
    !Judge(db0, log).bad
  }

  // The records as of the last commit in the log, and what others have written of the guest since.
  function Stored(db0: Db, log: seq<Event>): Db {
    if log == [] then db0
    else
      var e := log[|log| - 1];
      if e.Saved? then e.saved
      else if e.Reloaded? then Written(Stored(db0, log[..|log| - 1]), e.written)
      else Stored(db0, log[..|log| - 1])
  }

  // The latest status answer since the last call, task poll or start of an attempt.
  function StatusSeen(log: seq<Event>): Option<Option<VmStatus>> {
    if log == [] then None
    else
      match log[|log| - 1]
      case Observed(status) => if status.Said? then Some(status.value) else None
      case Submitted(_, _, _) => None
      case Polled(_, _) => None
      case Began(_) => None
      case _ => StatusSeen(log[..|log| - 1])
  }

  // Status questions since the last call, task poll or start of an attempt.
  function Looks(log: seq<Event>): nat {
    if log == [] then 0
    else
      match log[|log| - 1]
      case Observed(_) => Looks(log[..|log| - 1]) + 1
      case Submitted(_, _, _) => 0
      case Polled(_, _) => 0
      case Began(_) => 0
      case _ => Looks(log[..|log| - 1])
  }

  // What the latest call of this attempt answered.
  function LastAnswer(log: seq<Event>): Option<Answer<Option<nat>>> {
    if log == [] then None
    else
      match log[|log| - 1]
      case Submitted(_, _, taskId) => Some(taskId)
      case Began(_) => None
      case _ => LastAnswer(log[..|log| - 1])
  }

  // The latest status question is the one that confirms a submitted deletion: the first after it was awaited, or the
  // second where an earlier attempt submitted it.
  predicate Confirming(db0: Db, log: seq<Event>) {
    && db0.row.job.op == VmDelete && Stored(db0, log).row.phase == DeleteSubmitted
    && Looks(log) == if LastAnswer(log).None? then 2 else 1
  }

  // The VMID is missing from the latest inventory, or the deletion was confirmed by a 404, and nothing has been asked
  // since.
  predicate AbsenceSeen(db0: Db, log: seq<Event>) {
    if log == [] then false
    else
      match log[|log| - 1]
      case Inventory(present) => present == Said(false)
      case Observed(status) => status == Raised(Http(404)) && Confirming(db0, log)
      case Began(_) => false
      case _ => AbsenceSeen(db0, log[..|log| - 1])
  }

  // This attempt found the VMID free and has called nothing since.
  predicate FoundFree(log: seq<Event>) {
    if log == [] then false
    else
      match log[|log| - 1]
      case Inventory(present) => present == Said(false)
      case Submitted(_, _, _) => false
      case Began(_) => false
      case _ => FoundFree(log[..|log| - 1])
  }

  // The task whose acceptable end was the latest answer to a poll, since the last call.
  function TaskDone(op: OpType, log: seq<Event>): Option<Task> {
    if log == [] then None
    else
      match log[|log| - 1]
      case Polled(task, poll) => if poll.Ended? && Acceptable(op, task, poll.exit) then Some(task) else None
      case Submitted(_, _, _) => None
      case Began(_) => None
      case _ => TaskDone(op, log[..|log| - 1])
  }

  function AcceptedClones(log: seq<Event>): nat {
    if log == [] then 0
    else
      var e := log[|log| - 1];
      AcceptedClones(log[..|log| - 1]) + if e.Submitted? && e.action == Clone && e.accepted then 1 else 0
  }

  // An accepted clone keeps its VMID in every later inventory.
  ghost predicate ClonesStayVisible(log: seq<Event>) {
    forall i, j | 0 <= i < j < |log| ::
      log[i].Submitted? && log[i].action == Clone && log[i].accepted ==> log[j] != Inventory(Said(false))
  }

  // The watch's fields in terms of the log.

  lemma NextStored(w: Watch, e: Event)
    ensures Next(w, e).last == e
    ensures Next(w, e).db == match e
                             case Saved(db) => db
                             case Reloaded(written) => Written(w.db, written)
                             case _ => w.db
  {
    match e
    case Saved(_) =>
    case Reloaded(_) =>
    case _ =>
  }

  lemma NextCall(w: Watch, e: Event)
    ensures Next(w, e).clones == w.clones + if e.Submitted? && e.action == Clone && e.accepted then 1 else 0
    ensures Next(w, e).free == match e
                               case Inventory(present) => present == Said(false)
                               case Submitted(_, _, _) => false
                               case Began(_) => false
                               case _ => w.free
    ensures Next(w, e).answer == match e
                                 case Submitted(_, _, taskId) => Some(taskId)
                                 case Began(_) => None
                                 case _ => w.answer
  {
    match e
    case Submitted(_, _, _) =>
    case Saved(_) =>
    case _ =>
  }

  lemma NextLook(w: Watch, e: Event)
    ensures Next(w, e).lastStatus == match e
                                     case Observed(status) => if status.Said? then Some(status.value) else None
                                     case Submitted(_, _, _) => None
                                     case Polled(_, _) => None
                                     case Began(_) => None
                                     case _ => w.lastStatus
    ensures Next(w, e).looks == match e
                                case Observed(_) => w.looks + 1
                                case Submitted(_, _, _) => 0
                                case Polled(_, _) => 0
                                case Began(_) => 0
                                case _ => w.looks
  {
    match e
    case Observed(_) =>
    case Submitted(_, _, _) =>
    case Saved(_) =>
    case _ =>
  }

  lemma {:induction false} JudgeLast(db0: Db, log: seq<Event>)
    requires log != []
    ensures Judge(db0, log).last == log[|log| - 1]
  {
    NextStored(Judge(db0, log[..|log| - 1]), log[|log| - 1]);
  }

  lemma {:induction false} JudgeStored(db0: Db, log: seq<Event>)
    ensures Judge(db0, log).db == Stored(db0, log)
  {
    if log != [] {
      JudgeStored(db0, log[..|log| - 1]);
      NextStored(Judge(db0, log[..|log| - 1]), log[|log| - 1]);
    }
  }

  lemma {:induction false} JudgeStatus(db0: Db, log: seq<Event>)
    ensures Judge(db0, log).lastStatus == StatusSeen(log)
  {
    if log != [] {
      JudgeStatus(db0, log[..|log| - 1]);
      NextLook(Judge(db0, log[..|log| - 1]), log[|log| - 1]);
    }
  }

  lemma {:induction false} JudgeLooks(db0: Db, log: seq<Event>)
    ensures Judge(db0, log).looks == Looks(log) && Judge(db0, log).answer == LastAnswer(log)
  {
    if log != [] {
      JudgeLooks(db0, log[..|log| - 1]);
      NextLook(Judge(db0, log[..|log| - 1]), log[|log| - 1]);
      NextCall(Judge(db0, log[..|log| - 1]), log[|log| - 1]);
    }
  }

  lemma {:induction false} JudgeFree(db0: Db, log: seq<Event>)
    ensures Judge(db0, log).free == FoundFree(log)
  {
    if log != [] {
      JudgeFree(db0, log[..|log| - 1]);
      NextCall(Judge(db0, log[..|log| - 1]), log[|log| - 1]);
    }
  }

  lemma {:induction false} JudgeClones(db0: Db, log: seq<Event>)
    ensures Judge(db0, log).clones == AcceptedClones(log)
  {
    if log != [] {
      JudgeClones(db0, log[..|log| - 1]);
      NextCall(Judge(db0, log[..|log| - 1]), log[|log| - 1]);
    }
  }

  // Every event of a clean log was allowed by the watch before it.
  lemma {:induction false} CleanStep(db0: Db, log: seq<Event>, i: nat)
    requires Clean(db0, log) && i < |log|
    ensures Clean(db0, log[..i]) && !Next(Judge(db0, log[..i]), log[i]).bad
    decreases |log|
  {
    var n := |log| - 1;
    BadStays(Judge(db0, log[..n]), log[n]);
    if i < n {
      assert log[..n][..i] == log[..i];
      CleanStep(db0, log[..n], i);
    }
  }

  lemma BadStays(w: Watch, e: Event)
    ensures w.bad ==> Next(w, e).bad
  {
    match e
    case Submitted(_, _, _) =>
    case Saved(_) =>
    case _ =>
  }

  // The row as enqueued: nothing submitted yet.
  predicate Fresh(db0: Db) {
    db0.row.task.None? && db0.row.phase == NoPhase
  }

  lemma {:induction false} StoredAt(db0: Db, log: seq<Event>)
    requires Clean(db0, log) && Fresh(db0)
    ensures Stored(db0, log).row.job == db0.row.job
    ensures Stored(db0, log).row.task.Some? ==> Fits(db0.row.job.op, Stored(db0, log).row.task.value.origin)
    decreases |log|
  {
    if log != [] {
      var n := |log| - 1;
      CleanStep(db0, log, n);
      StoredAt(db0, log[..n]);
      JudgeStored(db0, log[..n]);
      if log[n].Saved? && log[n].saved.row.task.Some? && log[n].saved.row.task != Stored(db0, log[..n]).row.task {
        JudgeLast(db0, log[..n]);
        assert log[..n][n - 1].Submitted?;
        CallIsAllowed(db0, log[..n], n - 1);
        assert log[..n][..n - 1] == log[..n - 1];
        StoredAt(db0, log[..n - 1]);
        JudgeStored(db0, log[..n - 1]);
      }
    }
  }

  lemma JudgeConfirms(db0: Db, log: seq<Event>)
    requires Clean(db0, log) && Fresh(db0)
    ensures Confirms(Judge(db0, log)) <==> Confirming(db0, log)
  {
    JudgeLooks(db0, log);
    JudgeStored(db0, log);
    StoredAt(db0, log);
  }

  lemma {:induction false} JudgeAbsence(db0: Db, log: seq<Event>)
    requires Clean(db0, log) && Fresh(db0)
    ensures Judge(db0, log).absent == AbsenceSeen(db0, log)
    decreases |log|
  {
    if log != [] {
      var n := |log| - 1;
      CleanStep(db0, log, n);
      if log[n].Observed? {
        JudgeConfirms(db0, log);
        AbsentIfConfirmed(Judge(db0, log[..n]), log[n].status);
      } else {
        JudgeAbsence(db0, log[..n]);
        NextAbsence(Judge(db0, log[..n]), log[n]);
      }
    }
  }

  lemma AbsentIfConfirmed(w: Watch, status: Answer<Option<VmStatus>>)
    ensures AfterObserved(w, status).absent <==> status == Raised(Http(404)) && Confirms(AfterObserved(w, status))
  {
  }

  lemma NextAbsence(w: Watch, e: Event)
    requires !e.Observed?
    ensures Next(w, e).absent == match e
                                 case Inventory(present) => present == Said(false)
                                 case Began(_) => false
                                 case _ => w.absent
  {
    match e
    case Inventory(_) =>
    case Saved(_) =>
    case Submitted(_, _, _) =>
    case _ =>
  }

  lemma CallIsAllowed(db0: Db, log: seq<Event>, j: nat)
    requires Clean(db0, log) && j < |log| && log[j].Submitted?
    ensures Clean(db0, log[..j]) && AllowedCall(Judge(db0, log[..j]), log[j].action)
  {
    CleanStep(db0, log, j);
  }

  lemma SaveIsAllowed(db0: Db, log: seq<Event>, j: nat)
    requires Clean(db0, log) && j < |log| && log[j].Saved?
    ensures Clean(db0, log[..j]) && AllowedSave(Judge(db0, log[..j]), log[j].saved)
  {
    CleanStep(db0, log, j);
  }

  // A committed power task stays committed.
  lemma {:induction false} PowerTaskKept(db0: Db, log: seq<Event>, i: nat)
    requires Clean(db0, log) && Fresh(db0) && IsPower(db0.row.job.op)
    requires i < |log| && log[i].Saved? && log[i].saved.row.task.Some?
    ensures Stored(db0, log).row.task.Some?
    decreases |log|
  {
    var n := |log| - 1;
    if i < n {
      CleanStep(db0, log, n);
      PowerTaskKept(db0, log[..n], i);
      StoredAt(db0, log);
      StoredAt(db0, log[..n]);
      JudgeStored(db0, log[..n]);
    }
  }

  // Once a start, stop or reboot has its task committed, no later attempt calls the hypervisor's action again.
  ghost predicate NoRepeatedPower(db0: Db, log: seq<Event>) {
    IsPower(db0.row.job.op) ==>
      forall i, j | 0 <= i < j < |log| :: log[i].Saved? && log[i].saved.row.task.Some? ==> !log[j].Submitted?
  }

  lemma PowerIsNotRepeated(db0: Db, log: seq<Event>)
    requires Clean(db0, log) && Fresh(db0)
    ensures NoRepeatedPower(db0, log)
  {
    if IsPower(db0.row.job.op) {
      forall i, j | 0 <= i < j < |log| && log[i].Saved? && log[i].saved.row.task.Some?
        ensures !log[j].Submitted?
      {
        if log[j].Submitted? {
          CallIsAllowed(db0, log, j);
          PowerTaskKept(db0, log[..j], i);
          StoredAt(db0, log[..j]);
          JudgeStored(db0, log[..j]);
        }
      }
    }
  }

  // Once the deletion is committed, no attempt stops or deletes again.
  ghost predicate DeletionIsLast(db0: Db, log: seq<Event>) {
    db0.row.job.op == VmDelete ==>
      forall i, j | 0 <= i < j < |log| ::
        log[i].Saved? && log[i].saved.row.phase == DeleteSubmitted ==> !log[j].Submitted?
  }

  lemma {:induction false} DeletePhaseKept(db0: Db, log: seq<Event>, i: nat)
    requires Clean(db0, log) && Fresh(db0) && db0.row.job.op == VmDelete
    requires i < |log| && log[i].Saved? && log[i].saved.row.phase == DeleteSubmitted
    ensures Stored(db0, log).row.phase == DeleteSubmitted
    decreases |log|
  {
    var n := |log| - 1;
    if i < n {
      CleanStep(db0, log, n);
      DeletePhaseKept(db0, log[..n], i);
      StoredAt(db0, log[..n]);
      JudgeStored(db0, log[..n]);
    }
  }

  lemma DeletionIsNotFollowed(db0: Db, log: seq<Event>)
    requires Clean(db0, log) && Fresh(db0)
    ensures DeletionIsLast(db0, log)
  {
    if db0.row.job.op == VmDelete {
      forall i, j | 0 <= i < j < |log| && log[i].Saved? && log[i].saved.row.phase == DeleteSubmitted
        ensures !log[j].Submitted?
      {
        if log[j].Submitted? {
          CallIsAllowed(db0, log, j);
          DeletePhaseKept(db0, log[..j], i);
          StoredAt(db0, log[..j]);
          JudgeStored(db0, log[..j]);
        }
      }
    }
  }

  // The committed row holds a task that this call answered with.
  predicate Holds(db: Db, action: Action) {
    db.row.task.Some? && db.row.task.value.origin == action
  }

  // Every call is authorized by the question right before it, fits the operation, is not one whose
  // committed task is still to be awaited, and a guest is deleted only when last seen not running.
  ghost predicate CallsAreGuarded(db0: Db, log: seq<Event>) {
    forall j | 0 <= j < |log| && log[j].Submitted? ::
      && j > 0 && log[j - 1] == Authorized(Said(true))
      && Fits(db0.row.job.op, log[j].action)
      && !Holds(Stored(db0, log[..j]), log[j].action)
      && (log[j].action == Delete ==> StatusSeen(log[..j]).Some? && StatusSeen(log[..j]) != Some(Some(VmRunning)))
      && (log[j].action == Clone ==> FoundFree(log[..j]))
  }

  lemma CallsAreAllGuarded(db0: Db, log: seq<Event>)
    requires Clean(db0, log) && Fresh(db0)
    ensures CallsAreGuarded(db0, log)
  {
    forall j | 0 <= j < |log| && log[j].Submitted?
      ensures j > 0 && log[j - 1] == Authorized(Said(true))
      ensures Fits(db0.row.job.op, log[j].action)
      ensures !Holds(Stored(db0, log[..j]), log[j].action)
      ensures log[j].action == Delete ==> StatusSeen(log[..j]).Some? && StatusSeen(log[..j]) != Some(Some(VmRunning))
      ensures log[j].action == Clone ==> FoundFree(log[..j])
    {
      CallIsAllowed(db0, log, j);
      var p := log[..j];
      if p != [] {
        JudgeLast(db0, p);
      }
      StoredAt(db0, p);
      JudgeStored(db0, p);
      JudgeStatus(db0, p);
      JudgeFree(db0, p);
    }
  }

  lemma {:induction false} SomeCloneAccepted(log: seq<Event>) returns (i: nat)
    requires AcceptedClones(log) > 0
    ensures i < |log| && log[i].Submitted? && log[i].action == Clone && log[i].accepted
    decreases |log|
  {
    var n := |log| - 1;
    if log[n].Submitted? && log[n].action == Clone && log[n].accepted {
      i := n;
    } else {
      i := SomeCloneAccepted(log[..n]);
    }
  }

  lemma {:induction false} FreeMeansNoClone(log: seq<Event>)
    requires ClonesStayVisible(log) && FoundFree(log)
    ensures AcceptedClones(log) == 0
    decreases |log|
  {
    var n := |log| - 1;
    if log[n].Inventory? {
      if AcceptedClones(log[..n]) > 0 {
        var i := SomeCloneAccepted(log[..n]);
        assert false;
      }
    } else {
      FreeMeansNoClone(log[..n]);
    }
  }

  // However crashes fall, at most one clone is ever accepted, as long as an accepted clone shows in the inventory.
  lemma {:induction false} AtMostOneClone(db0: Db, log: seq<Event>)
    requires Clean(db0, log) && Fresh(db0) && ClonesStayVisible(log)
    ensures AcceptedClones(log) <= 1
    decreases |log|
  {
    if log != [] {
      var n := |log| - 1;
      CleanStep(db0, log, n);
      AtMostOneClone(db0, log[..n]);
      if log[n].Submitted? && log[n].action == Clone {
        JudgeFree(db0, log[..n]);
        FreeMeansNoClone(log[..n]);
      }
    }
  }

  // A guest is tombstoned only by a deletion's success, and only after an observation of its absence.
  ghost predicate TombstonesAreObserved(db0: Db, log: seq<Event>) {
    forall j | 0 <= j < |log| && log[j].Saved? && Tombstoned(log[j].saved) && !Tombstoned(Stored(db0, log[..j])) ::
      AbsenceSeen(db0, log[..j]) && db0.row.job.op == VmDelete && log[j].saved.row.life.state == Succeeded
  }

  lemma TombstonesAreAllObserved(db0: Db, log: seq<Event>)
    requires Clean(db0, log) && Fresh(db0)
    ensures TombstonesAreObserved(db0, log)
  {
    forall j | 0 <= j < |log| && log[j].Saved? && Tombstoned(log[j].saved) && !Tombstoned(Stored(db0, log[..j]))
      ensures AbsenceSeen(db0, log[..j]) && db0.row.job.op == VmDelete && log[j].saved.row.life.state == Succeeded
    {
      SaveIsAllowed(db0, log, j);
      StoredAt(db0, log[..j]);
      JudgeStored(db0, log[..j]);
      JudgeAbsence(db0, log[..j]);
    }
  }

  // The start of a new guest is submitted, and the guest is stored as running.
  predicate AwaitsStart(db: Db) {
    StoresStart(db) && Shows(db, VmRunning)
  }

  // What a success has seen, in its own attempt and after its last task ended.
  predicate SuccessSeen(db0: Db, before: seq<Event>, saved: Db) {
    var op, seen, done := db0.row.job.op, StatusSeen(before), TaskDone(db0.row.job.op, before);
    match op
    case VmCreate =>
      && done.Some? && seen.Some? && saved.guest.vm.Some?
      && (|| (Shows(saved, if seen.value.Some? then seen.value.value else VmStopped)
              && (db0.row.job.autoStart ==> seen == Some(Some(VmRunning))))
          || (&& db0.row.job.autoStart && seen == Some(None)
              && Shows(saved, VmRunning) && AwaitsStart(Stored(db0, before))))
    case VmDelete =>
      saved.guest.vm.Some? ==> AbsenceSeen(db0, before) && Tombstoned(saved) && saved.guest.vm.value.status == VmDeleted
    case Unsupported => false
    case _ =>
      && done.Some? && done.value.origin == PowerAction(op) && Shows(saved, PowerGoal(op))
      && (seen == Some(Some(PowerGoal(op))) || (seen == Some(None) && Shows(Stored(db0, before), PowerGoal(op))))
  }

  ghost predicate SuccessIsObserved(db0: Db, log: seq<Event>) {
    forall j | 0 <= j < |log| && log[j].Saved? && log[j].saved.row.life.state == Succeeded ::
      SuccessSeen(db0, log[..j], log[j].saved)
  }

  lemma NextWait(w: Watch, e: Event)
    ensures Next(w, e).finished == match e
                                   case Polled(task, poll) =>
                                     if poll.Ended? && Acceptable(w.db.row.job.op, task, poll.exit) then Some(task)
                                     else None
                                   case Submitted(_, _, _) => None
                                   case Began(_) => None
                                   case _ => w.finished
    ensures Next(w, e).dead == match e
                               case Polled(task, poll) => poll.Ended? && !Acceptable(w.db.row.job.op, task, poll.exit)
                               case Began(_) => false
                               case _ => w.dead
  {
    match e
    case Polled(_, _) =>
    case Submitted(_, _, _) =>
    case Saved(_) =>
    case _ =>
  }

  lemma {:induction false} JudgeDone(db0: Db, log: seq<Event>)
    requires Clean(db0, log) && Fresh(db0)
    ensures Judge(db0, log).finished == TaskDone(db0.row.job.op, log)
    decreases |log|
  {
    if log != [] {
      var n := |log| - 1;
      CleanStep(db0, log, n);
      JudgeDone(db0, log[..n]);
      StoredAt(db0, log[..n]);
      JudgeStored(db0, log[..n]);
      NextWait(Judge(db0, log[..n]), log[n]);
    }
  }

  lemma SuccessIsAlwaysObserved(db0: Db, log: seq<Event>)
    requires Clean(db0, log) && Fresh(db0)
    ensures SuccessIsObserved(db0, log)
  {
    forall j | 0 <= j < |log| && log[j].Saved? && log[j].saved.row.life.state == Succeeded
      ensures SuccessSeen(db0, log[..j], log[j].saved)
    {
      SaveIsAllowed(db0, log, j);
      StoredAt(db0, log[..j]);
      JudgeStored(db0, log[..j]);
      JudgeStatus(db0, log[..j]);
      JudgeAbsence(db0, log[..j]);
      JudgeDone(db0, log[..j]);
    }
  }

  // This attempt's latest poll found the task ended in a way the operation does not accept.
  predicate TaskLost(op: OpType, log: seq<Event>) {
    if log == [] then false
    else
      match log[|log| - 1]
      case Polled(task, poll) => poll.Ended? && !Acceptable(op, task, poll.exit)
      case Began(_) => false
      case _ => TaskLost(op, log[..|log| - 1])
  }

  lemma {:induction false} JudgeLost(db0: Db, log: seq<Event>)
    requires Clean(db0, log) && Fresh(db0)
    ensures Judge(db0, log).dead == TaskLost(db0.row.job.op, log)
    decreases |log|
  {
    if log != [] {
      var n := |log| - 1;
      CleanStep(db0, log, n);
      JudgeLost(db0, log[..n]);
      StoredAt(db0, log[..n]);
      JudgeStored(db0, log[..n]);
      NextWait(Judge(db0, log[..n]), log[n]);
    }
  }

  // A failed task, or WARNINGS from a clone or inside a deletion, ends the attempt: nothing is asked or
  // called any more and the row can only be requeued, failed or cancelled.
  ghost predicate LostTasksEndAttempts(db0: Db, log: seq<Event>) {
    forall j | 0 <= j < |log| && TaskLost(db0.row.job.op, log[..j]) ::
      || log[j].Began? || log[j].SaveFailed?
      || (log[j].Saved? && log[j].saved.row.life.state in {Queued, Failed, Cancelled})
  }

  lemma LostTasksAlwaysEndAttempts(db0: Db, log: seq<Event>)
    requires Clean(db0, log) && Fresh(db0)
    ensures LostTasksEndAttempts(db0, log)
  {
    forall j | 0 <= j < |log| && TaskLost(db0.row.job.op, log[..j])
      ensures || log[j].Began? || log[j].SaveFailed?
              || (log[j].Saved? && log[j].saved.row.life.state in {Queued, Failed, Cancelled})
    {
      CleanStep(db0, log, j);
      JudgeLost(db0, log[..j]);
    }
  }

  // This attempt was granted authorization, and has not been denied it since.
  predicate IsAuthorized(log: seq<Event>) {
    if log == [] then false
    else
      match log[|log| - 1]
      case Authorized(granted) => granted == Said(true)
      case Began(_) => false
      case _ => IsAuthorized(log[..|log| - 1])
  }

  lemma NextGranted(w: Watch, e: Event)
    ensures Next(w, e).granted == match e
                                  case Authorized(granted) => granted == Said(true)
                                  case Began(_) => false
                                  case _ => w.granted
  {
    match e
    case Authorized(_) =>
    case Submitted(_, _, _) =>
    case Saved(_) =>
    case _ =>
  }

  lemma {:induction false} JudgeGranted(db0: Db, log: seq<Event>)
    ensures Judge(db0, log).granted == IsAuthorized(log)
  {
    if log != [] {
      JudgeGranted(db0, log[..|log| - 1]);
      NextGranted(Judge(db0, log[..|log| - 1]), log[|log| - 1]);
    }
  }

  // An attempt asks, calls and waits, and an operation on a guest succeeds, only while it is authorized; and nothing
  // more is asked of a guest that was found gone.
  ghost predicate AttemptsAreAuthorized(db0: Db, log: seq<Event>) {
    forall j | 0 <= j < |log| ::
      && (log[j].Inventory? || log[j].Observed? || log[j].Submitted? || log[j].Polled? ==>
            IsAuthorized(log[..j]) && (db0.row.job.op == VmDelete ==> !AbsenceSeen(db0, log[..j])))
      && (log[j].Saved? && log[j].saved.row.life.state == Succeeded && db0.row.job.hasTarget ==>
            IsAuthorized(log[..j]))
  }

  lemma AttemptsAreAllAuthorized(db0: Db, log: seq<Event>)
    requires Clean(db0, log) && Fresh(db0)
    ensures AttemptsAreAuthorized(db0, log)
  {
    forall j | 0 <= j < |log|
      ensures log[j].Inventory? || log[j].Observed? || log[j].Submitted? || log[j].Polled? ==>
                IsAuthorized(log[..j]) && (db0.row.job.op == VmDelete ==> !AbsenceSeen(db0, log[..j]))
      ensures log[j].Saved? && log[j].saved.row.life.state == Succeeded && db0.row.job.hasTarget ==>
                IsAuthorized(log[..j])
    {
      CleanStep(db0, log, j);
      JudgeGranted(db0, log[..j]);
      JudgeAbsence(db0, log[..j]);
      JudgeStored(db0, log[..j]);
      StoredAt(db0, log[..j]);
    }
  }

  // Only the committed task is ever polled, and it is the answer to the call its origin names.
  ghost predicate PolledTasksAreOurs(db0: Db, log: seq<Event>) {
    forall j | 0 <= j < |log| && log[j].Polled? ::
      && Stored(db0, log[..j]).row.task == Some(log[j].task)
      && exists i: nat :: i < j && Answers(log[i], log[j].task)
  }

  predicate Answers(e: Event, task: Task) {
    e.Submitted? && e.action == task.origin && e.taskId == Said(Some(task.id))
  }

  lemma {:induction false} StoredTaskWasAnswered(db0: Db, log: seq<Event>)
    requires Clean(db0, log) && Fresh(db0) && Stored(db0, log).row.task.Some?
    ensures exists i: nat :: i < |log| && Answers(log[i], Stored(db0, log).row.task.value)
    decreases |log|
  {
    var n := |log| - 1;
    var task := Stored(db0, log).row.task;
    CleanStep(db0, log, n);
    JudgeStored(db0, log[..n]);
    if Stored(db0, log[..n]).row.task == task {
      StoredTaskWasAnswered(db0, log[..n]);
      var i: nat :| i < n && Answers(log[..n][i], task.value);
      assert Answers(log[i], task.value);
    } else {
      if n > 0 {
        JudgeLast(db0, log[..n]);
        assert log[..n][n - 1] == log[n - 1];
        assert Answers(log[n - 1], task.value);
      }
    }
  }

  lemma PolledTasksAreAllOurs(db0: Db, log: seq<Event>)
    requires Clean(db0, log) && Fresh(db0)
    ensures PolledTasksAreOurs(db0, log)
  {
    forall j | 0 <= j < |log| && log[j].Polled?
      ensures Stored(db0, log[..j]).row.task == Some(log[j].task)
      ensures exists i: nat :: i < j && Answers(log[i], log[j].task)
    {
      CleanStep(db0, log, j);
      JudgeStored(db0, log[..j]);
      StoredTaskWasAnswered(db0, log[..j]);
      var i: nat :| i < |log[..j]| && Answers(log[..j][i], log[j].task);
      assert Answers(log[i], log[j].task);
    }
  }
}
