/**
 Why an attempt fails: every failure of the worker has a cause in the last event before it, and what that cause can be
 is said on the log alone. Where no such event occurs, the operation succeeds.
 */
module OperationCauses {
  import opened Common
  import opened OperationRecord
  import opened OperationHistory
  import opened OperationGuarantees
  import opened OperationEngine

  // What this attempt last raised, since which it has asked only for inventories and authorization.
  function LastRaised(log: seq<Event>): Option<RemoteError> {
    if log == [] then None else RaisedAfter(LastRaised(log[..|log| - 1]), log[|log| - 1])
  }

  function RaisedAfter(was: Option<RemoteError>, e: Event): Option<RemoteError> {
    match e
    case Inventory(present) => if present.Raised? then Some(present.error) else was
    case Observed(status) => if status.Raised? then Some(status.error) else None
    case Submitted(_, _, taskId) => if taskId.Raised? then Some(taskId.error) else None
    case Began(_) => None
    case _ => was
  }

  // The records have been read since the last commit.
  predicate Reread(log: seq<Event>) {
    if log == [] then false
    else
      match log[|log| - 1]
      case Reloaded(_) => true
      case Saved(_) => false
      case _ => Reread(log[..|log| - 1])
  }

  lemma NextRaised(w: Watch, e: Event)
    ensures Next(w, e).raised == RaisedAfter(w.raised, e)
  {
    match e
    case Inventory(present) =>
    case Observed(status) =>
    case Submitted(_, _, _) =>
    case Saved(_) =>
    case _ =>
  }

  lemma {:induction false} JudgeRaised(db0: Db, log: seq<Event>)
    ensures Judge(db0, log).raised == LastRaised(log)
  {
    if log != [] {
      JudgeRaised(db0, log[..|log| - 1]);
      NextRaised(Judge(db0, log[..|log| - 1]), log[|log| - 1]);
    }
  }

  lemma {:induction false} JudgeReread(db0: Db, log: seq<Event>)
    ensures Judge(db0, log).looked == Reread(log)
  {
    if log != [] {
      JudgeReread(db0, log[..|log| - 1]);
    }
  }

  // An answered status is not the one this attempt waits for: that of a power operation, of a new guest whose start is
  // committed, or of a stop inside a deletion. An answer without a status is read off the records; not so in a
  // deletion, nor for a start that an earlier attempt submitted.
  predicate Missed(db0: Db, log: seq<Event>, status: Option<VmStatus>) {
    var op, db := db0.row.job.op, Stored(db0, log);
    match op
    case VmCreate =>
      && db.row.phase == StartSubmitted
      && (if status.Some? then status.value != VmRunning
          else LastAnswer(log).None? || (Reread(log) && !Shows(db, VmRunning)))
    case VmDelete => db.row.phase == StopSubmitted && db.row.task.Some? && status != Some(VmStopped)
    case Unsupported => false
    case _ => if status.Some? then status.value != PowerGoal(op) else Reread(log) && !Shows(db, PowerGoal(op))
  }

  // An error of the hypervisor that a deletion answers by asking for the inventory.
  predicate MaybeGone(op: OpType, error: RemoteError) {
    op == VmDelete && error in {Http(404), Http(500)}
  }

  // What the last event says against going on.
  predicate Hinders(db0: Db, log: seq<Event>, e: Event) {
    var op, db := db0.row.job.op, Stored(db0, log);
    match e
    case Authorized(granted) => granted != Said(true)
    case Inventory(present) =>
      || present.Raised?
      || (op == VmCreate && db.row.task.None? && present.value)
      || (present.value && LastRaised(log).Some? && MaybeGone(op, LastRaised(log).value))
    case Observed(status) =>
      if status.Raised? then !MaybeGone(op, status.error) else Missed(db0, log, status.value) || Confirming(db0, log)
    case Submitted(_, _, taskId) => taskId.Raised? && !MaybeGone(op, taskId.error)
    case Polled(task, poll) => poll.PollFailed? || (poll.Ended? && !Acceptable(op, task, poll.exit))
    case Overdue => true
    case Saved(_) => LastAnswer(log) == Some(Said(None))
    case SaveFailed => true
    case _ => false
  }

  // The operation has no guest to act on, no template to clone, or no meaning.
  predicate Hopeless(db: Db) {
    match db.row.job.op
    case VmCreate => db.guest.vm.None? || !db.guest.templateExists
    case VmDelete => false
    case Unsupported => true
    case _ => db.guest.vm.None?
  }

  // Why the attempt in `log` fails now.
  predicate Hindered(db0: Db, log: seq<Event>) {
    Hopeless(Stored(db0, log)) || (log != [] && Hinders(db0, log, log[|log| - 1]))
  }

  // A fault that ends an attempt is justified by the log alone.
  lemma EndIsHindered(db0: Db, log: seq<Event>, fault: Fault)
    requires Clean(db0, log) && Fresh(db0) && fault != Crash && log != []
    requires Ends(Judge(db0, log), fault)
    ensures Hindered(db0, log)
    ensures fault == Refused <==> log[|log| - 1] == Authorized(Said(false))
  {
    var n := |log| - 1;
    JudgeLast(db0, log);
    JudgeStored(db0, log);
    StoredAt(db0, log);
    JudgeRaised(db0, log);
    JudgeReread(db0, log);
    JudgeLooks(db0, log);
    JudgeConfirms(db0, log);
    if log[n].Polled? {
      CleanStep(db0, log, n);
      JudgeStored(db0, log[..n]);
      StoredAt(db0, log[..n]);
    }
  }
}
