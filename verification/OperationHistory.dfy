/**
 What an operation does to the outside world, as a log of events over all of its attempts,
 and the automaton that judges such a log. `Next` never looks at the program: it says,
 event by event, which hypervisor calls and commits are allowed.
 */
module OperationHistory {
  import opened Common
  import opened OperationRecord

  datatype VmStatus = VmRunning | VmStopped | VmError | VmDeleted | VmOther(code: nat)

  datatype Vm = Vm(status: VmStatus, deletedAt: Option<Time>)

  datatype AssignmentStatus = Assigned | Ready | Expired | OtherAssignment

  datatype Assignment = Assignment(status: AssignmentStatus, hasVm: bool)

  // The committed records one operation touches.
  datatype Guest = Guest(vm: Option<Vm>, templateExists: bool, assignment: Option<Assignment>)

  datatype Db = Db(row: Row, guest: Guest)

  datatype Reason =
    | VmMissing | TemplateMissing | AlreadyExists | NoTaskId | WrongStatus | TaskFailed | TaskTimeout
    | StillPresent | UnsupportedType

  // What a request to the hypervisor or an authorization query can raise.
  datatype RemoteError = Http(code: nat) | Transport

  // Crash is the death of the process: no handler sees it.
  datatype Fault = Crash | Refused | Remote(error: RemoteError) | Database | Runtime(reason: Reason)

  datatype Answer<T> = Said(value: T) | Raised(error: RemoteError)

  datatype Exit = ExitOk | ExitWarnings | ExitOther

  datatype Poll = StillRunning | Ended(exit: Exit) | PollFailed

  datatype Event =
    | Began(db: Db)
    | Authorized(granted: Answer<bool>)
    | Inventory(present: Answer<bool>)
    | Observed(status: Answer<Option<VmStatus>>)
    | Submitted(action: Action, accepted: bool, taskId: Answer<Option<nat>>)
    | Polled(task: Task, poll: Poll)
    | Overdue
    | Reloaded(written: Option<VmStatus>)
    | Saved(saved: Db)
    | SaveFailed

  predicate Shows(db: Db, status: VmStatus) {
    db.guest.vm.Some? && db.guest.vm.value.status == status
  }

  // Others write the guest's status too, whenever they have looked at it; `Reloaded` is the session's next look at the
  // database, with what they have written since its last one.
  function Written(db: Db, status: Option<VmStatus>): Db {
    if status.Some? && db.guest.vm.Some? then
      db.(guest := db.guest.(vm := Some(db.guest.vm.value.(status := status.value))))
    else
      db
  }

  predicate IsPower(op: OpType) {
    op == VmStart || op == VmStop || op == VmReboot
  }

  function PowerAction(op: OpType): Action
    requires IsPower(op)
  {
    match op
    case VmStart => Start
    case VmStop => Stop
    case VmReboot => Reboot
  }

  function PowerGoal(op: OpType): VmStatus
    requires IsPower(op)
  {
    if op == VmStop then VmStopped else VmRunning
  }

  // Which task results count as success: warnings only for power actions and the start of a new VM.
  predicate Acceptable(op: OpType, task: Task, exit: Exit) {
    || exit == ExitOk
    || (exit == ExitWarnings && (IsPower(op) || (op == VmCreate && task.origin == Start)))
  }

  // Which calls an operation may make at all.
  predicate Fits(op: OpType, action: Action) {
    match op
    case VmCreate => action == Clone || action == Start
    case VmDelete => action == Stop || action == Delete
    case Unsupported => false
    case _ => action == PowerAction(op)
  }

  predicate Tombstoned(db: Db) {
    db.guest.vm.Some? && db.guest.vm.value.deletedAt.Some?
  }

  datatype Watch = Watch(
    db: Db,                                // last committed (or first enqueued) records
    clones: nat,                           // accepted clones so far
    visible: bool,                         // no inventory has missed an accepted clone
    granted: bool,                         // this attempt has been authorized
    free: bool,                            // this attempt saw the VMID free and has not cloned since
    answer: Option<Answer<Option<nat>>>,   // what this attempt's last call answered
    raised: Option<RemoteError>,           // what this attempt raised last, answered inventories aside
    lastStatus: Option<Option<VmStatus>>,  // latest status answer, since the last call or task end
    looks: nat,                            // status questions since the last call or poll
    absent: bool,                          // the attempt's last observation reported absence
    finished: Option<Task>,                // task whose acceptable end was the last one awaited
    polled: bool,                          // nothing has been committed since the last poll
    looked: bool,                          // the records have been read since the last commit
    dead: bool,                            // a task of this attempt ended unacceptably
    last: Event,
    bad: bool)

  function Start0(db: Db): Watch {
    Watch(db, 0, true, false, false, None, None, None, 0, false, None, false, false, false, Began(db), false)
  }

  // A stop whose committed task has not been followed by an observed stopped VM.
  predicate StopPending(w: Watch) {
    w.db.row.job.op == VmDelete && w.db.row.phase == StopSubmitted && w.db.row.task.Some?
  }

  predicate AllowedCall(w: Watch, action: Action) {
    && Fits(w.db.row.job.op, action)
    && w.last == Authorized(Said(true))
    && (w.db.row.task.Some? ==> w.db.row.task.value.origin != action)
    && (w.db.row.job.op == VmDelete ==> w.db.row.phase != DeleteSubmitted && !StopPending(w))
    && (action == Clone ==> w.free)
    && (action == Delete ==> w.lastStatus.Some? && w.lastStatus != Some(Some(VmRunning)))
    && (action == Stop && w.db.row.job.op == VmDelete ==> w.lastStatus == Some(Some(VmRunning)))
    && (w.db.row.job.op == VmCreate && action == Start ==>
          w.db.row.job.autoStart && w.lastStatus.Some? && w.lastStatus != Some(Some(VmRunning)))
  }

  // The latest status question is the one that confirms a deletion: the first after a deletion of this attempt was
  // awaited, the second if an earlier attempt submitted it, and this one has called nothing.
  predicate Confirms(w: Watch) {
    && w.db.row.job.op == VmDelete && w.db.row.phase == DeleteSubmitted
    && w.looks == if w.answer.None? then 2 else 1
  }

  // An attempt may go on only while it holds the row and none of its tasks has failed.
  predicate MayGoOn(w: Watch) {
    !w.dead && w.db.row.life.state == Running
  }

  // The records that an operation cannot do without are there.
  predicate Usable(db: Db) {
    && !db.row.job.op.Unsupported? && db.guest.vm.Some?
    && (db.row.job.op == VmCreate ==> db.guest.templateExists)
  }

  // It may ask, call or wait only once it has been authorized, over records it can use, and, in a deletion, until the
  // guest was found gone.
  predicate MayAsk(w: Watch) {
    MayGoOn(w) && w.granted && Usable(w.db) && (w.db.row.job.op == VmDelete ==> !w.absent)
  }

  // A created guest is stored as it was seen, or as stopped where no status was given.
  predicate SeenAs(w: Watch, db: Db) {
    && w.lastStatus.Some?
    && Shows(db, if w.lastStatus.value.Some? then w.lastStatus.value.value else VmStopped)
    && (w.db.row.job.autoStart ==> w.lastStatus == Some(Some(VmRunning)))
  }

  // When an operation may be committed as succeeded.
  predicate Earned(w: Watch, db: Db) {
    var op := w.db.row.job.op;
    match op
    case VmCreate =>
      && w.finished.Some? && w.lastStatus.Some?
      && (|| SeenAs(w, db)
          || (w.db.row.job.autoStart && w.lastStatus == Some(None) && w.db.row.phase == StartSubmitted
              && Shows(w.db, VmRunning) && Shows(db, VmRunning)))
    case VmDelete =>
      db.guest.vm.None? || (w.absent && Tombstoned(db) && db.guest.vm.value.status == VmDeleted)
    case Unsupported => false
    case _ =>
      && w.finished.Some? && w.finished.value.origin == PowerAction(op)
      && Shows(db, PowerGoal(op))
      && (w.lastStatus == Some(Some(PowerGoal(op))) || (w.lastStatus == Some(None) && Shows(w.db, PowerGoal(op))))
  }

  // What a commit makes of the guest's assignment: ready once the guest is created, free of the guest once it is
  // deleted, otherwise what it was.
  function Reassigned(a: Option<Assignment>, db: Db): Option<Assignment> {
    if a.None? || db.row.life.state != Succeeded then a
    else if db.row.job.op == VmCreate then Some(a.value.(status := Ready))
    else if db.row.job.op == VmDelete && db.guest.vm.Some? then
      Some(Assignment(if db.row.job.cleanup then Expired else Assigned, false))
    else a
  }

  // A phase is entered with the call it names, and left for the stopped one when the guest was seen stopped.
  predicate PhaseFits(w: Watch, db: Db) {
    || db.row.phase == w.db.row.phase
    || (w.last.Submitted? && Named(db.row.job.op, w.last.action) == Some(db.row.phase))
    || (StopPending(w) && w.lastStatus == Some(Some(VmStopped)) && db.row.phase == StopObserved && db.row.task.None?)
  }

  // The phase that a call is committed under; a power action leaves the phase alone.
  function Named(op: OpType, action: Action): Option<Phase> {
    match (op, action)
    case (VmCreate, Clone) => Some(CloneSubmitted)
    case (VmCreate, Start) => Some(StartSubmitted)
    case (VmDelete, Stop) => Some(StopSubmitted)
    case (VmDelete, Delete) => Some(DeleteSubmitted)
    case _ => None
  }

  // The start of a new guest has been submitted.
  predicate StoresStart(db: Db) {
    db.row.job.op == VmCreate && db.row.phase == StartSubmitted
  }

  // A commit records a task only right after the call that answered with it, never forgets a power
  // task or a submitted deletion, never fakes success, never touches a row that is over, leaves a power
  // operation's guest alone until it has succeeded, and does not store a guest as running whose start it awaits.
  predicate AllowedSave(w: Watch, db: Db) {
    && db.row.job == w.db.row.job
    && !w.db.row.life.state.Terminal()
    && db.guest.vm.Some? == w.db.guest.vm.Some?
    && db.guest.templateExists == w.db.guest.templateExists
    && db.guest.assignment == Reassigned(w.db.guest.assignment, db)
    && PhaseFits(w, db)
    && (IsPower(db.row.job.op) && db.row.life.state != Succeeded ==> db.guest == w.db.guest)
    && (StoresStart(db) && db.row.life.state != Succeeded && Shows(db, VmRunning) ==>
          StoresStart(w.db) && Shows(w.db, VmRunning))
    && (db.row.task.Some? && db.row.task != w.db.row.task ==>
          && w.last.Submitted? && w.last.action == db.row.task.value.origin
          && w.last.taskId == Said(Some(db.row.task.value.id)))
    && (IsPower(db.row.job.op) && w.db.row.task.Some? ==> db.row.task == w.db.row.task)
    && (db.row.job.op == VmDelete && w.db.row.phase == DeleteSubmitted ==> db.row.phase == DeleteSubmitted)
    && (w.dead ==> db.row.life.state == Queued || db.row.life.state == Failed || db.row.life.state == Cancelled)
    && (db.row.life.state == Succeeded ==> Earned(w, db) && (db.row.job.hasTarget ==> w.granted))
    && (Tombstoned(db) && !Tombstoned(w.db) ==>
         w.db.row.job.op == VmDelete && w.absent && db.row.life.state == Succeeded)
  }

  function AfterBegan(w: Watch, db: Db): Watch {
    w.(granted := false,
       free := false,
       answer := None,
       raised := None,
       lastStatus := None,
       looks := 0,
       absent := false,
       finished := None,
       polled := false,
       dead := false,
       last := Began(db))
  }

  function AfterAuthorized(w: Watch, granted: Answer<bool>): Watch {
    w.(granted := granted == Said(true), last := Authorized(granted), bad := w.bad || !MayGoOn(w))
  }

  function AfterInventory(w: Watch, present: Answer<bool>): Watch {
    w.(raised := if present.Raised? then Some(present.error) else w.raised,
       free := present == Said(false),
       visible := w.visible && (present == Said(false) ==> w.clones == 0),
       absent := present == Said(false),
       last := Inventory(present),
       bad := w.bad || !MayAsk(w))
  }

  function AfterObserved(w: Watch, status: Answer<Option<VmStatus>>): Watch {
    w.(raised := if status.Raised? then Some(status.error) else None,
       lastStatus := if status.Said? then Some(status.value) else None,
       looks := w.looks + 1,
       absent := status == Raised(Http(404)) && Confirms(w.(looks := w.looks + 1)),
       last := Observed(status),
       bad := w.bad || !MayAsk(w))
  }

  function AfterSubmitted(w: Watch, action: Action, accepted: bool, taskId: Answer<Option<nat>>): Watch {
    w.(clones := if action == Clone && accepted then w.clones + 1 else w.clones,
       free := false,
       answer := Some(taskId),
       raised := if taskId.Raised? then Some(taskId.error) else None,
       lastStatus := None,
       looks := 0,
       finished := None,
       last := Submitted(action, accepted, taskId),
       bad := w.bad || !MayAsk(w) || !AllowedCall(w, action))
  }

  function AfterPolled(w: Watch, task: Task, poll: Poll): Watch {
    var ok := poll.Ended? && Acceptable(w.db.row.job.op, task, poll.exit);
    w.(lastStatus := None,
       looks := 0,
       finished := if ok then Some(task) else None,
       polled := true,
       dead := poll.Ended? && !ok,
       last := Polled(task, poll),
       bad := w.bad || !MayAsk(w) || w.polled || w.db.row.task != Some(task))
  }

  function AfterOverdue(w: Watch): Watch {
    w.(last := Overdue, bad := w.bad || !MayGoOn(w))
  }

  function AfterReloaded(w: Watch, written: Option<VmStatus>): Watch {
    w.(db := Written(w.db, written), looked := true, last := Reloaded(written), bad := w.bad || !MayGoOn(w))
  }

  function AfterSaved(w: Watch, db: Db): Watch {
    w.(db := db,
       polled := false,
       looked := false,
       last := Saved(db),
       bad := w.bad || !AllowedSave(w, db))
  }

  function AfterSaveFailed(w: Watch): Watch {
    w.(last := SaveFailed)
  }

  function Next(w: Watch, e: Event): Watch {
    match e
    case Began(db) => AfterBegan(w, db)
    case Authorized(granted) => AfterAuthorized(w, granted)
    case Inventory(present) => AfterInventory(w, present)
    case Observed(status) => AfterObserved(w, status)
    case Submitted(action, accepted, taskId) => AfterSubmitted(w, action, accepted, taskId)
    case Polled(task, poll) => AfterPolled(w, task, poll)
    case Overdue => AfterOverdue(w)
    case Reloaded(written) => AfterReloaded(w, written)
    case Saved(db) => AfterSaved(w, db)
    case SaveFailed => AfterSaveFailed(w)
  }

  // The watch over a whole log.
  function Judge(db0: Db, log: seq<Event>): Watch {
    if log == [] then Start0(db0) else Next(Judge(db0, log[..|log| - 1]), log[|log| - 1])
  }

  ghost predicate StepAt(log: seq<Event>, trail: seq<Watch>, i: nat)
    requires i < |log| && i + 1 < |trail|
  {
    trail[i + 1] == Next(trail[i], log[i])
  }

  // `trail` is the watch after every prefix of the log.
  ghost predicate Trail(db0: Db, log: seq<Event>, trail: seq<Watch>) {
    && |trail| == |log| + 1
    && trail[0] == Start0(db0)
    && forall i: nat {:trigger StepAt(log, trail, i)} | i < |log| :: StepAt(log, trail, i)
  }

  // The watch `w` is the judgement of `log`.
  ghost predicate Audited(db0: Db, log: seq<Event>, w: Watch) {
    exists trail: seq<Watch> :: Trail(db0, log, trail) && w == trail[|log|]
  }

  lemma AuditedNext(db0: Db, log: seq<Event>, w: Watch, e: Event)
    requires Audited(db0, log, w)
    ensures Audited(db0, log + [e], Next(w, e))
  {
    var trail: seq<Watch> :| Trail(db0, log, trail) && w == trail[|log|];
    var log', trail' := log + [e], trail + [Next(w, e)];
    forall i: nat {:trigger StepAt(log', trail', i)} | i < |log'|
      ensures StepAt(log', trail', i)
    {
      if i < |log| {
        assert StepAt(log, trail, i);
      }
    }
    assert Trail(db0, log', trail');
  }

  lemma {:induction false} TrailIsJudge(db0: Db, log: seq<Event>, trail: seq<Watch>)
    requires Trail(db0, log, trail)
    ensures Judge(db0, log) == trail[|log|]
    decreases |log|
  {
    if log != [] {
      var n: nat := |log| - 1;
      var log', trail' := log[..n], trail[..n + 1];
      forall i: nat {:trigger StepAt(log', trail', i)} | i < n
        ensures StepAt(log', trail', i)
      {
        assert StepAt(log, trail, i);
      }
      TrailIsJudge(db0, log', trail');
      assert StepAt(log, trail, n);
    }
  }

  lemma AuditedIsJudge(db0: Db, log: seq<Event>, w: Watch)
    requires Audited(db0, log, w)
    ensures w == Judge(db0, log)
  {
    var trail: seq<Watch> :| Trail(db0, log, trail) && w == trail[|log|];
    TrailIsJudge(db0, log, trail);
  }
}
