/**
 `execute_operation`, step by step. `cur` is the session's copy of the records and `stored`
 what the database holds: only `Save` moves one to the other, and a fault or a crash at any
 event leaves `stored` as the last commit left it.
 */
module OperationEngine {
  import opened Common
  import opened OperationRecord
  import opened OperationHistory

  datatype Submission = Submission(accepted: bool, taskId: Answer<Option<nat>>)

  // The world outside one attempt: the answer to the question asked at each position of the log,
  // and the position at which the process dies.
  datatype Env = Env(
    authorize: nat -> Answer<bool>,
    inventory: nat -> Answer<bool>,
    status: nat -> Answer<Option<VmStatus>>,
    submit: nat -> Submission,
    poll: nat -> Poll,
    overdue: nat -> bool,
    touch: nat -> Option<VmStatus>,
    save: nat -> bool,
    clock: nat -> Time,
    crashAt: nat)

  // The call whose task an operation may hold in a phase.
  function Origin(op: OpType, phase: Phase): Option<Action> {
    match op
    case VmCreate =>
      if phase == StartSubmitted then Some(Start) else if phase == CloneSubmitted then Some(Clone) else None
    case VmDelete =>
      if phase == StopSubmitted then Some(Stop) else if phase == DeleteSubmitted then Some(Delete) else None
    case Unsupported => None
    case _ => Some(PowerAction(op))
  }

  // A stored task is always the answer to the call its phase names.
  predicate TaskFits(row: Row) {
    row.task.Some? ==> Origin(row.job.op, row.phase) == Some(row.task.value.origin)
  }

  // Committed records and the judge's view of the log agree, and nothing forbidden has happened.
  ghost predicate Linked(stored: Db, w: Watch, cfg: Config) {
    && w.db == stored
    && WellFormed(stored.row.life, cfg)
    && TaskFits(stored.row)
    && (stored.guest.vm.Some? ==> stored.row.job.hasTarget)
    && (w.visible ==> w.clones <= if w.free then 0 else 1)
    && !w.bad
  }

  // Mid-attempt: the row is leased and the session's copy differs only in ways a commit may publish.
  ghost predicate Working(cur: Db, stored: Db, w: Watch, cfg: Config) {
    && Linked(stored, w, cfg)
    && !w.dead
    && stored.row.life.state == Running
    && cur.row == stored.row
    && cur.guest.vm.Some? == stored.guest.vm.Some?
    && (cur.guest.vm.Some? ==> cur.guest.vm.value.deletedAt == stored.guest.vm.value.deletedAt)
    && cur.guest.templateExists == stored.guest.templateExists
    && cur.guest.assignment == stored.guest.assignment
    && (IsPower(cur.row.job.op) ==> cur.guest == stored.guest)
  }

  // What `cur` must satisfy for a commit to keep the records linked to the log.
  ghost predicate Publishable(cur: Db, stored: Db, w: Watch, cfg: Config) {
    && Linked(stored, w, cfg)
    && WellFormed(cur.row.life, cfg)
    && TaskFits(cur.row)
    && AllowedSave(w, cur)
    && (cur.guest.vm.Some? ==> cur.row.job.hasTarget)
  }

  lemma SaveKeepsLinked(cur: Db, stored: Db, w: Watch, cfg: Config)
    requires Publishable(cur, stored, w, cfg)
    ensures Linked(cur, AfterSaved(w, cur), cfg)
  {
  }

  // An event at position `i` is what the world answers there, to a process that is still alive.
  predicate Told(cfg: Config, env: Env, i: nat, e: Event) {
    match e
    case Began(_) => false
    case Authorized(granted) => i < env.crashAt && granted == env.authorize(i)
    case Inventory(present) => i < env.crashAt && present == env.inventory(i)
    case Observed(status) => i < env.crashAt && status == env.status(i)
    case Submitted(_, accepted, taskId) => i < env.crashAt && Submission(accepted, taskId) == env.submit(i)
    case Polled(_, poll) => i < env.crashAt && poll == env.poll(i)
    case Overdue => i < env.crashAt && env.overdue(i)
    case Reloaded(written) => i < env.crashAt && written == env.touch(i)
    case Saved(db) => i < env.crashAt && env.save(i) && Dated(db.row.life, env.clock(i), cfg)
    case SaveFailed => i < env.crashAt && !env.save(i)
  }

  // What a commit at `now` writes into the columns that hold times.
  predicate Dated(life: Life, now: Time, cfg: Config) {
    match life.state
    case Running => life.leaseExpires == Some(now + cfg.leaseSeconds)
    case Queued => life.runAfter == Some(now + RetryDelay(life.attempts))
    case _ => life.finishedAt == Some(now)
  }

  // The log has grown from `a` to `b` by answers of the world.
  ghost predicate Grows(cfg: Config, env: Env, a: seq<Event>, b: seq<Event>) {
    && |a| <= |b|
    && (forall i | 0 <= i < |a| :: a[i] == b[i])
    && (forall i | |a| <= i < |b| :: Told(cfg, env, i, b[i]))
  }

  // A run of the worker: the attempt begins, and goes on by answers of the world.
  ghost predicate Runs(cfg: Config, env: Env, a: seq<Event>, b: seq<Event>) {
    |a| < |b| && a == b[..|a|] && b[|a|].Began? && Grows(cfg, env, b[..|a| + 1], b)
  }

  // No task is found still running, so that every wait is over with its first poll.
  ghost predicate Brisk(env: Env) {
    forall i: nat :: env.poll(i) != StillRunning
  }

  // The same guest, but for its status.
  predicate SameGuest(a: Guest, b: Guest) {
    && a.vm.Some? == b.vm.Some?
    && (a.vm.Some? ==> a.vm.value.deletedAt == b.vm.value.deletedAt)
    && a.templateExists == b.templateExists
    && a.assignment == b.assignment
  }

  // A fault inside an attempt has its cause in the last thing that happened. Each case is exact: it names what makes
  // the attempt fail there.
  ghost predicate Explains(w: Watch, fault: Fault) {
    match fault
    case Crash => true
    case Refused => Denied(w)
    case Database => w.last == SaveFailed || (w.last.Authorized? && w.last.granted.Raised?)
    case Runtime(reason) =>
      (match reason
       case VmMissing =>
         w.db.guest.vm.None? && !Denied(w) && (IsPower(w.db.row.job.op) || w.db.row.job.op == VmCreate)
       case TemplateMissing => w.db.row.job.op == VmCreate && !w.db.guest.templateExists && !Denied(w)
       case AlreadyExists => w.db.row.job.op == VmCreate && w.db.row.task.None? && w.last == Inventory(Said(true))
       case NoTaskId => w.last.Saved? && w.answer == Some(Said(None))
       case WrongStatus => w.last.Observed? && w.last.status.Said? && w.finished.Some? && Misses(w, w.last.status.value)
       case TaskFailed => w.dead && w.last.Polled?
       case TaskTimeout => w.last == Overdue || (w.last.Polled? && w.last.poll.PollFailed?)
       case StillPresent => w.last.Observed? && w.last.status.Said? && Confirms(w)
       case UnsupportedType => w.db.row.job.op == Unsupported && !Denied(w))
    case Remote(error) =>
      && w.raised == Some(error)
      && (|| w.last == Inventory(Raised(error))
          || (w.last == Observed(Raised(error)) && !w.absent)
          || (w.last.Submitted? && w.last.taskId == Raised(error))
          || (w.last == Inventory(Said(true)) && StillThere(w, error)))
  }

  predicate Denied(w: Watch) {
    w.last == Authorized(Said(false))
  }

  // `status` is not the one waited for: that of a power operation, of a new guest whose start is committed, or of a
  // stop inside a deletion. A missing status is read from the records, except by a later attempt at a creation, and
  // in a deletion.
  ghost predicate Misses(w: Watch, status: Option<VmStatus>) {
    var op := w.db.row.job.op;
    match op
    case VmCreate =>
      && w.db.row.phase == StartSubmitted
      && (if status.Some? then status.value != VmRunning else w.answer.None? || (w.looked && !Shows(w.db, VmRunning)))
    case VmDelete => StopPending(w) && status != Some(VmStopped)
    case Unsupported => false
    case _ => if status.Some? then status.value != PowerGoal(op) else w.looked && !Shows(w.db, PowerGoal(op))
  }

  // A deletion met a 404 or a 500, and the inventory that it then asked for still shows the guest.
  predicate StillThere(w: Watch, error: RemoteError) {
    w.db.row.job.op == VmDelete && error in {Http(404), Http(500)}
  }

  // What ends an attempt: a deletion does not end with a 404 or a 500 unless an inventory has been asked for after it.
  ghost predicate Ends(w: Watch, fault: Fault) {
    && Explains(w, fault)
    && (w.db.row.job.op == VmDelete && fault in {Remote(Http(404)), Remote(Http(500))} ==> w.last.Inventory?)
  }

  // One attempt under way: the session's records, the database's records, and the log with its judgement.
  datatype Session = Session(cur: Db, stored: Db, log: seq<Event>, seen: Watch)

  ghost predicate Sound(db0: Db, s: Session, cfg: Config) {
    Audited(db0, s.log, s.seen) && Linked(s.stored, s.seen, cfg) && s.stored.row.job == db0.row.job
  }

  ghost predicate AtWork(db0: Db, s: Session, cfg: Config) {
    Audited(db0, s.log, s.seen) && Working(s.cur, s.stored, s.seen, cfg) && s.stored.row.job == db0.row.job
  }

  // This attempt has called, polled and asked nothing so far, and was not denied.
  predicate Begins(w: Watch) {
    w.answer.None? && w.looks == 0 && !w.polled && !w.absent && !Denied(w)
  }

  // The session may ask the hypervisor.
  ghost predicate Asks(db0: Db, s: Session, cfg: Config) {
    AtWork(db0, s, cfg) && MayAsk(s.seen)
  }

  // The attempt has read its records and was authorized.
  predicate Entered(w: Watch) {
    Begins(w) && (w.db.row.job.hasTarget ==> w.granted)
  }

  // `_validate_operation_authorization`: refusal is an exception of its own.
  method Authorize(ghost db0: Db, cfg: Config, env: Env, s0: Session) returns (r: Result<(), Fault>, s: Session)
    requires AtWork(db0, s0, cfg)
    ensures AtWork(db0, s, cfg) && Grows(cfg, env, s0.log, s.log) && s.cur == s0.cur && s.stored == s0.stored
    ensures r.Ok? ==> s.seen == s0.seen.(granted := true, last := Authorized(Said(true)))
    ensures r.Err? ==> !r.error.Remote?
    ensures r.Err? ==> Explains(s.seen, r.error) && (r.error == Crash ==> env.crashAt <= |s.log|)
    ensures |s.log| <= |s0.log| + 1
  {
    if env.crashAt <= |s0.log| { return Err(Crash), s0; }
    var answer := env.authorize(|s0.log|);
    AuditedNext(db0, s0.log, s0.seen, Authorized(answer));
    s := s0.(log := s0.log + [Authorized(answer)], seen := AfterAuthorized(s0.seen, answer));
    match answer
    case Raised(_) => r := Err(Database);
    case Said(granted) => r := if granted then Ok(()) else Err(Refused);
  }

  method VmExists(ghost db0: Db, cfg: Config, env: Env, s0: Session) returns (r: Result<bool, Fault>, s: Session)
    requires Asks(db0, s0, cfg)
    ensures AtWork(db0, s, cfg) && Grows(cfg, env, s0.log, s.log) && s.cur == s0.cur && s.stored == s0.stored
    ensures r.Ok? ==> s.seen == AfterInventory(s0.seen, Said(r.value))
    ensures r.Ok? && (r.value || s0.cur.row.job.op == VmCreate) ==> Asks(db0, s, cfg)
    ensures r.Err? ==> s.seen.last.Inventory? || r.error == Crash
    ensures r.Err? ==> Explains(s.seen, r.error) && (r.error == Crash ==> env.crashAt <= |s.log|)
    ensures |s.log| <= |s0.log| + 1
  {
    if env.crashAt <= |s0.log| { return Err(Crash), s0; }
    var answer := env.inventory(|s0.log|);
    AuditedNext(db0, s0.log, s0.seen, Inventory(answer));
    s := s0.(log := s0.log + [Inventory(answer)], seen := AfterInventory(s0.seen, answer));
    match answer
    case Raised(error) => r := Err(Remote(error));
    case Said(present) => r := Ok(present);
  }

  method GetVmStatus(ghost db0: Db, cfg: Config, env: Env, s0: Session)
    returns (r: Result<Option<VmStatus>, Fault>, s: Session)
    requires Asks(db0, s0, cfg)
    ensures AtWork(db0, s, cfg) && Grows(cfg, env, s0.log, s.log) && s.cur == s0.cur && s.stored == s0.stored
    ensures r.Ok? ==> s.seen == AfterObserved(s0.seen, Said(r.value))
    ensures !s.seen.absent || s0.cur.row.job.op != VmDelete ==> Asks(db0, s, cfg)
    ensures r.Err? && r.error.Remote? ==> s.seen == AfterObserved(s0.seen, Raised(r.error.error))
    ensures r.Err? && (r.error.Remote? ==> !s.seen.absent) ==> Explains(s.seen, r.error)
    ensures r == Err(Crash) ==> env.crashAt <= |s.log|
    ensures r.Err? ==> r.error == Crash || r.error.Remote?
    ensures |s.log| <= |s0.log| + 1
  {
    if env.crashAt <= |s0.log| { return Err(Crash), s0; }
    var answer := env.status(|s0.log|);
    AuditedNext(db0, s0.log, s0.seen, Observed(answer));
    s := s0.(log := s0.log + [Observed(answer)], seen := AfterObserved(s0.seen, answer));
    match answer
    case Raised(error) => r := Err(Remote(error));
    case Said(status) => r := Ok(status);
  }

  // A call that changes the guest. It may be accepted even when no answer comes back.
  method Submit(ghost db0: Db, cfg: Config, env: Env, s0: Session, action: Action)
    returns (r: Result<Option<nat>, Fault>, s: Session)
    requires Asks(db0, s0, cfg) && AllowedCall(s0.seen, action)
    ensures Asks(db0, s, cfg) && Grows(cfg, env, s0.log, s.log) && s.cur == s0.cur && s.stored == s0.stored
    ensures r.Ok? ==> s.seen.last.Submitted? && s.seen.last.action == action && s.seen.last.taskId == Said(r.value)
    ensures r.Ok? ==> s.seen.answer == Some(Said(r.value)) && s.seen.looks == 0
    ensures r.Err? ==> Explains(s.seen, r.error) && (r.error == Crash ==> env.crashAt <= |s.log|)
    ensures |s.log| <= |s0.log| + 1
  {
    if env.crashAt <= |s0.log| { return Err(Crash), s0; }
    var answer := env.submit(|s0.log|);
    var e := Submitted(action, answer.accepted, answer.taskId);
    AuditedNext(db0, s0.log, s0.seen, e);
    s := s0.(log := s0.log + [e], seen := AfterSubmitted(s0.seen, action, answer.accepted, answer.taskId));
    match answer.taskId
    case Raised(error) => r := Err(Remote(error));
    case Said(id) => r := Ok(id);
  }

  // `db.commit()`
  method Save(ghost db0: Db, cfg: Config, env: Env, s0: Session) returns (r: Result<(), Fault>, s: Session)
    requires Audited(db0, s0.log, s0.seen) && Publishable(s0.cur, s0.stored, s0.seen, cfg)
    requires s0.stored.row.job == db0.row.job
    requires Dated(s0.cur.row.life, env.clock(|s0.log|), cfg)
    ensures Sound(db0, s, cfg) && Grows(cfg, env, s0.log, s.log) && s.cur == s0.cur
    ensures r.Ok? ==> s.stored == s0.cur && s.seen == AfterSaved(s0.seen, s0.cur)
    ensures r.Err? ==> s.stored == s0.stored
    ensures r.Err? ==>
              || (r.error == Database && s.seen.last == SaveFailed)
              || (r.error == Crash && env.crashAt <= |s.log|)
    ensures |s.log| <= |s0.log| + 1 && (r.Ok? ==> s.log == s0.log + [Saved(s.cur)])
  {
    if env.crashAt <= |s0.log| { return Err(Crash), s0; }
    if env.save(|s0.log|) {
      AuditedNext(db0, s0.log, s0.seen, Saved(s0.cur));
      SaveKeepsLinked(s0.cur, s0.stored, s0.seen, cfg);
      return Ok(()), Session(s0.cur, s0.cur, s0.log + [Saved(s0.cur)], AfterSaved(s0.seen, s0.cur));
    } else {
      AuditedNext(db0, s0.log, s0.seen, SaveFailed);
      return Err(Database), s0.(log := s0.log + [SaveFailed], seen := AfterSaveFailed(s0.seen));
    }
  }

  // The same records under another lease deadline.
  function Relet(db: Db, expires: Option<Time>): Db {
    db.(row := db.row.(life := db.row.life.(leaseExpires := expires)))
  }

  // `renew_lease`: every commit inside an attempt goes through it.
  method RenewLease(ghost db0: Db, cfg: Config, env: Env, s0: Session) returns (r: Result<(), Fault>, s: Session)
    requires Audited(db0, s0.log, s0.seen) && Publishable(s0.cur, s0.stored, s0.seen, cfg)
    requires s0.stored.row.job == db0.row.job
    requires s0.cur.row.life.state == Running && !s0.seen.dead
    ensures Sound(db0, s, cfg) && Grows(cfg, env, s0.log, s.log)
    ensures s.cur == Relet(s0.cur, Some(env.clock(|s0.log|) + cfg.leaseSeconds))
    ensures r.Ok? ==> s.stored == s.cur && s.seen == AfterSaved(s0.seen, s.cur)
    ensures r.Err? ==> s.stored == s0.stored
    ensures r.Err? ==>
              || (r.error == Database && s.seen.last == SaveFailed)
              || (r.error == Crash && env.crashAt <= |s.log|)
    ensures |s.log| <= |s0.log| + 1 && (r.Ok? ==> |s.log| == |s0.log| + 1)
  {
    s := s0.(cur := s0.cur.(row := s0.cur.row.(life := Renewed(s0.cur.row.life, env.clock(|s0.log|), cfg))));
    r, s := Save(db0, cfg, env, s);
  }

  // The call that has just answered is `origin`, named by `phase`, and nothing stands in the way of committing its
  // task.
  predicate MayPersist(cur: Db, seen: Watch, id: Option<nat>, origin: Action, phase: Phase) {
    && Origin(cur.row.job.op, phase) == Some(origin)
    && (IsPower(cur.row.job.op) ==> phase == cur.row.phase)
    && seen.answer == Some(Said(id)) && seen.looks == 0
    && seen.last.Submitted? && seen.last.action == origin && seen.last.taskId == Said(id)
    && (IsPower(cur.row.job.op) ==> cur.row.task.None?)
    && (cur.row.job.op == VmDelete ==> cur.row.phase != DeleteSubmitted)
    && (cur.row.job.op == VmCreate && origin == Start ==> !Shows(cur, VmRunning))
  }

  // `persist_task`: the task id is committed before anything waits for it.
  method PersistTask(ghost db0: Db, cfg: Config, env: Env, s0: Session, id: Option<nat>, origin: Action, phase: Phase)
    returns (r: Result<(), Fault>, s: Session)
    requires Asks(db0, s0, cfg) && MayPersist(s0.cur, s0.seen, id, origin, phase)
    ensures Sound(db0, s, cfg) && s.stored.row.life.state == Running && Grows(cfg, env, s0.log, s.log)
    ensures r.Ok? ==>
              && Asks(db0, s, cfg) && s.stored == s.cur
              && s.cur.row.task == (if id.Some? then Some(Task(id.value, origin)) else None)
              && s.cur.row.phase == phase
              && s.cur.row.job == s0.cur.row.job && s.cur.guest == s0.cur.guest
              && s.seen == AfterSaved(s0.seen, s.cur)
    ensures r.Err? ==>
              || (r.error == Database && s.seen.last == SaveFailed)
              || (r.error == Crash && env.crashAt <= |s.log|)
    ensures |s.log| <= |s0.log| + 1
  {
    var task := if id.Some? then Some(Task(id.value, origin)) else None;
    AnsweredTaskIsPublishable(s0, cfg, id, origin, phase);
    s := s0.(cur := Holding(s0.cur, task, phase));
    r, s := RenewLease(db0, cfg, env, s);
  }

  function Holding(db: Db, task: Option<Task>, phase: Phase): Db {
    db.(row := db.row.(task := task, phase := phase))
  }

  // The task that has just been answered may be committed under any deadline, and the attempt goes on from there.
  lemma AnsweredTaskIsPublishable(s: Session, cfg: Config, id: Option<nat>, origin: Action, phase: Phase)
    requires Working(s.cur, s.stored, s.seen, cfg) && MayPersist(s.cur, s.seen, id, origin, phase)
    ensures var cur := Holding(s.cur, if id.Some? then Some(Task(id.value, origin)) else None, phase);
            && Publishable(cur, s.stored, s.seen, cfg)
            && forall expires: Time ::
                 var db := Relet(cur, Some(expires));
                 Linked(db, AfterSaved(s.seen, db), cfg) ==> Working(db, db, AfterSaved(s.seen, db), cfg)
  {
  }

  // Authorization is checked again right before the call.
  method SubmitAuthorized(ghost db0: Db, cfg: Config, env: Env, s0: Session, action: Action, ghost phase: Phase)
    returns (r: Result<Option<nat>, Fault>, s: Session)
    requires Asks(db0, s0, cfg) && AllowedCall(s0.seen.(last := Authorized(Said(true))), action)
    requires Origin(s0.cur.row.job.op, phase) == Some(action)
    requires IsPower(s0.cur.row.job.op) ==> phase == s0.cur.row.phase
    requires s0.cur.row.job.op == VmCreate && action == Start ==> !Shows(s0.cur, VmRunning)
    ensures r.Ok? || r.error.Remote? ==> Asks(db0, s, cfg)
    ensures AtWork(db0, s, cfg) && Grows(cfg, env, s0.log, s.log) && s.cur == s0.cur && s.stored == s0.stored
    ensures r.Ok? ==> MayPersist(s.cur, s.seen, r.value, action, phase)
    ensures r.Err? ==> Explains(s.seen, r.error) && (r.error == Crash ==> env.crashAt <= |s.log|)
    ensures |s.log| <= |s0.log| + 2
  {
    var granted;
    granted, s :- Authorize(db0, cfg, env, s0);
    r, s := Submit(db0, cfg, env, s, action);
  }

  // The answered task is committed; an answer without one fails only then.
  method KeepTask(ghost db0: Db, cfg: Config, env: Env, s0: Session, id: Option<nat>, action: Action, phase: Phase)
    returns (r: Result<(), Fault>, s: Session)
    requires Asks(db0, s0, cfg) && MayPersist(s0.cur, s0.seen, id, action, phase)
    ensures Sound(db0, s, cfg) && s.stored.row.life.state == Running && Grows(cfg, env, s0.log, s.log)
    ensures r.Ok? ==>
              && Asks(db0, s, cfg)
              && s.cur.row.task.Some? && s.cur.row.task.value.origin == action && s.cur.row.phase == phase
              && s.stored == s.cur && s.seen.answer.Some? && s.seen.looks == 0 && !s.seen.polled
              && s.cur.row.job == s0.cur.row.job && s.cur.guest == s0.cur.guest
    ensures r.Err? ==>
              && Explains(s.seen, r.error) && !r.error.Remote? && (r.error == Crash ==> env.crashAt <= |s.log|)
    ensures |s.log| <= |s0.log| + 1
  {
    var saved;
    saved, s :- PersistTask(db0, cfg, env, s0, id, action, phase);
    r := if id.None? then Err(Runtime(NoTaskId)) else Ok(());
  }

  // Authorization is checked again, the call is made, its task is committed.
  method SubmitTask(ghost db0: Db, cfg: Config, env: Env, s0: Session, action: Action, phase: Phase)
    returns (r: Result<(), Fault>, s: Session)
    requires Asks(db0, s0, cfg)
    requires AllowedCall(s0.seen.(last := Authorized(Said(true))), action)
    requires Origin(s0.cur.row.job.op, phase) == Some(action)
    requires IsPower(s0.cur.row.job.op) ==> phase == s0.cur.row.phase
    requires s0.cur.row.job.op == VmCreate && action == Start ==> !Shows(s0.cur, VmRunning)
    ensures Sound(db0, s, cfg) && s.stored.row.life.state == Running && Grows(cfg, env, s0.log, s.log)
    ensures r.Ok? ==>
              && Asks(db0, s, cfg)
              && s.cur.row.task.Some? && s.cur.row.task.value.origin == action && s.cur.row.phase == phase
              && s.stored == s.cur && s.seen.answer.Some? && s.seen.looks == 0 && !s.seen.polled
              && s.cur.row.job == s0.cur.row.job && s.cur.guest == s0.cur.guest
    ensures r.Err? ==> Explains(s.seen, r.error) && (r.error == Crash ==> env.crashAt <= |s.log|)
    ensures r.Err? && r.error.Remote? ==> Asks(db0, s, cfg) && s.cur == s0.cur && s.stored == s0.stored
    ensures |s.log| <= |s0.log| + 3
  {
    var id;
    id, s :- SubmitAuthorized(db0, cfg, env, s0, action, phase);
    r, s := KeepTask(db0, cfg, env, s, id, action, phase);
  }

  // The session's next look at its records, which a commit has made it forget: what others wrote is there.
  method Reload(ghost db0: Db, cfg: Config, env: Env, s0: Session) returns (r: Result<(), Fault>, s: Session)
    requires AtWork(db0, s0, cfg)
    ensures AtWork(db0, s, cfg) && Grows(cfg, env, s0.log, s.log) && s.cur == s.stored
    ensures r.Ok? ==>
              && |s.log| == |s0.log| + 1 && s.seen == AfterReloaded(s0.seen, env.touch(|s0.log|))
              && s.stored == Written(s0.stored, env.touch(|s0.log|))
    ensures r.Err? ==> r.error == Crash && env.crashAt <= |s.log|
    ensures s.stored.row == s0.stored.row && SameGuest(s0.stored.guest, s.stored.guest)
    ensures |s.log| <= |s0.log| + 1
  {
    if env.crashAt <= |s0.log| { return Err(Crash), s0.(cur := s0.stored); }
    var written := env.touch(|s0.log|);
    AuditedNext(db0, s0.log, s0.seen, Reloaded(written));
    var stored := Written(s0.stored, written);
    s := Session(stored, stored, s0.log + [Reloaded(written)], AfterReloaded(s0.seen, written));
    r := Ok(());
  }

  // Since `w0`, nothing has been called, and no status asked since the last poll or call.
  predicate Unasked(w0: Watch, w: Watch) {
    w.lastStatus == None && w.looks == 0 && w.answer == w0.answer
  }

  // One look at the task: true when it has ended acceptably.
  method PollTask(ghost db0: Db, cfg: Config, env: Env, s0: Session, allowWarnings: bool)
    returns (r: Result<bool, Fault>, s: Session)
    requires Asks(db0, s0, cfg) && s0.cur.row.task.Some? && !s0.seen.polled
    requires allowWarnings <==> Acceptable(s0.cur.row.job.op, s0.cur.row.task.value, ExitWarnings)
    ensures Sound(db0, s, cfg) && s.cur == s0.cur && s.stored == s0.stored && Grows(cfg, env, s0.log, s.log)
    ensures r.Ok? ==>
              && Asks(db0, s, cfg) && Unasked(s0.seen, s.seen) && s.seen.looked == s0.seen.looked
              && |s0.log| < env.crashAt && |s0.log| < |s.log| && (env.poll(|s0.log|) != StillRunning ==> r.value)
    ensures r == Ok(true) ==> s.seen.finished == s0.cur.row.task
    ensures r.Err? ==> Explains(s.seen, r.error) && !r.error.Remote? && (r.error == Crash ==> env.crashAt <= |s.log|)
    ensures |s.log| <= |s0.log| + 1
  {
    if env.crashAt <= |s0.log| { return Err(Crash), s0; }
    var task, poll := s0.cur.row.task.value, env.poll(|s0.log|);
    AuditedNext(db0, s0.log, s0.seen, Polled(task, poll));
    s := s0.(log := s0.log + [Polled(task, poll)], seen := AfterPolled(s0.seen, task, poll));
    match poll {
      case PollFailed =>
        r := Err(Runtime(TaskTimeout));
      case Ended(exit) =>
        r := if exit != ExitOk && !(allowWarnings && exit == ExitWarnings) then Err(Runtime(TaskFailed)) else Ok(true);
      case StillRunning =>
        r := Ok(false);
    }
  }

  method CheckDeadline(ghost db0: Db, cfg: Config, env: Env, s0: Session) returns (r: Result<(), Fault>, s: Session)
    requires AtWork(db0, s0, cfg)
    ensures Sound(db0, s, cfg) && s.cur == s0.cur && s.stored == s0.stored && Grows(cfg, env, s0.log, s.log)
    ensures r.Ok? ==> s == s0 && !env.overdue(|s0.log|)
    ensures r.Err? && r.error != Crash ==> r.error == Runtime(TaskTimeout) && env.overdue(|s0.log|)
    ensures r.Err? ==> Explains(s.seen, r.error) && !r.error.Remote? && (r.error == Crash ==> env.crashAt <= |s.log|)
  {
    if env.crashAt <= |s0.log| { return Err(Crash), s0; }
    if env.overdue(|s0.log|) {
      AuditedNext(db0, s0.log, s0.seen, Overdue);
      return Err(Runtime(TaskTimeout)), s0.(log := s0.log + [Overdue], seen := AfterOverdue(s0.seen));
    }
    return Ok(()), s0;
  }

  // What an unfinished poll leads to: renew the lease, look at the deadline.
  method StayOn(ghost db0: Db, cfg: Config, env: Env, s0: Session) returns (r: Result<(), Fault>, s: Session)
    requires Asks(db0, s0, cfg) && s0.seen.lastStatus == None && s0.seen.looks == 0 && s0.cur == s0.stored
    ensures Sound(db0, s, cfg) && s.stored.row.life.state == Running && Grows(cfg, env, s0.log, s.log)
    ensures r.Ok? ==>
              && Asks(db0, s, cfg) && s.cur == Relet(s0.cur, Some(env.clock(|s0.log|) + cfg.leaseSeconds))
              && s.stored == s.cur && Unasked(s0.seen, s.seen) && !s.seen.polled
    ensures r.Ok? ==> !env.overdue(|s0.log| + 1)
    ensures r.Err? ==> Explains(s.seen, r.error) && !r.error.Remote? && (r.error == Crash ==> env.crashAt <= |s.log|)
  {
    var done;
    done, s :- RenewLease(db0, cfg, env, s0);
    r, s := CheckDeadline(db0, cfg, env, s);
  }

  // One turn of the polling loop, after a poll found the task still running.
  method PollAgain(ghost db0: Db, cfg: Config, env: Env, s0: Session, allowWarnings: bool)
    returns (r: Result<bool, Fault>, s: Session)
    requires Asks(db0, s0, cfg) && s0.cur.row.task.Some? && s0.cur == s0.stored
    requires s0.seen.lastStatus == None && s0.seen.looks == 0
    requires allowWarnings <==> Acceptable(s0.cur.row.job.op, s0.cur.row.task.value, ExitWarnings)
    ensures Sound(db0, s, cfg) && s.stored.row.life.state == Running && Grows(cfg, env, s0.log, s.log)
    ensures r.Ok? ==>
              && Asks(db0, s, cfg) && s.cur == Relet(s0.cur, Some(env.clock(|s0.log|) + cfg.leaseSeconds))
              && s.stored == s.cur && Unasked(s0.seen, s.seen) && |s0.log| < env.crashAt && |s0.log| < |s.log|
    ensures r == Ok(true) ==> s.seen.finished == s.cur.row.task
    ensures r.Ok? ==> !env.overdue(|s0.log| + 1)
    ensures r.Err? ==> Explains(s.seen, r.error) && !r.error.Remote? && (r.error == Crash ==> env.crashAt <= |s.log|)
  {
    var stay;
    stay, s :- StayOn(db0, cfg, env, s0);
    r, s := PollTask(db0, cfg, env, s, allowWarnings);
  }

  method FirstPoll(ghost db0: Db, cfg: Config, env: Env, s0: Session, allowWarnings: bool)
    returns (r: Result<bool, Fault>, s: Session)
    requires Asks(db0, s0, cfg) && s0.cur.row.task.Some? && !s0.seen.polled
    requires allowWarnings <==> Acceptable(s0.cur.row.job.op, s0.cur.row.task.value, ExitWarnings)
    ensures Sound(db0, s, cfg) && s.stored.row.life.state == Running && Grows(cfg, env, s0.log, s.log)
    ensures r.Ok? ==>
              && Asks(db0, s, cfg) && Awaited(s0, s) && Unasked(s0.seen, s.seen) && s.seen.looked
              && (r.value ==> s.seen.finished == s.cur.row.task) && (Brisk(env) ==> r.value)
    ensures r.Err? ==> Explains(s.seen, r.error) && !r.error.Remote? && (r.error == Crash ==> env.crashAt <= |s.log|)
    ensures Brisk(env) ==> |s.log| <= |s0.log| + 2
  {
    var looked;
    looked, s :- Reload(db0, cfg, env, s0);
    r, s := PollTask(db0, cfg, env, s, allowWarnings);
  }

  // `wait_for_task`, from its arguments to the question after it: each is a look at the guest.
  method WaitForTask(ghost db0: Db, cfg: Config, env: Env, s0: Session) returns (r: Result<(), Fault>, s: Session)
    requires Asks(db0, s0, cfg) && s0.cur.row.task.Some? && !s0.seen.polled
    ensures Sound(db0, s, cfg) && s.stored.row.life.state == Running && Grows(cfg, env, s0.log, s.log)
    ensures r.Ok? ==>
              && Asks(db0, s, cfg) && Awaited(s0, s)
              && s.seen.finished == s.cur.row.task && Unasked(s0.seen, s.seen) && s.seen.looked
    ensures r.Err? ==> Explains(s.seen, r.error) && !r.error.Remote? && (r.error == Crash ==> env.crashAt <= |s.log|)
    ensures Brisk(env) ==> |s.log| <= |s0.log| + 2
  {
    var op := s0.cur.row.job.op;
    var allowWarnings := IsPower(op) || (op == VmCreate && s0.cur.row.phase == StartSubmitted);
    var ended;
    ended, s :- FirstPoll(db0, cfg, env, s0, allowWarnings);
    r := Ok(());
    if !ended {
      r, s := PollOn(db0, cfg, env, s, allowWarnings);
    }
  }

  // After a wait the session holds what is stored: the same row but for its deadline, the same guest but for its
  // status.
  predicate Awaited(s0: Session, s: Session) {
    && s.cur == s.stored
    && s.cur.row == s0.cur.row.(life := s0.cur.row.life.(leaseExpires := s.cur.row.life.leaseExpires))
    && SameGuest(s0.cur.guest, s.cur.guest)
  }

  // The rest of the polling loop, after a first poll found the task still running.
  method PollOn(ghost db0: Db, cfg: Config, env: Env, s0: Session, allowWarnings: bool)
    returns (r: Result<(), Fault>, s: Session)
    requires Asks(db0, s0, cfg) && s0.cur.row.task.Some? && s0.cur == s0.stored
    requires s0.seen.lastStatus == None && s0.seen.looks == 0
    requires allowWarnings <==> Acceptable(s0.cur.row.job.op, s0.cur.row.task.value, ExitWarnings)
    ensures Sound(db0, s, cfg) && s.stored.row.life.state == Running && Grows(cfg, env, s0.log, s.log)
    ensures r.Ok? ==>
              && Asks(db0, s, cfg) && Awaited(s0, s)
              && s.seen.finished == s.cur.row.task && Unasked(s0.seen, s.seen) && s.seen.looked
    ensures r.Err? ==> Explains(s.seen, r.error) && !r.error.Remote? && (r.error == Crash ==> env.crashAt <= |s.log|)
  {
    s := s0;
    var ended := false;
    while !ended
      invariant Asks(db0, s, cfg) && Grows(cfg, env, s0.log, s.log)
      invariant s.cur == Relet(s0.cur, s.cur.row.life.leaseExpires) && s.stored == s.cur
      invariant Unasked(s0.seen, s.seen) && (ended ==> s.seen.finished == s.cur.row.task)
      decreases !ended, if |s.log| < env.crashAt then env.crashAt - |s.log| else 0
    {
      ended, s :- PollAgain(db0, cfg, env, s, allowWarnings);
    }
    r, s := Reload(db0, cfg, env, s);
  }

  // The final commit: the records of a finished operation and its guest together.
  method Succeed(ghost db0: Db, cfg: Config, env: Env, s0: Session, guest: Guest)
    returns (r: Result<(), Fault>, s: Session)
    requires AtWork(db0, s0, cfg) && Earned(s0.seen, s0.cur.(guest := guest))
    requires s0.cur.row.job.hasTarget ==> s0.seen.granted
    requires guest.vm.Some? == s0.cur.guest.vm.Some? && guest.templateExists == s0.cur.guest.templateExists
    requires guest.assignment
        == Reassigned(s0.stored.guest.assignment,
                      Db(s0.cur.row.(life := Completed(s0.cur.row.life, 0)), guest))
    requires Tombstoned(s0.cur.(guest := guest)) && !Tombstoned(s0.stored) ==>
              s0.cur.row.job.op == VmDelete && s0.seen.absent
    ensures Sound(db0, s, cfg) && Grows(cfg, env, s0.log, s.log)
    ensures r.Ok? ==>
              && s.stored.guest == guest && s.stored.row.life.state == Succeeded
              && s.stored.row == s0.cur.row.(life := s.stored.row.life)
    ensures r.Err? ==> s.stored == s0.stored && Explains(s.seen, r.error)
    ensures r.Err? ==> !r.error.Remote? && (r.error == Crash ==> env.crashAt <= |s.log|)
    ensures r.Ok? ==> s.log == s0.log + [Saved(s.stored)]
    ensures |s.log| <= |s0.log| + 1
  {
    var row := s0.cur.row.(life := Completed(s0.cur.row.life, env.clock(|s0.log|)));
    r, s := Save(db0, cfg, env, s0.(cur := Db(row, guest)));
  }

  // vm.create without a task: clone, unless the VMID is already taken.
  method SubmitClone(ghost db0: Db, cfg: Config, env: Env, s0: Session) returns (r: Result<(), Fault>, s: Session)
    requires Asks(db0, s0, cfg) && s0.cur.row.job.op == VmCreate && s0.cur.row.task.None?
    ensures Sound(db0, s, cfg) && s.stored.row.life.state == Running && Grows(cfg, env, s0.log, s.log)
    ensures r.Ok? ==>
              && Asks(db0, s, cfg) && s.cur.row.job == s0.cur.row.job && s.cur.guest == s0.cur.guest
              && s.cur.row.task.Some? && s.cur.row.phase == CloneSubmitted && !s.seen.polled
    ensures r.Err? ==> Explains(s.seen, r.error) && (r.error == Crash ==> env.crashAt <= |s.log|)
    ensures |s.log| <= |s0.log| + 4
  {
    var taken;
    taken, s :- VmExists(db0, cfg, env, s0);
    if taken { return Err(Runtime(AlreadyExists)), s; }
    r, s := SubmitTask(db0, cfg, env, s, Clone, CloneSubmitted);
  }

  // A committed task is awaited, then the guest's status asked.
  method Settle(ghost db0: Db, cfg: Config, env: Env, s0: Session)
    returns (r: Result<Option<VmStatus>, Fault>, s: Session)
    requires Asks(db0, s0, cfg) && s0.cur.row.task.Some? && !s0.seen.polled
    requires s0.cur.row.job.op == VmDelete ==> s0.cur.row.phase != DeleteSubmitted
    ensures Sound(db0, s, cfg) && s.stored.row.life.state == Running && Grows(cfg, env, s0.log, s.log)
    ensures r.Ok? ==>
              && Asks(db0, s, cfg) && Awaited(s0, s)
              && s.seen.finished == s.cur.row.task && s.seen.last == Observed(Said(r.value))
              && s.seen.lastStatus == Some(r.value) && s.seen.looked && s.seen.answer == s0.seen.answer
    ensures r.Err? ==> Explains(s.seen, r.error) && (r.error == Crash ==> env.crashAt <= |s.log|)
    ensures r.Err? && r.error.Remote? ==> Asks(db0, s, cfg) && Awaited(s0, s)
    ensures Brisk(env) ==> |s.log| <= |s0.log| + 3
  {
    var done;
    done, s :- WaitForTask(db0, cfg, env, s0);
    r, s := GetVmStatus(db0, cfg, env, s);
  }

  // vm.create, up to the first status answer: clone, or pick up where the last commit left off.
  method EnsureCloned(ghost db0: Db, cfg: Config, env: Env, s0: Session)
    returns (r: Result<Option<VmStatus>, Fault>, s: Session)
    requires Asks(db0, s0, cfg) && s0.cur.row.job.op == VmCreate && Begins(s0.seen)
    ensures Sound(db0, s, cfg) && s.stored.row.life.state == Running && Grows(cfg, env, s0.log, s.log)
    ensures r.Ok? ==>
              && Asks(db0, s, cfg) && s.cur.row.job == s0.cur.row.job && SameGuest(s0.cur.guest, s.cur.guest)
              && s.seen.finished.Some? && s.seen.lastStatus == Some(r.value)
              && (s.cur.row.phase == StartSubmitted ==> r.value == Some(VmRunning))
    ensures r.Err? ==> Explains(s.seen, r.error) && (r.error == Crash ==> env.crashAt <= |s.log|)
    ensures Brisk(env) ==> |s.log| <= |s0.log| + 7
  {
    s := s0;
    var done;
    if s.cur.row.task.None? {
      done, s :- SubmitClone(db0, cfg, env, s);
    }
    r, s := Settle(db0, cfg, env, s);
    if r.Ok? && s.cur.row.phase == StartSubmitted && r.value != Some(VmRunning) {
      r := Err(Runtime(WrongStatus));
    }
  }

  // vm.create with auto_start: a guest not yet running is started and must be seen running.
  method EnsureStarted(ghost db0: Db, cfg: Config, env: Env, s0: Session) returns (r: Result<(), Fault>, s: Session)
    requires Asks(db0, s0, cfg) && s0.cur.row.job.op == VmCreate && s0.cur.row.job.autoStart
    requires s0.seen.lastStatus.Some? && s0.seen.lastStatus != Some(Some(VmRunning))
    requires s0.cur.row.phase != StartSubmitted
    requires s0.cur.guest.vm.Some? && s0.cur.guest.vm.value.status != VmRunning
    ensures Sound(db0, s, cfg) && s.stored.row.life.state == Running && Grows(cfg, env, s0.log, s.log)
    ensures r.Ok? ==>
              && Asks(db0, s, cfg) && s.cur.row.job == s0.cur.row.job && SameGuest(s0.cur.guest, s.cur.guest)
              && s.cur.row.phase == StartSubmitted && s.cur == s.stored && s.seen.finished.Some?
              && (|| s.seen.lastStatus == Some(Some(VmRunning))
                  || (s.seen.lastStatus == Some(None) && Shows(s.cur, VmRunning)))
    ensures r.Err? ==> Explains(s.seen, r.error) && (r.error == Crash ==> env.crashAt <= |s.log|)
    ensures Brisk(env) ==> |s.log| <= |s0.log| + 6
  {
    var done, status;
    done, s :- SubmitTask(db0, cfg, env, s0, Start, StartSubmitted);
    status, s :- Settle(db0, cfg, env, s);
    var answered := if status.Some? then status.value else s.cur.guest.vm.value.status;
    r := if answered == VmRunning then Ok(()) else Err(Runtime(WrongStatus));
  }

  // vm.create, once the guest is there and was seen in `status`: started if it is to be, and is not.
  method StartIfAsked(ghost db0: Db, cfg: Config, env: Env, s0: Session, status: VmStatus)
    returns (r: Result<(), Fault>, s: Session)
    requires Asks(db0, s0, cfg) && s0.cur.row.job.op == VmCreate && s0.cur.guest.vm.Some? && s0.seen.finished.Some?
    requires s0.seen.lastStatus == Some(Some(status)) || (s0.seen.lastStatus == Some(None) && status == VmStopped)
    requires s0.cur.row.phase == StartSubmitted ==> status == VmRunning
    ensures Sound(db0, s, cfg) && s.stored.row.life.state == Running && Grows(cfg, env, s0.log, s.log)
    ensures r.Ok? ==>
              && Asks(db0, s, cfg) && s.cur.row.job == s0.cur.row.job && SameGuest(s0.cur.guest, s.cur.guest)
              && Earned(s.seen, s.cur)
    ensures r.Err? ==> Explains(s.seen, r.error) && (r.error == Crash ==> env.crashAt <= |s.log|)
    ensures Brisk(env) ==> |s.log| <= |s0.log| + 6
  {
    s := s0.(cur := WithStatus(s0.cur, status));
    r := Ok(());
    if s.cur.row.job.autoStart && status != VmRunning {
      r, s := EnsureStarted(db0, cfg, env, s);
      if r.Ok? { s := s.(cur := WithStatus(s.cur, VmRunning)); }
    }
  }

  method CreateVm(ghost db0: Db, cfg: Config, env: Env, s0: Session) returns (r: Result<(), Fault>, s: Session)
    requires AtWork(db0, s0, cfg) && s0.cur.row.job.op == VmCreate && Entered(s0.seen)
    ensures Sound(db0, s, cfg) && Grows(cfg, env, s0.log, s.log)
    ensures r.Ok? ==>
              s.stored.row.life.state == Succeeded
    ensures |s0.log| <= |s.log| && (r.Ok? ==> |s.log| > 0 && s.log[|s.log| - 1] == Saved(s.stored))
    ensures r.Err? ==> s.stored.row.life.state == Running
    ensures r.Err? ==> Explains(s.seen, r.error) && (r.error == Crash ==> env.crashAt <= |s.log|)
    ensures Brisk(env) ==> |s.log| <= |s0.log| + 14
  {
    if s0.cur.guest.vm.None? { return Err(Runtime(VmMissing)), s0; }
    if !s0.cur.guest.templateExists { return Err(Runtime(TemplateMissing)), s0; }
    var live, done;
    live, s :- EnsureCloned(db0, cfg, env, s0);
    done, s :- StartIfAsked(db0, cfg, env, s, if live.Some? then live.value else VmStopped);
    r, s := Succeed(db0, cfg, env, s, s.cur.guest.(assignment := Readied(s.cur.guest.assignment)));
  }

  function WithStatus(db: Db, status: VmStatus): Db
    requires db.guest.vm.Some?
  {
    db.(guest := db.guest.(vm := Some(db.guest.vm.value.(status := status))))
  }

  function Readied(a: Option<Assignment>): Option<Assignment> {
    if a.Some? then Some(a.value.(status := Ready)) else None
  }

  // The power action is submitted unless its task is already committed, then awaited.
  method SettlePower(ghost db0: Db, cfg: Config, env: Env, s0: Session)
    returns (r: Result<Option<VmStatus>, Fault>, s: Session)
    requires Asks(db0, s0, cfg) && IsPower(s0.cur.row.job.op) && s0.stored == s0.cur && Begins(s0.seen)
    ensures Sound(db0, s, cfg) && s.stored.row.life.state == Running && Grows(cfg, env, s0.log, s.log)
    ensures r.Ok? ==>
              && Asks(db0, s, cfg) && s.cur.row.job == s0.cur.row.job && SameGuest(s0.cur.guest, s.cur.guest)
              && s.stored == s.cur && s.cur.row.task.Some? && s.seen.finished == s.cur.row.task
              && s.seen.last == Observed(Said(r.value)) && s.seen.lastStatus == Some(r.value) && s.seen.looked
    ensures r.Err? ==> Explains(s.seen, r.error) && (r.error == Crash ==> env.crashAt <= |s.log|)
    ensures Brisk(env) ==> |s.log| <= |s0.log| + 6
  {
    s := s0;
    var done;
    if s.cur.row.task.None? {
      done, s :- SubmitTask(db0, cfg, env, s, PowerAction(s.cur.row.job.op), s.cur.row.phase);
    }
    r, s := Settle(db0, cfg, env, s);
  }

  // vm.start, vm.stop and vm.reboot
  method PowerVm(ghost db0: Db, cfg: Config, env: Env, s0: Session) returns (r: Result<(), Fault>, s: Session)
    requires AtWork(db0, s0, cfg) && IsPower(s0.cur.row.job.op) && s0.stored == s0.cur && Entered(s0.seen)
    ensures Sound(db0, s, cfg) && Grows(cfg, env, s0.log, s.log)
    ensures r.Ok? ==> s.stored.row.life.state == Succeeded
    ensures |s0.log| <= |s.log| && (r.Ok? ==> |s.log| > 0 && s.log[|s.log| - 1] == Saved(s.stored))
    ensures r.Err? ==> s.stored.row.life.state == Running
    ensures r.Err? ==> Explains(s.seen, r.error) && (r.error == Crash ==> env.crashAt <= |s.log|)
    ensures Brisk(env) ==> |s.log| <= |s0.log| + 7
  {
    if s0.cur.guest.vm.None? { return Err(Runtime(VmMissing)), s0; }
    var status;
    status, s :- SettlePower(db0, cfg, env, s0);
    var answered := if status.Some? then status.value else s.cur.guest.vm.value.status;
    if answered != PowerGoal(s.cur.row.job.op) { return Err(Runtime(WrongStatus)), s; }
    r, s := Succeed(db0, cfg, env, s, WithStatus(s.cur, answered).guest);
  }

  // A stop inside a deletion: its task is awaited, the guest must be seen stopped, and that is committed.
  method FinishStop(ghost db0: Db, cfg: Config, env: Env, s0: Session) returns (r: Result<(), Fault>, s: Session)
    requires Asks(db0, s0, cfg) && s0.cur.row.job.op == VmDelete
    requires s0.cur.row.phase == StopSubmitted && s0.cur.row.task.Some? && !s0.seen.polled
    ensures Sound(db0, s, cfg) && s.stored.row.life.state == Running && Grows(cfg, env, s0.log, s.log)
    ensures r.Ok? ==>
              && Asks(db0, s, cfg) && s.cur.row.job == s0.cur.row.job && SameGuest(s0.cur.guest, s.cur.guest)
              && s.cur.row.phase == StopObserved && s.cur.row.task.None?
              && s.seen.lastStatus == Some(Some(VmStopped)) && s.seen.answer == s0.seen.answer
    ensures r.Err? ==> Explains(s.seen, r.error) && (r.error == Crash ==> env.crashAt <= |s.log|)
    ensures r.Err? && r.error.Remote? ==>
              Asks(db0, s, cfg) && s.cur.row.job == s0.cur.row.job && SameGuest(s0.cur.guest, s.cur.guest)
    ensures Brisk(env) ==> |s.log| <= |s0.log| + 4
  {
    var status;
    status, s :- Settle(db0, cfg, env, s0);
    if status != Some(VmStopped) { return Err(Runtime(WrongStatus)), s; }
    s := s.(cur := s.cur.(row := s.cur.row.(task := None, phase := StopObserved)));
    r, s := RenewLease(db0, cfg, env, s);
  }

  // An earlier attempt submitted the deletion, and this one has asked for the status `looks` times since.
  predicate Unconfirmed(w: Watch, looks: nat) {
    w.answer.None? && w.looks == looks
  }

  // A later attempt first awaits the stop or the deletion that an earlier one committed.
  method ResumeDelete(ghost db0: Db, cfg: Config, env: Env, s0: Session) returns (r: Result<(), Fault>, s: Session)
    requires Asks(db0, s0, cfg) && s0.cur.row.job.op == VmDelete && Begins(s0.seen)
    ensures Sound(db0, s, cfg) && s.stored.row.life.state == Running && Grows(cfg, env, s0.log, s.log)
    ensures r.Ok? || (r.Err? && r.error.Remote?) ==>
              Asks(db0, s, cfg) && s.cur.row.job == s0.cur.row.job && SameGuest(s0.cur.guest, s.cur.guest)
    ensures r.Ok? ==> !StopPending(s.seen) && (s.cur.row.phase == DeleteSubmitted ==> Unconfirmed(s.seen, 0))
    ensures r.Err? ==> Explains(s.seen, r.error) && (r.error == Crash ==> env.crashAt <= |s.log|)
    ensures Brisk(env) ==> |s.log| <= |s0.log| + 4
  {
    if s0.cur.row.task.None? { return Ok(()), s0; }
    if s0.cur.row.phase == StopSubmitted {
      r, s := FinishStop(db0, cfg, env, s0);
    } else {
      r, s := WaitForTask(db0, cfg, env, s0);
    }
  }

  method StopGuest(ghost db0: Db, cfg: Config, env: Env, s0: Session) returns (r: Result<(), Fault>, s: Session)
    requires Asks(db0, s0, cfg) && s0.cur.row.job.op == VmDelete && !StopPending(s0.seen)
    requires s0.seen.lastStatus == Some(Some(VmRunning)) && s0.cur.row.phase != DeleteSubmitted
    ensures Sound(db0, s, cfg) && s.stored.row.life.state == Running && Grows(cfg, env, s0.log, s.log)
    ensures r.Ok? || (r.Err? && r.error.Remote?) ==>
              Asks(db0, s, cfg) && s.cur.row.job == s0.cur.row.job && SameGuest(s0.cur.guest, s.cur.guest)
    ensures r.Ok? ==>
              s.seen.lastStatus == Some(Some(VmStopped)) && s.cur.row.phase == StopObserved && s.cur.row.task.None?
    ensures r.Err? ==> Explains(s.seen, r.error) && (r.error == Crash ==> env.crashAt <= |s.log|)
    ensures Brisk(env) ==> |s.log| <= |s0.log| + 7
  {
    var done;
    done, s :- SubmitTask(db0, cfg, env, s0, Stop, StopSubmitted);
    r, s := FinishStop(db0, cfg, env, s);
  }

  // A running guest is stopped, and must be seen stopped, before it may be deleted.
  method StopIfRunning(ghost db0: Db, cfg: Config, env: Env, s0: Session) returns (r: Result<(), Fault>, s: Session)
    requires Asks(db0, s0, cfg) && s0.cur.row.job.op == VmDelete && !StopPending(s0.seen)
    requires s0.cur.row.phase == DeleteSubmitted ==> Unconfirmed(s0.seen, 0)
    ensures Sound(db0, s, cfg) && s.stored.row.life.state == Running && Grows(cfg, env, s0.log, s.log)
    ensures r.Ok? || (r.Err? && r.error.Remote?) ==>
              Asks(db0, s, cfg) && s.cur.row.job == s0.cur.row.job && SameGuest(s0.cur.guest, s.cur.guest)
    ensures r.Ok? && s.cur.row.phase != DeleteSubmitted ==>
              s.seen.lastStatus.Some? && s.seen.lastStatus != Some(Some(VmRunning)) && !StopPending(s.seen)
    ensures r.Ok? && s.cur.row.phase == DeleteSubmitted ==> Unconfirmed(s.seen, 1)
    ensures r.Err? ==> Explains(s.seen, r.error) && (r.error == Crash ==> env.crashAt <= |s.log|)
    ensures Brisk(env) ==> |s.log| <= |s0.log| + 8
  {
    var live;
    live, s :- GetVmStatus(db0, cfg, env, s0);
    r := Ok(());
    if live == Some(VmRunning) && s.cur.row.phase != DeleteSubmitted {
      r, s := StopGuest(db0, cfg, env, s);
    }
  }

  method SubmitDelete(ghost db0: Db, cfg: Config, env: Env, s0: Session) returns (r: Result<(), Fault>, s: Session)
    requires Asks(db0, s0, cfg) && s0.cur.row.job.op == VmDelete
    requires s0.cur.row.phase != DeleteSubmitted && !StopPending(s0.seen)
    requires s0.seen.lastStatus.Some? && s0.seen.lastStatus != Some(Some(VmRunning))
    ensures Sound(db0, s, cfg) && s.stored.row.life.state == Running && Grows(cfg, env, s0.log, s.log)
    ensures r.Ok? || (r.Err? && r.error.Remote?) ==>
              Asks(db0, s, cfg) && s.cur.row.job == s0.cur.row.job && SameGuest(s0.cur.guest, s.cur.guest)
    ensures r.Ok? ==> s.cur.row.phase == DeleteSubmitted && s.seen.answer.Some? && s.seen.looks == 0
    ensures r.Err? ==> Explains(s.seen, r.error) && (r.error == Crash ==> env.crashAt <= |s.log|)
    ensures Brisk(env) ==> |s.log| <= |s0.log| + 5
  {
    var done;
    done, s :- SubmitTask(db0, cfg, env, s0, Delete, DeleteSubmitted);
    r, s := WaitForTask(db0, cfg, env, s);
  }

  // With no stop pending, the guest is stopped if need be, and deleted unless it already is being.
  method EnsureDeleted(ghost db0: Db, cfg: Config, env: Env, s0: Session) returns (r: Result<(), Fault>, s: Session)
    requires Asks(db0, s0, cfg) && s0.cur.row.job.op == VmDelete && !StopPending(s0.seen)
    requires s0.cur.row.phase == DeleteSubmitted ==> Unconfirmed(s0.seen, 0)
    ensures Sound(db0, s, cfg) && s.stored.row.life.state == Running && Grows(cfg, env, s0.log, s.log)
    ensures r.Ok? || (r.Err? && r.error.Remote?) ==>
              Asks(db0, s, cfg) && s.cur.row.job == s0.cur.row.job && SameGuest(s0.cur.guest, s.cur.guest)
    ensures r.Ok? ==> s.cur.row.phase == DeleteSubmitted && s.seen.looks == if s.seen.answer.None? then 1 else 0
    ensures r.Err? ==> Explains(s.seen, r.error) && (r.error == Crash ==> env.crashAt <= |s.log|)
    ensures Brisk(env) ==> |s.log| <= |s0.log| + 13
  {
    r, s := StopIfRunning(db0, cfg, env, s0);
    if r.Ok? && s.cur.row.phase != DeleteSubmitted {
      r, s := SubmitDelete(db0, cfg, env, s);
    }
  }

  // And then it is looked for.
  method DeleteOnceStopped(ghost db0: Db, cfg: Config, env: Env, s0: Session) returns (r: Result<(), Fault>, s: Session)
    requires Asks(db0, s0, cfg) && s0.cur.row.job.op == VmDelete && !StopPending(s0.seen)
    requires s0.cur.row.phase == DeleteSubmitted ==> Unconfirmed(s0.seen, 0)
    ensures Sound(db0, s, cfg) && s.stored.row.life.state == Running && Grows(cfg, env, s0.log, s.log)
    ensures r.Ok? ==> AtWork(db0, s, cfg) && s.seen.granted
    ensures r.Err? && r.error.Remote? ==> Asks(db0, s, cfg)
    ensures r.Ok? || (r.Err? && r.error.Remote?) ==>
              s.cur.row.job == s0.cur.row.job && SameGuest(s0.cur.guest, s.cur.guest)
    ensures r.Ok? ==> s.seen.last == Observed(Raised(Http(404))) && s.seen.absent
    ensures r.Err? ==> Explains(s.seen, r.error) && (r.error == Crash ==> env.crashAt <= |s.log|)
    ensures Brisk(env) ==> |s.log| <= |s0.log| + 14
  {
    var done;
    done, s :- EnsureDeleted(db0, cfg, env, s0);
    r, s := ConfirmGone(db0, cfg, env, s);
  }

  // The body of vm.delete's `try`: it ends normally only on a 404.
  method DeleteUntilGone(ghost db0: Db, cfg: Config, env: Env, s0: Session) returns (r: Result<(), Fault>, s: Session)
    requires Asks(db0, s0, cfg) && s0.cur.row.job.op == VmDelete && Begins(s0.seen)
    ensures Sound(db0, s, cfg) && s.stored.row.life.state == Running && Grows(cfg, env, s0.log, s.log)
    ensures r.Ok? ==> AtWork(db0, s, cfg) && s.seen.granted
    ensures r.Err? && r.error.Remote? ==> Asks(db0, s, cfg)
    ensures r.Ok? || (r.Err? && r.error.Remote?) ==>
              s.cur.row.job == s0.cur.row.job && SameGuest(s0.cur.guest, s.cur.guest)
    ensures r.Ok? ==> s.seen.last == Observed(Raised(Http(404))) && s.seen.absent
    ensures r.Err? ==> Explains(s.seen, r.error) && (r.error == Crash ==> env.crashAt <= |s.log|)
    ensures Brisk(env) ==> |s.log| <= |s0.log| + 18
  {
    var done;
    done, s :- ResumeDelete(db0, cfg, env, s0);
    r, s := DeleteOnceStopped(db0, cfg, env, s);
  }

  lemma NextLookConfirms(w: Watch, status: Answer<Option<VmStatus>>)
    requires w.db.row.job.op == VmDelete && w.db.row.phase == DeleteSubmitted
    requires w.looks == if w.answer.None? then 1 else 0
    ensures Confirms(AfterObserved(w, status))
    ensures status == Raised(Http(404)) ==> AfterObserved(w, status).absent
  {
  }

  // Only a 404 confirms that the guest is gone.
  method ConfirmGone(ghost db0: Db, cfg: Config, env: Env, s0: Session) returns (r: Result<(), Fault>, s: Session)
    requires Asks(db0, s0, cfg) && s0.cur.row.job.op == VmDelete
    requires s0.cur.row.phase == DeleteSubmitted && s0.seen.looks == if s0.seen.answer.None? then 1 else 0
    ensures AtWork(db0, s, cfg) && Grows(cfg, env, s0.log, s.log) && s.cur == s0.cur && s.stored == s0.stored
    ensures r.Ok? ==> s.seen.granted && s.seen == AfterObserved(s0.seen, Raised(Http(404))) && s.seen.absent
    ensures r.Err? && r.error.Remote? ==> Asks(db0, s, cfg)
    ensures r.Err? ==> Explains(s.seen, r.error) && (r.error == Crash ==> env.crashAt <= |s.log|)
    ensures |s.log| <= |s0.log| + 1
  {
    var status;
    status, s := GetVmStatus(db0, cfg, env, s0);
    if status.Ok? {
      NextLookConfirms(s0.seen, Said(status.value));
      return Err(Runtime(StillPresent)), s;
    }
    r := Err(status.error);
    if status.error == Remote(Http(404)) {
      NextLookConfirms(s0.seen, Raised(Http(404)));
      r := Ok(());
    }
  }

  // After a 404 or a 500 only an inventory without the VMID counts as deleted.
  method LookAgain(ghost db0: Db, cfg: Config, env: Env, s0: Session, error: RemoteError)
    returns (r: Result<(), Fault>, s: Session)
    requires Asks(db0, s0, cfg) && s0.cur.row.job.op == VmDelete && Explains(s0.seen, Remote(error))
    ensures AtWork(db0, s, cfg) && Grows(cfg, env, s0.log, s.log) && s.cur == s0.cur && s.stored == s0.stored
    ensures r.Ok? ==> s.seen.granted && s.seen.absent
    ensures r.Err? ==> Ends(s.seen, r.error) && (r.error == Crash ==> env.crashAt <= |s.log|)
    ensures |s.log| <= |s0.log| + 1
  {
    s := s0;
    r := Err(Remote(error));
    if error == Http(404) || error == Http(500) {
      var present;
      present, s :- VmExists(db0, cfg, env, s);
      if !present { r := Ok(()); }
    }
  }

  // The deletion as the hypervisor has it: absent already, deleted, or gone when it was looked for.
  method DeleteRemote(ghost db0: Db, cfg: Config, env: Env, s0: Session) returns (r: Result<(), Fault>, s: Session)
    requires Asks(db0, s0, cfg) && s0.cur.row.job.op == VmDelete && Begins(s0.seen)
    ensures Sound(db0, s, cfg) && s.stored.row.life.state == Running && Grows(cfg, env, s0.log, s.log)
    ensures r.Ok? ==>
              && AtWork(db0, s, cfg) && s.cur.row.job == s0.cur.row.job && SameGuest(s0.cur.guest, s.cur.guest)
              && s.seen.absent && s.seen.granted
    ensures r.Err? ==> Ends(s.seen, r.error) && (r.error == Crash ==> env.crashAt <= |s.log|)
    ensures Brisk(env) ==> |s.log| <= |s0.log| + 20
  {
    var present;
    present, s :- VmExists(db0, cfg, env, s0);
    r := Ok(());
    if present {
      r, s := DeleteUntilGone(db0, cfg, env, s);
      if r.Err? && r.error.Remote? {
        r, s := LookAgain(db0, cfg, env, s, r.error.error);
      }
    }
  }

  method DeleteVm(ghost db0: Db, cfg: Config, env: Env, s0: Session) returns (r: Result<(), Fault>, s: Session)
    requires AtWork(db0, s0, cfg) && s0.cur.row.job.op == VmDelete && Entered(s0.seen)
    ensures Sound(db0, s, cfg) && Grows(cfg, env, s0.log, s.log)
    ensures r.Ok? ==>
              && s.stored.row.life.state == Succeeded
              && (if s0.cur.guest.vm.Some? then
                    s.stored.guest.vm == Some(Vm(VmDeleted, Some(env.clock(|s.log| - 1))))
                  else s.stored.guest == s0.cur.guest)
    ensures |s0.log| <= |s.log| && (r.Ok? ==> |s.log| > 0 && s.log[|s.log| - 1] == Saved(s.stored))
    ensures r.Err? ==> s.stored.row.life.state == Running
    ensures r.Err? ==> Ends(s.seen, r.error) && (r.error == Crash ==> env.crashAt <= |s.log|)
    ensures Brisk(env) ==> |s.log| <= |s0.log| + 21
  {
    s := s0;
    var guest := s.cur.guest;
    if guest.vm.Some? {
      var done;
      done, s :- DeleteRemote(db0, cfg, env, s);
      guest := guest.(vm := Some(Vm(VmDeleted, Some(env.clock(|s.log|)))),
                      assignment := Released(guest.assignment, s.cur.row.job.cleanup));
    }
    r, s := Succeed(db0, cfg, env, s, guest);
  }

  function Released(a: Option<Assignment>, cleanup: bool): Option<Assignment> {
    if a.Some? then Some(Assignment(if cleanup then Expired else Assigned, false)) else None
  }

  // The records are read and authorization is checked before anything else.
  method Enter(ghost db0: Db, cfg: Config, env: Env, s0: Session) returns (r: Result<(), Fault>, s: Session)
    requires AtWork(db0, s0, cfg) && s0.stored == s0.cur && Begins(s0.seen)
    ensures AtWork(db0, s, cfg) && Grows(cfg, env, s0.log, s.log) && s.stored == s.cur
    ensures s.cur.row == s0.cur.row && SameGuest(s0.cur.guest, s.cur.guest)
    ensures r.Ok? ==> Entered(s.seen)
    ensures r.Err? ==> Explains(s.seen, r.error) && !r.error.Remote? && (r.error == Crash ==> env.crashAt <= |s.log|)
    ensures |s.log| <= |s0.log| + 2
  {
    var looked;
    looked, s :- Reload(db0, cfg, env, s0);
    r := Ok(());
    if s.cur.row.job.hasTarget {
      r, s := Authorize(db0, cfg, env, s);
    }
  }

  // The branch of the operation's type.
  method Dispatch(ghost db0: Db, cfg: Config, env: Env, s0: Session) returns (r: Result<(), Fault>, s: Session)
    requires AtWork(db0, s0, cfg) && s0.stored == s0.cur && Entered(s0.seen)
    ensures |s0.log| <= |s.log| && Sound(db0, s, cfg) && Grows(cfg, env, s0.log, s.log)
    ensures r.Ok? ==> s.stored.row.life.state == Succeeded && |s.log| > 0 && s.log[|s.log| - 1] == Saved(s.stored)
    ensures r.Err? ==> s.stored.row.life.state == Running
    ensures r.Err? ==> Ends(s.seen, r.error) && (r.error == Crash ==> env.crashAt <= |s.log|)
    ensures Brisk(env) ==> |s.log| <= |s0.log| + 21
  {
    match s0.cur.row.job.op {
      case VmCreate => r, s := CreateVm(db0, cfg, env, s0);
      case VmDelete => r, s := DeleteVm(db0, cfg, env, s0);
      case Unsupported => return Err(Runtime(UnsupportedType)), s0;
      case _ => r, s := PowerVm(db0, cfg, env, s0);
    }
  }

  method ExecuteOperation(ghost db0: Db, cfg: Config, env: Env, s0: Session) returns (r: Result<(), Fault>, s: Session)
    requires AtWork(db0, s0, cfg) && s0.stored == s0.cur && Begins(s0.seen)
    ensures |s0.log| <= |s.log| && Sound(db0, s, cfg) && Grows(cfg, env, s0.log, s.log)
    ensures r.Ok? ==> s.stored.row.life.state == Succeeded && |s.log| > 0 && s.log[|s.log| - 1] == Saved(s.stored)
    ensures r.Err? ==> s.stored.row.life.state == Running
    ensures r.Err? ==> Ends(s.seen, r.error) && (r.error == Crash ==> env.crashAt <= |s.log|)
    ensures Brisk(env) ==> |s.log| <= |s0.log| + 23
  {
    var granted;
    granted, s :- Enter(db0, cfg, env, s0);
    r, s := Dispatch(db0, cfg, env, s);
  }
}
