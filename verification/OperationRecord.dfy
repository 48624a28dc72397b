/**
 The durable operation row and its state changes: claim, lease renewal, success,
 retry-or-fail and cancellation (backend/app/services/operation_service.py).
 */
module OperationRecord {
  import opened Common

  type Time = int
  type WorkerId = nat

  // Settings read by the queue; a row must be allowed at least one attempt.
  datatype Config = Config(leaseSeconds: nat, maxAttempts: nat) {
    predicate Valid() {
      1 <= maxAttempts
    }
  }

  // Calls that change a guest.
  datatype Action = Clone | Start | Stop | Reboot | Delete

  datatype OpType = VmCreate | VmStart | VmStop | VmReboot | VmDelete | Unsupported

  // payload["_phase"], absent until the first submission of a phased operation.
  datatype Phase = NoPhase | CloneSubmitted | StartSubmitted | StopSubmitted | StopObserved | DeleteSubmitted

  // A hypervisor task. `origin` records which call answered with it: no code branches on it.
  datatype Task = Task(id: nat, origin: Action)

  datatype State = Queued | Running | Succeeded | Failed | Cancelled {
    predicate Terminal() {
      Succeeded? || Failed? || Cancelled?
    }
  }

  // What the row asks for; fixed when it is enqueued.
  datatype Job = Job(op: OpType, autoStart: bool, cleanup: bool, hasTarget: bool)

  // The queue's own columns.
  datatype Life = Life(
    state: State,
    attempts: nat,
    leaseOwner: Option<WorkerId>,
    leaseExpires: Option<Time>,
    runAfter: Option<Time>,
    startedAt: Option<Time>,
    finishedAt: Option<Time>)

  datatype Row = Row(job: Job, phase: Phase, task: Option<Task>, life: Life)

  // The row `enqueue_operation` inserts.
  function NewLife(now: Time): Life {
    Life(Queued, 0, None, None, Some(now), None, None)
  }

  // What every committed row satisfies.
  predicate WellFormed(life: Life, cfg: Config) {
    && (life.state == Running <==> life.leaseOwner.Some?)
    && (life.state == Running <==> life.leaseExpires.Some?)
    && (life.state.Terminal() <==> life.finishedAt.Some?)
    && (life.state == Queued ==> life.attempts < cfg.maxAttempts)
    && (life.state == Running ==> life.attempts > 0)
  }

  // The filter of `claim_operation`.
  predicate Claimable(life: Life, now: Time) {
    && (life.state == Queued || (life.state == Running && life.leaseExpires.Some? && life.leaseExpires.value < now))
    && (life.runAfter.None? || life.runAfter.value <= now)
  }

  function Claimed(life: Life, worker: WorkerId, now: Time, cfg: Config): Life {
    life.(state := Running,
          leaseOwner := Some(worker),
          leaseExpires := Some(now + cfg.leaseSeconds),
          startedAt := if life.startedAt.Some? then life.startedAt else Some(now),
          attempts := life.attempts + 1)
  }

  function Renewed(life: Life, now: Time, cfg: Config): Life {
    life.(leaseExpires := Some(now + cfg.leaseSeconds))
  }

  function Completed(life: Life, now: Time): Life {
    life.(state := Succeeded, finishedAt := Some(now), leaseOwner := None, leaseExpires := None)
  }

  function Pow2(n: nat): nat {
    if n == 0 then 1 else 2 * Pow2(n - 1)
  }

  // min(60, 2^attempts) seconds.
  function RetryDelay(attempts: nat): (d: nat)
    ensures d <= 60
  {
    if Pow2(attempts) < 60 then Pow2(attempts) else 60
  }

  // `fail_or_retry`
  function RetriedOrFailed(life: Life, now: Time, cfg: Config): Life {
    var released := life.(leaseOwner := None, leaseExpires := None);
    if life.attempts < cfg.maxAttempts then
      released.(state := Queued, runAfter := Some(now + RetryDelay(life.attempts)))
    else
      released.(state := Failed, finishedAt := Some(now))
  }

  // `cancel_unauthorized_operation`
  function Cancellation(life: Life, now: Time): Life {
    life.(state := Cancelled, finishedAt := Some(now), leaseOwner := None, leaseExpires := None)
  }
}
