/**
 The operation queue under many workers: claims, lease renewals, retries, crashes and the clock
 interleave freely. A holder acts only while its own lease has not run out, which is the assumption
 the source relies on, since `execute_operation` never reads `lease_owner` again.
 */
module LeaseQueue {
  import opened Common
  import opened OperationRecord

  // A row, with counts of how it was claimed and the time of its last retry for the theorems to speak of.
  datatype Entry = Entry(life: Life, claims: nat, reclaims: nat, retriedAt: Option<Time>)

  // A worker inside `execute_operation`: its row, and the deadline it last wrote.
  datatype Hold = Hold(row: nat, deadline: Time)

  datatype Queue = Queue(now: Time, rows: seq<Entry>, holds: map<WorkerId, Hold>)

  datatype Ending = Success | Failure | Denial

  datatype Step =
    | Tick(later: Time)
    | Enqueue
    | Claim(worker: WorkerId, row: nat)
    | Renew(worker: WorkerId)
    | Finish(worker: WorkerId, ending: Ending)
    | Crash(worker: WorkerId)

  // A worker that may still act.
  predicate Active(q: Queue, w: WorkerId) {
    w in q.holds && q.now <= q.holds[w].deadline && q.holds[w].row < |q.rows|
  }

  function Ended(life: Life, ending: Ending, now: Time, cfg: Config): Life {
    match ending
    case Success => Completed(life, now)
    case Failure => RetriedOrFailed(life, now, cfg)
    case Denial => Cancellation(life, now)
  }

  predicate Enabled(q: Queue, step: Step) {
    match step
    case Tick(later) => q.now <= later
    case Enqueue => true
    case Claim(w, i) => w !in q.holds && i < |q.rows| && Claimable(q.rows[i].life, q.now)
    case Renew(w) => Active(q, w)
    case Finish(w, _) => Active(q, w)
    case Crash(w) => w in q.holds
  }

  function WithRow(q: Queue, i: nat, entry: Entry, holds: map<WorkerId, Hold>): Queue
    requires i < |q.rows|
  {
    Queue(q.now, q.rows[i := entry], holds)
  }

  function AfterClaim(q: Queue, w: WorkerId, i: nat, cfg: Config): Queue
    requires i < |q.rows|
  {
    var e := q.rows[i];
    var again := if e.life.state == Running then 1 else 0;
    WithRow(q, i, e.(life := Claimed(e.life, w, q.now, cfg), claims := e.claims + 1, reclaims := e.reclaims + again),
            q.holds[w := Hold(i, q.now + cfg.leaseSeconds)])
  }

  function AfterRenew(q: Queue, w: WorkerId, cfg: Config): Queue
    requires w in q.holds && q.holds[w].row < |q.rows|
  {
    var i := q.holds[w].row;
    WithRow(q, i, q.rows[i].(life := Renewed(q.rows[i].life, q.now, cfg)),
            q.holds[w := Hold(i, q.now + cfg.leaseSeconds)])
  }

  function AfterFinish(q: Queue, w: WorkerId, ending: Ending, cfg: Config): Queue
    requires w in q.holds && q.holds[w].row < |q.rows|
  {
    var i := q.holds[w].row;
    var e := q.rows[i];
    var retriedAt := if ending == Failure then Some(q.now) else e.retriedAt;
    WithRow(q, i, e.(life := Ended(e.life, ending, q.now, cfg), retriedAt := retriedAt), q.holds - {w})
  }

  function Apply(q: Queue, step: Step, cfg: Config): Queue
    requires Enabled(q, step)
  {
    match step
    case Tick(later) => q.(now := later)
    case Enqueue => q.(rows := q.rows + [Entry(NewLife(q.now), 0, 0, None)])
    case Claim(w, i) => AfterClaim(q, w, i, cfg)
    case Renew(w) => AfterRenew(q, w, cfg)
    case Finish(w, ending) => AfterFinish(q, w, ending, cfg)
    case Crash(w) => q.(holds := q.holds - {w})
  }

  predicate EntryOk(e: Entry, cfg: Config) {
    && WellFormed(e.life, cfg)
    && e.claims == e.life.attempts
    && e.claims <= cfg.maxAttempts + e.reclaims
    && (e.life.state == Queued && e.retriedAt.Some? ==>
          e.life.runAfter == Some(e.retriedAt.value + RetryDelay(e.life.attempts)))
  }

  // An active worker is the owner its row names, until the deadline its row names.
  predicate HoldOk(q: Queue, w: WorkerId)
    requires w in q.holds
  {
    var h := q.holds[w];
    && h.row < |q.rows|
    && (q.now <= h.deadline ==>
          var life := q.rows[h.row].life;
          life.state == Running && life.leaseOwner == Some(w) && life.leaseExpires == Some(h.deadline))
  }

  ghost predicate Ok(q: Queue, cfg: Config) {
    && (forall i | 0 <= i < |q.rows| :: EntryOk(q.rows[i], cfg))
    && (forall w | w in q.holds :: HoldOk(q, w))
  }

  lemma StepKeepsOk(q: Queue, step: Step, cfg: Config)
    requires cfg.Valid() && Ok(q, cfg) && Enabled(q, step)
    ensures Ok(Apply(q, step, cfg), cfg)
  {
    var q' := Apply(q, step, cfg);
    forall i | 0 <= i < |q'.rows|
      ensures EntryOk(q'.rows[i], cfg)
    {
      if i < |q.rows| { assert EntryOk(q.rows[i], cfg); }
      if step.Renew? || step.Finish? { assert HoldOk(q, step.worker); }
    }
    forall w | w in q'.holds
      ensures HoldOk(q', w)
    {
      if w in q.holds { assert HoldOk(q, w); }
      if step.Renew? || step.Finish? { assert HoldOk(q, step.worker); }
    }
  }

  // Runs of any length from the empty queue.
  ghost predicate Run(run: seq<Queue>, steps: seq<Step>, cfg: Config) {
    && |run| == |steps| + 1
    && run[0].rows == [] && run[0].holds == map[]
    && forall i | 0 <= i < |steps| :: Enabled(run[i], steps[i]) && run[i + 1] == Apply(run[i], steps[i], cfg)
  }

  lemma {:induction false} RunIsOk(run: seq<Queue>, steps: seq<Step>, cfg: Config, n: nat)
    requires cfg.Valid() && Run(run, steps, cfg) && n < |run|
    ensures Ok(run[n], cfg)
  {
    if n > 0 {
      RunIsOk(run, steps, cfg, n - 1);
      StepKeepsOk(run[n - 1], steps[n - 1], cfg);
    }
  }

  // At most one worker that may still act is executing a row, at any point of any run.
  lemma LeaseIsExclusive(run: seq<Queue>, steps: seq<Step>, cfg: Config, n: nat, v: WorkerId, w: WorkerId)
    requires cfg.Valid() && Run(run, steps, cfg) && n < |run|
    requires Active(run[n], v) && Active(run[n], w) && run[n].holds[v].row == run[n].holds[w].row
    ensures v == w
  {
    RunIsOk(run, steps, cfg, n);
    assert HoldOk(run[n], v) && HoldOk(run[n], w);
  }

  lemma TerminalStep(q: Queue, step: Step, cfg: Config, i: nat)
    requires cfg.Valid() && Ok(q, cfg) && Enabled(q, step) && i < |q.rows| && q.rows[i].life.state.Terminal()
    ensures i < |Apply(q, step, cfg).rows| && Apply(q, step, cfg).rows[i] == q.rows[i]
  {
  }

  // A succeeded, failed or cancelled row never changes again.
  lemma {:induction false} TerminalIsForever(run: seq<Queue>, steps: seq<Step>, cfg: Config, m: nat, n: nat, i: nat)
    requires cfg.Valid() && Run(run, steps, cfg) && m <= n < |run|
    requires i < |run[m].rows| && run[m].rows[i].life.state.Terminal()
    ensures i < |run[n].rows| && run[n].rows[i] == run[m].rows[i]
    decreases n
  {
    if m < n {
      TerminalIsForever(run, steps, cfg, m, n - 1, i);
      RunIsOk(run, steps, cfg, n - 1);
      TerminalStep(run[n - 1], steps[n - 1], cfg, i);
    }
  }

  // What is left for a row to do. Only a claim of an expired lease may leave it as it is.
  function Remaining(life: Life, cfg: Config): nat {
    var left := if life.attempts < cfg.maxAttempts then cfg.maxAttempts - life.attempts else 0;
    match life.state
    case Queued => 2 * left
    case Running => 2 * left + 1
    case _ => 0
  }

  // Every claim of a queued row and every ending strictly uses the measure up; no step gives any back.
  lemma StepsRunDown(q: Queue, step: Step, cfg: Config, i: nat)
    requires cfg.Valid() && Ok(q, cfg) && Enabled(q, step) && i < |q.rows|
    ensures var q' := Apply(q, step, cfg);
            && i < |q'.rows|
            && Remaining(q'.rows[i].life, cfg) <= Remaining(q.rows[i].life, cfg)
            && ((step.Claim? && step.row == i && q.rows[i].life.state == Queued)
                || (step.Finish? && q.holds[step.worker].row == i)
                ==> Remaining(q'.rows[i].life, cfg) < Remaining(q.rows[i].life, cfg))
  {
  }

  // How often row `i` was claimed in the first `n` steps; with `again`, only out of another worker's expired lease.
  function ClaimSteps(run: seq<Queue>, steps: seq<Step>, i: nat, again: bool, n: nat): nat
    requires |run| == |steps| + 1 && n <= |steps|
  {
    if n == 0 then 0
    else
      var q, step := run[n - 1], steps[n - 1];
      var hit := step.Claim? && step.row == i && i < |q.rows| && (again ==> q.rows[i].life.state == Running);
      ClaimSteps(run, steps, i, again, n - 1) + if hit then 1 else 0
  }

  lemma {:induction false} ClaimsAreCounted(run: seq<Queue>, steps: seq<Step>, cfg: Config, n: nat, i: nat)
    requires Run(run, steps, cfg) && n < |run|
    ensures ClaimSteps(run, steps, i, false, n) == if i < |run[n].rows| then run[n].rows[i].claims else 0
    ensures ClaimSteps(run, steps, i, true, n) == if i < |run[n].rows| then run[n].rows[i].reclaims else 0
  {
    if n > 0 {
      ClaimsAreCounted(run, steps, cfg, n - 1, i);
      assert Enabled(run[n - 1], steps[n - 1]) && run[n] == Apply(run[n - 1], steps[n - 1], cfg);
    }
  }

  // Each row is claimed at most max-attempts times, plus once for every expired lease taken over.
  lemma ClaimsAreBounded(run: seq<Queue>, steps: seq<Step>, cfg: Config, n: nat, i: nat)
    requires cfg.Valid() && Run(run, steps, cfg) && n < |run|
    ensures ClaimSteps(run, steps, i, false, n) <= cfg.maxAttempts + ClaimSteps(run, steps, i, true, n)
  {
    ClaimsAreCounted(run, steps, cfg, n, i);
    if i < |run[n].rows| {
      RunIsOk(run, steps, cfg, n);
      assert EntryOk(run[n].rows[i], cfg);
    }
  }

  // Queued means attempts are left; lease columns are set exactly while running, `finished_at` exactly when over.
  lemma RowsAreWellFormed(run: seq<Queue>, steps: seq<Step>, cfg: Config, n: nat, i: nat)
    requires cfg.Valid() && Run(run, steps, cfg) && n < |run| && i < |run[n].rows|
    ensures WellFormed(run[n].rows[i].life, cfg)
  {
    RunIsOk(run, steps, cfg, n);
    assert EntryOk(run[n].rows[i], cfg);
  }

  // A retry starts no earlier than min(60, 2^attempts) seconds after the failure that queued it.
  lemma RetriesWait(run: seq<Queue>, steps: seq<Step>, cfg: Config, n: nat)
    requires cfg.Valid() && Run(run, steps, cfg) && n < |steps| && steps[n].Claim?
    ensures var e := run[n].rows[steps[n].row];
            e.life.state == Queued && e.retriedAt.Some? ==>
              run[n].now >= e.retriedAt.value + RetryDelay(e.life.attempts)
  {
    RunIsOk(run, steps, cfg, n);
    assert EntryOk(run[n].rows[steps[n].row], cfg);
  }

  // Every row has a time from which it may be claimed, and a running one has passed it; it has started once it was
  // claimed.
  predicate DueOk(e: Entry, now: Time) {
    && e.life.runAfter.Some? && (e.life.state == Running ==> e.life.runAfter.value <= now)
    && (e.life.startedAt.Some? <==> e.life.attempts > 0)
  }

  lemma {:induction false} RowsAreDue(run: seq<Queue>, steps: seq<Step>, cfg: Config, n: nat)
    requires cfg.Valid() && Run(run, steps, cfg) && n < |run|
    ensures forall i | 0 <= i < |run[n].rows| :: DueOk(run[n].rows[i], run[n].now)
  {
    if n > 0 {
      RowsAreDue(run, steps, cfg, n - 1);
      var q, step := run[n - 1], steps[n - 1];
      assert Enabled(q, step) && run[n] == Apply(q, step, cfg);
      forall i | 0 <= i < |run[n].rows|
        ensures DueOk(run[n].rows[i], run[n].now)
      {
        if i < |q.rows| { assert DueOk(q.rows[i], q.now); }
      }
    }
  }

  // A row's start is the time of its first claim, and stays that.
  lemma FirstClaimIsTheStart(run: seq<Queue>, steps: seq<Step>, cfg: Config, n: nat)
    requires cfg.Valid() && Run(run, steps, cfg) && n < |steps| && steps[n].Claim?
    ensures var e, e' := run[n].rows[steps[n].row], run[n + 1].rows[steps[n].row];
            && (e.claims == 0 <==> e.life.startedAt == None) && e'.claims == e.claims + 1
            && e'.life.startedAt == if e.claims == 0 then Some(run[n].now) else e.life.startedAt
  {
    RowsAreDue(run, steps, cfg, n);
    RunIsOk(run, steps, cfg, n);
    assert EntryOk(run[n].rows[steps[n].row], cfg) && DueOk(run[n].rows[steps[n].row], run[n].now);
  }

  // When a row can be claimed: one that is over never; one that waits from its time on; one that is running exactly
  // once its lease is over, so that no row is lost to a worker that died.
  lemma RowsComeDue(run: seq<Queue>, steps: seq<Step>, cfg: Config, n: nat, i: nat, t: Time)
    requires cfg.Valid() && Run(run, steps, cfg) && n < |run| && i < |run[n].rows| && run[n].now <= t
    ensures var life := run[n].rows[i].life;
            && (life.state in {Succeeded, Failed, Cancelled} ==> !Claimable(life, t))
            && (life.state == Queued ==> life.runAfter.Some? && (Claimable(life, t) <==> life.runAfter.value <= t))
            && (life.state == Running ==>
                  life.leaseExpires.Some? && (Claimable(life, t) <==> life.leaseExpires.value < t))
  {
    RowsAreDue(run, steps, cfg, n);
    RunIsOk(run, steps, cfg, n);
    assert EntryOk(run[n].rows[i], cfg);
  }

  // A claim or a renewal gives its worker a whole lease from now on, in its own eyes and in the row.
  lemma LeasesAreWhole(run: seq<Queue>, steps: seq<Step>, cfg: Config, n: nat)
    requires cfg.Valid() && Run(run, steps, cfg) && n < |steps| && (steps[n].Claim? || steps[n].Renew?)
    ensures var q, w := run[n + 1], steps[n].worker;
            && Active(q, w) && q.holds[w].deadline == run[n].now + cfg.leaseSeconds
            && q.rows[q.holds[w].row].life.leaseExpires == Some(run[n].now + cfg.leaseSeconds)
            && q.rows[q.holds[w].row].life.leaseOwner == Some(w)
  {
    RunIsOk(run, steps, cfg, n);
    RunIsOk(run, steps, cfg, n + 1);
    assert HoldOk(run[n + 1], steps[n].worker);
  }

  // How long a row waits: two seconds after its first attempt, twice as long after each further one, at most a minute.
  lemma RetryDelays(attempts: nat)
    ensures RetryDelay(1) == 2
    ensures RetryDelay(attempts + 1) == if RetryDelay(attempts) < 30 then 2 * RetryDelay(attempts) else 60
    ensures attempts >= 6 ==> RetryDelay(attempts) == 60
  {
    if attempts >= 6 { PowersGrow(attempts); }
  }

  lemma {:induction false} PowersGrow(n: nat)
    requires n >= 6
    ensures Pow2(n) >= 64
  {
    if n > 6 { PowersGrow(n - 1); }
  }

  // Without the lease assumption it all fails: a worker that finishes after its deadline reopens a row
  // that another worker has already completed.
  lemma LateFinishReopens(cfg: Config) returns (run: seq<Queue>, steps: seq<Step>)
    requires cfg.Valid() && cfg.maxAttempts >= 3
    ensures Run(run, steps, cfg) && Reopens(run[|run| - 1], 0, cfg)
  {
    var q0 := Queue(0, [], map[]);
    steps := [Enqueue, Claim(0, 0), Tick(cfg.leaseSeconds + 1), Claim(1, 0), Finish(1, Success)];
    var q1 := Apply(q0, steps[0], cfg);
    var q2 := Apply(q1, steps[1], cfg);
    var q3 := Apply(q2, steps[2], cfg);
    var q4 := Apply(q3, steps[3], cfg);
    run := [q0, q1, q2, q3, q4, Apply(q4, steps[4], cfg)];
  }

  // Were the worker to fail now, it would queue a row again that has succeeded.
  predicate Reopens(q: Queue, w: WorkerId, cfg: Config) {
    && w in q.holds && q.holds[w].row < |q.rows|
    && q.rows[q.holds[w].row].life.state == Succeeded
    && AfterFinish(q, w, Failure, cfg).rows[q.holds[w].row].life.state == Queued
  }

  function LifeOf(q: Queue, w: WorkerId): Life
    requires w in q.holds && q.holds[w].row < |q.rows|
  {
    q.rows[q.holds[w].row].life
  }

  function EndState(life: Life, ending: Ending, cfg: Config): State {
    match ending
    case Success => Succeeded
    case Failure => if life.attempts < cfg.maxAttempts then Queued else Failed
    case Denial => Cancelled
  }

  // What a worker does to a row that is over, and it can only be past its deadline then. Its ending puts the row in
  // the state of that ending, whatever the row was in: the row comes out as it was if and only if it ended in the
  // same state at the same moment, and fit for the queue if and only if it is not queued again.
  lemma LateEnding(q: Queue, w: WorkerId, ending: Ending, cfg: Config)
    requires cfg.Valid() && Ok(q, cfg) && w in q.holds && HoldOk(q, w) && LifeOf(q, w).state.Terminal()
    ensures !Active(q, w)
    ensures var before, after := LifeOf(q, w), AfterFinish(q, w, ending, cfg).rows[q.holds[w].row].life;
            && after.state == EndState(before, ending, cfg)
            && (after == before <==> before.state == EndState(before, ending, cfg) && before.finishedAt == Some(q.now))
            && (WellFormed(after, cfg) <==> EndState(before, ending, cfg).Terminal())
  {
    assert EntryOk(q.rows[q.holds[w].row], cfg);
  }

  // Its renewal leaves the state alone and puts a lease on the row, which a row that is over must not have.
  lemma LateRenewal(q: Queue, w: WorkerId, cfg: Config)
    requires cfg.Valid() && Ok(q, cfg) && w in q.holds && HoldOk(q, w) && LifeOf(q, w).state.Terminal()
    ensures !Active(q, w)
    ensures var before, after := LifeOf(q, w), AfterRenew(q, w, cfg).rows[q.holds[w].row].life;
            && after == before.(leaseExpires := Some(q.now + cfg.leaseSeconds))
            && before.leaseExpires == None && !WellFormed(after, cfg)
  {
    assert EntryOk(q.rows[q.holds[w].row], cfg);
  }

  // ---- one attempt after the other

  // Worker `v` may not act any more.
  predicate Silent(q: Queue, v: WorkerId) {
    v in q.holds ==> q.holds[v].deadline < q.now
  }

  // Once a row is claimed, whoever held it before is silent until it claims again: the events of a row are those of one
  // attempt after the other, each cut off where its worker died or its lease ran out.
  lemma {:induction false} AttemptsAreSerial(run: seq<Queue>, steps: seq<Step>, cfg: Config, m: nat, n: nat,
      v: WorkerId)
    requires cfg.Valid() && Run(run, steps, cfg) && m < n < |run| && steps[m].Claim?
    requires v in run[m].holds && run[m].holds[v].row == steps[m].row
    requires forall k | m < k < n :: steps[k].Claim? ==> steps[k].worker != v
    ensures Silent(run[n], v)
    ensures n < |steps| && (steps[n].Renew? || steps[n].Finish?) ==> steps[n].worker != v
  {
    if n == m + 1 {
      RunIsOk(run, steps, cfg, m);
      assert HoldOk(run[m], v) && EntryOk(run[m].rows[steps[m].row], cfg);
      assert run[n] == Apply(run[m], steps[m], cfg);
    } else {
      AttemptsAreSerial(run, steps, cfg, m, n - 1, v);
      assert Enabled(run[n - 1], steps[n - 1]) && run[n] == Apply(run[n - 1], steps[n - 1], cfg);
    }
    if n < |steps| { assert Enabled(run[n], steps[n]); }
  }
}
