/**
 The agent's request loop and its worker thread, sharing the state file and the lock file
 (`do_POST`, `check_update_locked`, `_run_async_action` and the restart handling of `main`).
 One step is one read, write, lock or unlock; the two sides interleave freely and the process
 may be restarted at any point.
 */
module UpdaterProtocol {
  import opened Common

  datatype Status = Queued | Running | Succeeded | Failed

  // The state file's `operation`, by the run it belongs to.
  datatype Operation = Operation(run: nat, status: Status)

  // The state file: its operation and the number of times it has been written.
  datatype File = File(operation: Option<Operation>, version: nat)

  datatype Lock = Free | HeldByServer | HeldByWorker(run: nat)

  // The single-threaded request loop. A copy read from the file is carried to the write that replaces it.
  datatype Server =
    | Idle
    | Probing                       // apply/rollback: no operation was queued or running
    | Rereading                     // the lock was free
    | Queuing(copy: File)
    | Spawning(run: nat)            // queued is written, the thread not yet started
    | Checking                      // check: holds the lock
    | Fetching                      // no operation was queued or running
    | Rewriting(copy: File)

  datatype Worker =
    | Waiting                       // for the lock
    | Bailing                       // the lock file could not be opened
    | BailWriting(copy: File)
    | Entering                      // holds the lock
    | Marking(copy: File)
    | Acting
    | Acted(ok: bool)               // the action is over; one that updated has dropped `operation`
    | Settling(copy: File, ok: bool)
    | Leaving                       // the final status is written, the lock still held

  // `stories` records, for every run, the statuses written for it, in order, and `outcomes` whether its action returned
  // or raised, once it is over.
  datatype Agent = Agent(
    file: File, lock: Lock, server: Server, workers: map<nat, Worker>, stories: seq<seq<Status>>,
    outcomes: map<nat, bool>, restarts: nat)

  datatype Step =
    | Post | Probe | Reread | WriteQueued | Spawn
    | CheckOpen | CheckRead | CheckFetched(ok: bool) | CheckWrite
    | TakeLock(run: nat) | Bail(run: nat) | BailRead(run: nat) | BailWrite(run: nat)
    | ReadBefore(run: nat) | WriteRunning(run: nat)
    | Finish(run: nat, ok: bool, drops: bool) | ReadAfter(run: nat) | WriteFinal(run: nat) | Unlock(run: nat)
    | Restart

  predicate Active(f: File) {
    f.operation.Some? && f.operation.value.status in {Queued, Running}
  }

  predicate At(a: Agent, run: nat, pc: Worker) {
    run in a.workers && a.workers[run] == pc && run < |a.stories|
  }

  predicate Enabled(a: Agent, s: Step) {
    match s
    case Post => a.server == Idle
    case Probe => a.server == Probing
    case Reread => a.server == Rereading
    case WriteQueued => a.server.Queuing?
    case Spawn => a.server.Spawning?
    case CheckOpen => a.server == Idle
    case CheckRead => a.server == Checking
    case CheckFetched(_) => a.server == Fetching
    case CheckWrite => a.server.Rewriting?
    case TakeLock(run) => At(a, run, Waiting) && a.lock == Free
    case Bail(run) => At(a, run, Waiting)
    case BailRead(run) => At(a, run, Bailing)
    case BailWrite(run) => run in a.workers && a.workers[run].BailWriting? && run < |a.stories|
    case ReadBefore(run) => At(a, run, Entering)
    case WriteRunning(run) => run in a.workers && a.workers[run].Marking? && run < |a.stories|
    case Finish(run, ok, drops) => At(a, run, Acting) && (drops ==> ok)
    case ReadAfter(run) => run in a.workers && a.workers[run].Acted? && run < |a.stories|
    case WriteFinal(run) => run in a.workers && a.workers[run].Settling? && run < |a.stories|
    case Unlock(run) => At(a, run, Leaving)
    case Restart => true
  }

  // Write `status` for `run`, on top of a copy of the file.
  function Put(a: Agent, run: nat, status: Status): Agent
    requires run < |a.stories|
  {
    a.(file := File(Some(Operation(run, status)), a.file.version + 1),
       stories := a.stories[run := a.stories[run] + [status]])
  }

  function Become(a: Agent, run: nat, pc: Worker): Agent {
    a.(workers := a.workers[run := pc])
  }

  // The restart handling of `main`: an operation left queued or running is written as failed.
  function Restarted(a: Agent): Agent {
    var b := a.(lock := Free, server := Idle, workers := map[], restarts := a.restarts + 1);
    if Active(a.file) && a.file.operation.value.run < |a.stories| then Put(b, a.file.operation.value.run, Failed) else b
  }

  function Apply(a: Agent, s: Step): Agent
    requires Enabled(a, s)
  {
    match s
    case Post => a.(server := if Active(a.file) then Idle else Probing)
    case Probe => a.(server := if a.lock == Free then Rereading else Idle)
    case Reread => a.(server := Queuing(a.file))
    case WriteQueued =>
      a.(file := File(Some(Operation(|a.stories|, Queued)), a.file.version + 1),
         stories := a.stories + [[Queued]],
         server := Spawning(|a.stories|))
    case Spawn => Become(a.(server := Idle), a.server.run, Waiting)
    case CheckOpen => if a.lock == Free then a.(lock := HeldByServer, server := Checking) else a
    case CheckRead => if Active(a.file) then a.(lock := Free, server := Idle) else a.(server := Fetching)
    case CheckFetched(ok) => if ok then a.(server := Rewriting(a.file)) else a.(lock := Free, server := Idle)
    case CheckWrite =>
      a.(file := File(a.server.copy.operation, a.file.version + 1), lock := Free, server := Idle)
    case TakeLock(run) => Become(a.(lock := HeldByWorker(run)), run, Entering)
    case Bail(run) => Become(a, run, Bailing)
    case BailRead(run) => Become(a, run, BailWriting(a.file))
    case BailWrite(run) => var b := Put(a, run, Failed); b.(workers := b.workers - {run})
    case ReadBefore(run) => Become(a, run, Marking(a.file))
    case WriteRunning(run) => Become(Put(a, run, Running), run, Acting)
    case Finish(run, ok, drops) =>
      var b := a.(outcomes := a.outcomes[run := ok]);
      Become(if drops then b.(file := File(None, a.file.version + 1)) else b, run, Acted(ok))
    case ReadAfter(run) => Become(a, run, Settling(a.file, a.workers[run].ok))
    case WriteFinal(run) => Become(Put(a, run, if a.workers[run].ok then Succeeded else Failed), run, Leaving)
    case Unlock(run) => a.(lock := Free, workers := a.workers - {run})
    case Restart => Restarted(a)
  }

  // ---- the invariant

  predicate HoldsLock(pc: Worker) {
    !(pc.Waiting? || pc.Bailing? || pc.BailWriting?)
  }

  // What a worker's position says about the file and its story.
  predicate WorkerOk(a: Agent, run: nat)
    requires run in a.workers && run < |a.stories|
  {
    var pc, op, story := a.workers[run], a.file.operation, a.stories[run];
    && (HoldsLock(pc) <==> a.lock == HeldByWorker(run))
    && match pc
       case Waiting => op == Some(Operation(run, Queued)) && story == [Queued]
       case Bailing => op == Some(Operation(run, Queued)) && story == [Queued]
       case BailWriting(copy) => copy == a.file && op == Some(Operation(run, Queued)) && story == [Queued]
       case Entering => op == Some(Operation(run, Queued)) && story == [Queued]
       case Marking(copy) => copy == a.file && op == Some(Operation(run, Queued)) && story == [Queued]
       case Acting => op == Some(Operation(run, Running)) && story == [Queued, Running]
       case Acted(_) => (op == None || op == Some(Operation(run, Running))) && story == [Queued, Running]
       case Settling(copy, _) =>
         copy == a.file && (op == None || op == Some(Operation(run, Running))) && story == [Queued, Running]
       case Leaving => Over(story) && op.Some? && !Active(a.file)
  }

  predicate Over(story: seq<Status>) {
    story == [Queued, Running, Succeeded] || story == [Queued, Running, Failed] || story == [Queued, Failed]
  }

  // A worker past the point where the file shows its operation as queued or running.
  predicate Late(pc: Worker) {
    pc.Acted? || pc.Settling? || pc.Leaving?
  }

  predicate ServerOk(a: Agent) {
    match a.server
    case Idle => a.lock != HeldByServer
    case Probing => a.lock != HeldByServer && forall run | run in a.workers :: Late(a.workers[run])
    case Rereading => a.lock == Free && a.workers == map[] && !Active(a.file)
    case Queuing(copy) => a.lock == Free && a.workers == map[] && copy == a.file && !Active(a.file)
    case Spawning(run) =>
      a.lock == Free && a.workers == map[] && run < |a.stories| && a.stories[run] == [Queued]
      && a.file.operation == Some(Operation(run, Queued))
    case Checking => a.lock == HeldByServer
    case Fetching => a.lock == HeldByServer && a.workers == map[] && !Active(a.file)
    case Rewriting(copy) => a.lock == HeldByServer && a.workers == map[] && copy == a.file && !Active(a.file)
  }

  // A run nobody is working on is over, unless a restart fell between the action's end and its last write.
  predicate StoryOk(a: Agent, run: nat)
    requires run < |a.stories|
  {
    run in a.workers || a.server == Spawning(run) || Over(a.stories[run])
    || (a.restarts > 0 && a.stories[run] == [Queued, Running])
  }

  // An active operation in the file belongs to the worker or is about to get one.
  predicate FileOk(a: Agent) {
    Active(a.file) ==>
      var op := a.file.operation.value;
      op.run < |a.stories| && (op.run in a.workers || a.server == Spawning(op.run))
      && a.stories[op.run] == if op.status == Queued then [Queued] else [Queued, Running]
  }

  ghost predicate WorkersOk(a: Agent) {
    forall run | run in a.workers :: run < |a.stories| && WorkerOk(a, run)
  }

  ghost predicate OneWorker(a: Agent) {
    && (forall v, w | v in a.workers && w in a.workers :: v == w)
    && (a.lock.HeldByWorker? ==> a.lock.run in a.workers)
  }

  ghost predicate StoriesOk(a: Agent) {
    forall run | 0 <= run < |a.stories| :: StoryOk(a, run)
  }

  ghost predicate Ok(a: Agent) {
    WorkersOk(a) && OneWorker(a) && StoriesOk(a) && ServerOk(a) && FileOk(a)
  }

  lemma StepKeepsOneWorker(a: Agent, s: Step)
    requires Ok(a) && Enabled(a, s)
    ensures OneWorker(Apply(a, s))
  {
  }

  lemma StepKeepsWorkers(a: Agent, s: Step)
    requires Ok(a) && Enabled(a, s)
    ensures WorkersOk(Apply(a, s))
  {
    var b := Apply(a, s);
    forall run | run in b.workers
      ensures run < |b.stories| && WorkerOk(b, run)
    {
      if run in a.workers { assert WorkerOk(a, run); }
    }
  }

  predicate ServerStep(s: Step) {
    s in {Post, Probe, Reread, WriteQueued, Spawn, CheckOpen, CheckRead, CheckWrite} || s.CheckFetched?
  }

  lemma ServerStepKeepsServer(a: Agent, s: Step)
    requires Ok(a) && Enabled(a, s) && ServerStep(s)
    ensures ServerOk(Apply(a, s))
  {
  }

  lemma WorkerStepKeepsServer(a: Agent, s: Step)
    requires Ok(a) && Enabled(a, s) && !ServerStep(s)
    ensures ServerOk(Apply(a, s))
  {
  }

  lemma ServerStepKeepsFile(a: Agent, s: Step)
    requires Ok(a) && Enabled(a, s) && ServerStep(s)
    ensures FileOk(Apply(a, s))
  {
  }

  lemma WorkerStepKeepsFile(a: Agent, s: Step)
    requires Ok(a) && Enabled(a, s) && !ServerStep(s)
    ensures FileOk(Apply(a, s))
  {
  }

  lemma StepKeepsStories(a: Agent, s: Step)
    requires Ok(a) && Enabled(a, s)
    ensures StoriesOk(Apply(a, s))
  {
    var b := Apply(a, s);
    forall run | 0 <= run < |b.stories|
      ensures StoryOk(b, run)
    {
      if run < |a.stories| { assert StoryOk(a, run); }
      if run in a.workers { assert WorkerOk(a, run); }
    }
  }

  lemma StepKeepsOk(a: Agent, s: Step)
    requires Ok(a) && Enabled(a, s)
    ensures Ok(Apply(a, s))
  {
    StepKeepsWorkers(a, s);
    StepKeepsOneWorker(a, s);
    if ServerStep(s) {
      ServerStepKeepsServer(a, s);
      ServerStepKeepsFile(a, s);
    } else {
      WorkerStepKeepsServer(a, s);
      WorkerStepKeepsFile(a, s);
    }
    StepKeepsStories(a, s);
  }

  // ---- runs

  ghost predicate Run(agents: seq<Agent>, steps: seq<Step>) {
    && |agents| == |steps| + 1
    && agents[0].file.operation == None && agents[0].lock == Free && agents[0].server == Idle
    && agents[0].workers == map[] && agents[0].stories == [] && agents[0].outcomes == map[] && agents[0].restarts == 0
    && forall i | 0 <= i < |steps| :: Enabled(agents[i], steps[i]) && agents[i + 1] == Apply(agents[i], steps[i])
  }

  lemma {:induction false} RunIsOk(agents: seq<Agent>, steps: seq<Step>, n: nat)
    requires Run(agents, steps) && n < |agents|
    ensures Ok(agents[n])
  {
    if n > 0 {
      RunIsOk(agents, steps, n - 1);
      StepKeepsOk(agents[n - 1], steps[n - 1]);
    }
  }

  // The server queues an action, fetches for a check or records one only when no worker thread exists at all, which
  // covers the window where a finished action has dropped `operation`; and there is never more than one worker.
  lemma OneActionAtATime(agents: seq<Agent>, steps: seq<Step>, n: nat)
    requires Run(agents, steps) && n < |steps|
    ensures steps[n] in {WriteQueued, Spawn, CheckWrite} || steps[n].CheckFetched? ==> agents[n].workers == map[]
    ensures forall v, w | v in agents[n].workers && w in agents[n].workers :: v == w
  {
    RunIsOk(agents, steps, n);
  }

  // An agent with nothing to do takes an action on: it is queued as a new run, and its worker is started.
  lemma IdleAgentAccepts(a: Agent)
    requires Ok(a) && a.server == Idle && a.lock == Free && a.workers == map[]
    ensures var b := Apply(a, Post);
            && b.server == Probing && Enabled(b, Probe)
            && var c := Apply(b, Probe);
               && c.server == Rereading && Enabled(c, Reread)
               && var d := Apply(c, Reread);
                  && Enabled(d, WriteQueued)
                  && var e := Apply(d, WriteQueued);
                     && e.server == Spawning(|a.stories|) && e.stories == a.stories + [[Queued]]
                     && e.file.operation == Some(Operation(|a.stories|, Queued))
                     && Apply(e, Spawn).workers == map[|a.stories| := Waiting]
  {
  }

  // And it checks: the check ends with one write, which keeps the operation that the file shows.
  lemma IdleAgentChecks(a: Agent)
    requires Ok(a) && a.server == Idle && a.lock == Free && a.workers == map[]
    ensures var b := Apply(a, CheckOpen);
            && b.lock == HeldByServer && Enabled(b, CheckRead)
            && var c := Apply(b, CheckRead);
               && Enabled(c, CheckFetched(true))
               && var d := Apply(c, CheckFetched(true));
                  && Enabled(d, CheckWrite)
                  && Apply(d, CheckWrite) == a.(file := File(a.file.operation, a.file.version + 1))
  {
  }

  // While a worker has not ended its action, no action is taken on, and no check gets further than its first read.
  lemma BusyAgentRefuses(a: Agent, run: nat)
    requires Ok(a) && a.server == Idle && run in a.workers && !Late(a.workers[run])
    ensures Apply(a, Post) == a
    ensures Apply(a, CheckOpen) == a || Apply(Apply(a, CheckOpen), CheckRead) == a
  {
    assert WorkerOk(a, run);
  }

  // The copy of the file that a write is based on, when it is based on one.
  function CopyOf(a: Agent, s: Step): Option<File>
    requires Enabled(a, s)
  {
    match s
    case WriteQueued => Some(a.server.copy)
    case CheckWrite => Some(a.server.copy)
    case BailWrite(run) => Some(a.workers[run].copy)
    case WriteRunning(run) => Some(a.workers[run].copy)
    case WriteFinal(run) => Some(a.workers[run].copy)
    case _ => None
  }

  // No write is lost: every read-modify-write replaces exactly the file it read.
  lemma NoLostWrite(agents: seq<Agent>, steps: seq<Step>, n: nat)
    requires Run(agents, steps) && n < |steps|
    ensures var copy := CopyOf(agents[n], steps[n]); copy.Some? ==> copy.value == agents[n].file
  {
    RunIsOk(agents, steps, n);
    match steps[n] {
      case BailWrite(run) => assert WorkerOk(agents[n], run);
      case WriteRunning(run) => assert WorkerOk(agents[n], run);
      case WriteFinal(run) => assert WorkerOk(agents[n], run);
      case _ =>
    }
  }

  predicate Legal(story: seq<Status>) {
    story == [Queued] || story == [Queued, Running] || Over(story)
  }

  // Each accepted action is queued, then running, then exactly one of succeeded and failed; it can fail
  // straight from queued only where the lock file cannot be opened or the agent is restarted.
  lemma StoriesAreLegal(agents: seq<Agent>, steps: seq<Step>, n: nat, run: nat)
    requires Run(agents, steps) && n < |agents| && run < |agents[n].stories|
    ensures Legal(agents[n].stories[run])
    ensures agents[n].restarts == 0 && run !in agents[n].workers && agents[n].server != Spawning(run) ==>
              Over(agents[n].stories[run])
  {
    RunIsOk(agents, steps, n);
    assert StoryOk(agents[n], run);
    if run in agents[n].workers { assert WorkerOk(agents[n], run); }
  }

  // What the statuses of a run say of its action; a restart may fail a run whatever its action came to.
  predicate OutcomeFits(a: Agent, run: nat)
    requires run < |a.stories|
  {
    var story := a.stories[run];
    && (story == [Queued, Running, Succeeded] ==> run in a.outcomes && a.outcomes[run])
    && (story == [Queued, Running, Failed] && a.restarts == 0 ==> run in a.outcomes && !a.outcomes[run])
    && (story == [Queued] || story == [Queued, Failed] ==> run !in a.outcomes)
  }

  // A worker knows what its action came to.
  predicate WorkerKnows(a: Agent, run: nat)
    requires run in a.workers
  {
    match a.workers[run]
    case Acted(ok) => run in a.outcomes && a.outcomes[run] == ok
    case Settling(_, ok) => run in a.outcomes && a.outcomes[run] == ok
    case _ => true
  }

  ghost predicate OutcomesOk(a: Agent) {
    && (forall run | run in a.outcomes :: run < |a.stories|)
    && (forall run | 0 <= run < |a.stories| :: OutcomeFits(a, run))
    && (forall run | run in a.workers :: WorkerKnows(a, run))
  }

  lemma StepKeepsOutcomes(a: Agent, s: Step)
    requires Ok(a) && Enabled(a, s) && OutcomesOk(a)
    ensures OutcomesOk(Apply(a, s))
  {
    var b := Apply(a, s);
    forall run | 0 <= run < |b.stories|
      ensures OutcomeFits(b, run)
    {
      if run < |a.stories| { assert OutcomeFits(a, run); }
      if run in a.workers { assert WorkerOk(a, run) && WorkerKnows(a, run); }
      if s.Finish? && s.run == run { assert |a.stories[run]| == 2; }
      if run < |a.stories| && |a.stories[run]| < |b.stories[run]| {
        assert b.stories[run][|a.stories[run]|] in
          {Running, if s.WriteFinal? && a.workers[run].ok then Succeeded else Failed};
      }
    }
    forall run | run in b.workers
      ensures WorkerKnows(b, run)
    {
      if run in a.workers { assert WorkerOk(a, run) && WorkerKnows(a, run); }
    }
  }

  // A run is shown as succeeded only if its action returned, and, but for a restart, as failed only if its action
  // raised or never began.
  lemma {:induction false} StatusTellsOutcome(agents: seq<Agent>, steps: seq<Step>, n: nat)
    requires Run(agents, steps) && n < |agents|
    ensures OutcomesOk(agents[n])
  {
    if n > 0 {
      StatusTellsOutcome(agents, steps, n - 1);
      RunIsOk(agents, steps, n - 1);
      StepKeepsOutcomes(agents[n - 1], steps[n - 1]);
    }
  }

  // Nobody works on the run, is about to, or left it in the file as queued or running.
  predicate Abandoned(a: Agent, run: nat) {
    && run < |a.stories| && run !in a.workers && a.server != Spawning(run)
    && (Active(a.file) ==> a.file.operation.value.run != run)
  }

  lemma AbandonedStep(a: Agent, s: Step, run: nat)
    requires Ok(a) && Enabled(a, s) && Abandoned(a, run)
    ensures Abandoned(Apply(a, s), run) && Apply(a, s).stories[run] == a.stories[run]
  {
  }

  // No status is ever written again for a run that nobody works on.
  lemma {:induction false} AbandonedIsForever(agents: seq<Agent>, steps: seq<Step>, m: nat, n: nat, run: nat)
    requires Run(agents, steps) && m <= n < |agents| && Abandoned(agents[m], run)
    ensures Abandoned(agents[n], run) && agents[n].stories[run] == agents[m].stories[run]
    decreases n
  {
    if m < n {
      AbandonedIsForever(agents, steps, m, n - 1, run);
      RunIsOk(agents, steps, n - 1);
      AbandonedStep(agents[n - 1], steps[n - 1], run);
    }
  }

  lemma OverStep(a: Agent, s: Step, run: nat)
    requires Ok(a) && Enabled(a, s) && run < |a.stories| && Over(a.stories[run])
    ensures run < |Apply(a, s).stories| && Apply(a, s).stories[run] == a.stories[run]
  {
    if run in a.workers { assert WorkerOk(a, run); }
  }

  // A final status is never written over.
  lemma {:induction false} OverIsForever(agents: seq<Agent>, steps: seq<Step>, m: nat, n: nat, run: nat)
    requires Run(agents, steps) && m <= n < |agents| && run < |agents[m].stories| && Over(agents[m].stories[run])
    ensures run < |agents[n].stories| && agents[n].stories[run] == agents[m].stories[run]
    decreases n
  {
    if m < n {
      OverIsForever(agents, steps, m, n - 1, run);
      RunIsOk(agents, steps, n - 1);
      OverStep(agents[n - 1], steps[n - 1], run);
    }
  }

  // A restart leaves no operation queued or running, and completes the story of the run it interrupts,
  // unless that run's action had already dropped the operation from the file.
  lemma RestartCompletes(agents: seq<Agent>, steps: seq<Step>, n: nat, run: nat)
    requires Run(agents, steps) && n < |steps| && steps[n] == Restart && run in agents[n].workers
    ensures !Active(agents[n + 1].file)
    ensures run < |agents[n + 1].stories|
    ensures Over(agents[n + 1].stories[run]) <==> agents[n].file.operation.Some?
  {
    RunIsOk(agents, steps, n);
    assert WorkerOk(agents[n], run);
  }

  ghost predicate Reachable(a: Agent) {
    exists agents: seq<Agent>, steps: seq<Step> :: Run(agents, steps) && agents[|steps|] == a
  }

  lemma ReachNext(a: Agent, s: Step)
    requires Reachable(a) && Enabled(a, s)
    ensures Reachable(Apply(a, s))
  {
    var agents: seq<Agent>, steps: seq<Step> :| Run(agents, steps) && agents[|steps|] == a;
    var agents', steps' := agents + [Apply(a, s)], steps + [s];
    assert Run(agents', steps') && agents'[|steps'|] == Apply(a, s);
  }

  lemma QueuingIsReachable()
    ensures var f := File(None, 0); Reachable(Agent(f, Free, Queuing(f), map[], [], map[], 0))
  {
    var a := Agent(File(None, 0), Free, Idle, map[], [], map[], 0);
    var none: seq<Step> := [];
    assert Run([a], none) && [a][|none|] == a;
    ReachNext(a, Post);
    ReachNext(a.(server := Probing), Probe);
    ReachNext(a.(server := Rereading), Reread);
  }

  lemma QueuedIsReachable()
    ensures Reachable(Agent(File(Some(Operation(0, Queued)), 1), Free, Spawning(0), map[], [[Queued]], map[], 0))
  {
    QueuingIsReachable();
    var f := File(None, 0);
    var a := Agent(f, Free, Queuing(f), map[], [], map[], 0);
    ReachNext(a, WriteQueued);
    assert a.stories + [[Queued]] == [[Queued]];
  }

  lemma WaitingIsReachable()
    ensures Reachable(Agent(File(Some(Operation(0, Queued)), 1), HeldByWorker(0), Idle, map[0 := Entering],
              [[Queued]], map[], 0))
  {
    QueuedIsReachable();
    var a := Agent(File(Some(Operation(0, Queued)), 1), Free, Spawning(0), map[], [[Queued]], map[], 0);
    ReachNext(a, Spawn);
    var b := a.(server := Idle, workers := map[0 := Waiting]);
    assert Apply(a, Spawn) == b;
    ReachNext(b, TakeLock(0));
    assert map[0 := Waiting][0 := Entering] == map[0 := Entering];
  }

  lemma ActingIsReachable()
    ensures Reachable(Agent(File(Some(Operation(0, Running)), 2), HeldByWorker(0), Idle, map[0 := Acting],
              [[Queued, Running]], map[], 0))
  {
    WaitingIsReachable();
    var a := Agent(File(Some(Operation(0, Queued)), 1), HeldByWorker(0), Idle, map[0 := Entering], [[Queued]], map[],
        0);
    ReachNext(a, ReadBefore(0));
    var b := a.(workers := map[0 := Marking(a.file)]);
    assert Apply(a, ReadBefore(0)) == b;
    ReachNext(b, WriteRunning(0));
    assert b.workers[0 := Acting] == map[0 := Acting];
    assert b.stories[0] + [Running] == [Queued, Running];
    assert b.stories[0 := [Queued, Running]] == [[Queued, Running]];
  }

  // That window is real: such a run is left without a final status, and nobody will ever write one.
  lemma RestartCanLoseAStory()
    ensures var a := Agent(File(None, 3), Free, Idle, map[], [[Queued, Running]], map[0 := true], 1);
            Reachable(a) && Abandoned(a, 0) && !Over(a.stories[0])
  {
    ActingIsReachable();
    var a := Agent(File(Some(Operation(0, Running)), 2), HeldByWorker(0), Idle, map[0 := Acting],
        [[Queued, Running]], map[], 0);
    ReachNext(a, Finish(0, true, true));
    ReachNext(Apply(a, Finish(0, true, true)), Restart);
  }

  // ---- operation ids

  // What the state file shows over time under one operation id: runs follow one another, and the source names a run by
  // the second it was accepted in and the process, which runs can share.
  function Shown(stories: seq<seq<Status>>, name: nat -> nat, id: nat): seq<Status> {
    if stories == [] then []
    else
      var n := |stories| - 1;
      Shown(stories[..n], name, id) + if name(n) == id then stories[n] else []
  }

  function Named(n: nat, name: nat -> nat, id: nat): nat {
    if n == 0 then 0 else Named(n - 1, name, id) + if name(n - 1) == id then 1 else 0
  }

  function TimesQueued(story: seq<Status>): nat {
    if story == [] then 0
    else TimesQueued(story[..|story| - 1]) + if story[|story| - 1] == Queued then 1 else 0
  }

  lemma {:induction false} QueuedInBoth(a: seq<Status>, b: seq<Status>)
    ensures TimesQueued(a + b) == TimesQueued(a) + TimesQueued(b)
  {
    if b == [] {
      assert a + b == a;
    } else {
      var n := |b| - 1;
      assert (a + b)[..|a| + n] == a + b[..n];
      QueuedInBoth(a, b[..n]);
    }
  }

  lemma LegalIsQueuedOnce(story: seq<Status>)
    requires Legal(story)
    ensures TimesQueued(story) == 1
  {
    assert story[..1] == [Queued] && [Queued][..0] == [];
    assert forall i | 0 < i < |story| :: story[i] != Queued;
    QueuedOnlyFirst(story);
  }

  lemma {:induction false} QueuedOnlyFirst(story: seq<Status>)
    requires story != [] && story[0] == Queued && forall i | 0 < i < |story| :: story[i] != Queued
    ensures TimesQueued(story) == 1
  {
    if |story| > 1 {
      QueuedOnlyFirst(story[..|story| - 1]);
    } else {
      assert story[..0] == [];
    }
  }

  lemma {:induction false} ShownIsQueued(stories: seq<seq<Status>>, name: nat -> nat, id: nat)
    requires forall run | 0 <= run < |stories| :: Legal(stories[run])
    ensures TimesQueued(Shown(stories, name, id)) == Named(|stories|, name, id)
    ensures Named(|stories|, name, id) == 0 ==> Shown(stories, name, id) == []
    ensures Named(|stories|, name, id) == 1 ==> Legal(Shown(stories, name, id))
  {
    if stories != [] {
      var n := |stories| - 1;
      ShownIsQueued(stories[..n], name, id);
      LegalIsQueuedOnce(stories[n]);
      QueuedInBoth(Shown(stories[..n], name, id), stories[n]);
      assert [] + stories[n] == stories[n];
      assert Shown(stories[..n], name, id) + [] == Shown(stories[..n], name, id);
    }
  }

  // An id that was given out shows one legal story if and only if a single run has it.
  lemma IdsAreLegalIffUnshared(agents: seq<Agent>, steps: seq<Step>, n: nat, name: nat -> nat, id: nat)
    requires Run(agents, steps) && n < |agents| && Named(|agents[n].stories|, name, id) > 0
    ensures Legal(Shown(agents[n].stories, name, id)) <==> Named(|agents[n].stories|, name, id) == 1
  {
    forall run | 0 <= run < |agents[n].stories|
      ensures Legal(agents[n].stories[run])
    {
      StoriesAreLegal(agents, steps, n, run);
    }
    ShownIsQueued(agents[n].stories, name, id);
    if Legal(Shown(agents[n].stories, name, id)) { LegalIsQueuedOnce(Shown(agents[n].stories, name, id)); }
  }
}
