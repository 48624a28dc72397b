/**
 Runs of sweeps, closings of lab runs, other requests, and workers changing states: which deletions a VM gets, and
 how many.
 */
module CleanupRuns {
  import opened Common
  import opened Decimals
  import opened OperationRecord
  import opened CleanupQueue

  datatype Tables = Tables(operations: seq<Entry>, assignments: map<nat, Assignment>)

  // `Ask` is any other request: the creation of a VM, or one under a random key.
  datatype Step =
    | Sweep(found: seq<Target>, now: int)
    | CloseRun(run: nat, ended: bool, found: seq<Target>)
    | Ask(request: Request)
    | Work(row: nat, state: State)
    | Assign(id: nat, assignment: Assignment)

  predicate Open(a: Assignment, run: nat) {
    a.run == run && (a.status == Assigned || a.status == Ready)
  }

  predicate Matches(r: Request) {
    match r.cause
    case Expiry(_, vm) => r.op == VmDelete && r.vm == vm
    case RunClose(_, vm) => r.op == VmDelete && r.vm == vm
    case Creation(vm) => r.op == VmCreate && r.vm == vm
    case Anonymous(_) => true
  }

  ghost predicate Enabled(t: Tables, s: Step) {
    match s
    case Sweep(found, now) => forall d :: d in found <==> Listed(t.assignments, d, now)
    case CloseRun(run, _, found) =>
      forall d :: d in found <==>
        && d.assignment in t.assignments && Open(t.assignments[d.assignment], run)
        && t.assignments[d.assignment].vm == Some(d.vm)
    case Ask(r) =>
      && Valid(r.cause) && Matches(r)
      && (r.cause.Creation? || (r.cause.Anonymous? && Find(t.operations, Key(r.cause)).None?))
    case Work(row, _) => row < |t.operations|
    case Assign(_, _) => true
  }

  function Do(t: Tables, s: Step): Tables
    requires Enabled(t, s)
  {
    match s
    case Sweep(found, now) => Tables(DeleteAll(t.operations, Sweeper, found), Closed(t.assignments, found))
    case CloseRun(run, ended, found) =>
      Tables(DeleteAll(t.operations, Closing(run), found),
             map id | id in t.assignments ::
               if Open(t.assignments[id], run) then
                 t.assignments[id].(status := if ended then ExpiredStatus else Revoked)
               else
                 t.assignments[id])
    case Ask(r) => t.(operations := Enqueued(t.operations, Key(r.cause), r))
    case Work(row, state) => t.(operations := t.operations[row := t.operations[row].(state := state)])
    case Assign(id, a) => t.(assignments := t.assignments[id := a])
  }

  ghost predicate Run(ts: seq<Tables>, steps: seq<Step>) {
    && |ts| == |steps| + 1 && ts[0].operations == []
    && forall i | 0 <= i < |steps| :: Enabled(ts[i], steps[i]) && ts[i + 1] == Do(ts[i], steps[i])
  }

  // ---- every row carries the key of its cause

  predicate Honest(e: Entry) {
    Valid(e.request.cause) && e.key == Key(e.request.cause) && Matches(e.request)
  }

  ghost predicate Sound(rows: seq<Entry>) {
    && (forall i, j | 0 <= i < j < |rows| :: rows[i].key != rows[j].key)
    && forall i | 0 <= i < |rows| :: Honest(rows[i])
  }

  lemma EnqueuedIsSound(rows: seq<Entry>, request: Request)
    requires Sound(rows) && Valid(request.cause) && Matches(request)
    ensures Sound(Enqueued(rows, Key(request.cause), request))
  {
  }

  lemma {:induction false} DeleteAllIsSound(rows: seq<Entry>, who: Caller, found: seq<Target>)
    requires Sound(rows)
    ensures Sound(DeleteAll(rows, who, found))
  {
    if found != [] {
      var n := |found| - 1;
      DeleteAllIsSound(rows, who, found[..n]);
      EnqueuedIsSound(DeleteAll(rows, who, found[..n]), Deletion(who, found[n]));
    }
  }

  lemma WorkIsSound(rows: seq<Entry>, row: nat, state: State)
    requires Sound(rows) && row < |rows|
    ensures Sound(rows[row := rows[row].(state := state)])
  {
    assert Honest(rows[row]);
  }

  lemma {:induction false} RunIsSound(ts: seq<Tables>, steps: seq<Step>, n: nat)
    requires Run(ts, steps) && n < |ts|
    ensures Sound(ts[n].operations)
  {
    if n > 0 {
      RunIsSound(ts, steps, n - 1);
      var t := ts[n - 1];
      assert Enabled(t, steps[n - 1]);
      match steps[n - 1]
      case Sweep(found, now) => DeleteAllIsSound(t.operations, Sweeper, found);
      case CloseRun(run, ended, found) => DeleteAllIsSound(t.operations, Closing(run), found);
      case Ask(r) => EnqueuedIsSound(t.operations, r);
      case Work(row, state) => WorkIsSound(t.operations, row, state);
      case Assign(id, a) =>
    }
  }

  // ---- which deletions a VM gets

  predicate Deletes(r: Request, vm: nat) {
    r.op == VmDelete && r.vm == vm
  }

  // The number of deletions of a VM in the table.
  function Deletions(rows: seq<Entry>, vm: nat): nat {
    if rows == [] then 0
    else Deletions(rows[..|rows| - 1], vm) + if Deletes(rows[|rows| - 1].request, vm) then 1 else 0
  }

  // And their causes.
  function Causes(rows: seq<Entry>, vm: nat): set<Origin> {
    if rows == [] then {}
    else
      Causes(rows[..|rows| - 1], vm)
      + if Deletes(rows[|rows| - 1].request, vm) then {rows[|rows| - 1].request.cause} else {}
  }

  lemma {:induction false} CauseHasRow(rows: seq<Entry>, vm: nat, o: Origin)
    ensures o in Causes(rows, vm) <==>
            exists i :: 0 <= i < |rows| && Deletes(rows[i].request, vm) && rows[i].request.cause == o
  {
    if rows != [] {
      var n := |rows| - 1;
      CauseHasRow(rows[..n], vm, o);
      if i :| 0 <= i < |rows| && Deletes(rows[i].request, vm) && rows[i].request.cause == o {
        if i < n { assert rows[..n][i] == rows[i]; }
      }
    }
  }

  lemma CausesDiffer(rows: seq<Entry>, i: nat, j: nat)
    requires Sound(rows) && i < j < |rows|
    ensures rows[i].request.cause != rows[j].request.cause
  {
    assert Honest(rows[i]) && Honest(rows[j]);
  }

  lemma {:induction false} EveryDeletionHasItsCause(rows: seq<Entry>, vm: nat)
    requires Sound(rows)
    ensures Deletions(rows, vm) == |Causes(rows, vm)|
  {
    if rows != [] {
      var n := |rows| - 1;
      EveryDeletionHasItsCause(rows[..n], vm);
      CauseHasRow(rows[..n], vm, rows[n].request.cause);
      forall i | 0 <= i < n
        ensures rows[..n][i].request.cause != rows[n].request.cause
      {
        CausesDiffer(rows, i, n);
      }
    }
  }

  lemma CausesOfEnqueued(rows: seq<Entry>, request: Request, vm: nat)
    requires Sound(rows) && Valid(request.cause) && Matches(request)
    requires request.cause.Anonymous? ==> Find(rows, Key(request.cause)).None?
    ensures Causes(Enqueued(rows, Key(request.cause), request), vm)
      == Causes(rows, vm) + if Deletes(request, vm) then {request.cause} else {}
  {
    var found := Find(rows, Key(request.cause));
    if found.Some? {
      var e := rows[found.value];
      assert Honest(e);
      KeysAreInjective(e.request.cause, request.cause);
      CauseHasRow(rows, vm, request.cause);
    } else {
      assert (rows + [Entry(Key(request.cause), request, Queued)])[..|rows|] == rows;
    }
  }

  // What a caller's list asks for, of one VM.
  function AskedBy(who: Caller, found: seq<Target>, vm: nat): set<Origin> {
    set d | d in found && d.vm == vm :: CauseOf(who, d)
  }

  lemma AskedByNext(who: Caller, found: seq<Target>, d: Target, vm: nat)
    ensures AskedBy(who, found + [d], vm) == AskedBy(who, found, vm) + if d.vm == vm then {CauseOf(who, d)} else {}
  {
    forall o
      ensures o in AskedBy(who, found + [d], vm)
        <==> o in AskedBy(who, found, vm) || (d.vm == vm && o == CauseOf(who, d))
    {
      if d.vm == vm { assert d in found + [d]; }
      if e :| e in found && e.vm == vm && CauseOf(who, e) == o { assert e in found + [d]; }
    }
  }

  lemma {:induction false} CausesOfDeleteAll(rows: seq<Entry>, who: Caller, found: seq<Target>, vm: nat)
    requires Sound(rows)
    ensures Causes(DeleteAll(rows, who, found), vm) == Causes(rows, vm) + AskedBy(who, found, vm)
  {
    if found != [] {
      var n := |found| - 1;
      var rest, last := found[..n], found[n];
      assert found == rest + [last];
      CausesOfDeleteAll(rows, who, rest, vm);
      DeleteAllIsSound(rows, who, rest);
      CausesOfEnqueued(DeleteAll(rows, who, rest), Deletion(who, last), vm);
      AskedByNext(who, rest, last, vm);
    }
  }

  // What a step asks for, of one VM.
  function Asks(s: Step, vm: nat): set<Origin> {
    match s
    case Sweep(found, _) => AskedBy(Sweeper, found, vm)
    case CloseRun(run, _, found) => AskedBy(Closing(run), found, vm)
    case Ask(r) => if Deletes(r, vm) then {r.cause} else {}
    case _ => {}
  }

  function AskedFor(steps: seq<Step>, vm: nat, n: nat): set<Origin>
    requires n <= |steps|
  {
    if n == 0 then {} else AskedFor(steps, vm, n - 1) + Asks(steps[n - 1], vm)
  }

  lemma {:induction false} CausesOfWork(rows: seq<Entry>, row: nat, state: State, vm: nat)
    requires row < |rows|
    ensures Causes(rows[row := rows[row].(state := state)], vm) == Causes(rows, vm)
  {
    var n := |rows| - 1;
    var rows' := rows[row := rows[row].(state := state)];
    if row < n {
      assert rows'[..n] == rows[..n][row := rows[row].(state := state)];
      CausesOfWork(rows[..n], row, state, vm);
    } else {
      assert rows'[..n] == rows[..n];
    }
  }

  // A VM has a deletion for exactly the causes that were ever asked for.
  lemma {:induction false} CausesAreAskedFor(ts: seq<Tables>, steps: seq<Step>, vm: nat, n: nat)
    requires Run(ts, steps) && n < |ts|
    ensures Causes(ts[n].operations, vm) == AskedFor(steps, vm, n)
  {
    if n > 0 {
      CausesAreAskedFor(ts, steps, vm, n - 1);
      RunIsSound(ts, steps, n - 1);
      var t := ts[n - 1];
      assert Enabled(t, steps[n - 1]);
      match steps[n - 1]
      case Sweep(found, now) => CausesOfDeleteAll(t.operations, Sweeper, found, vm);
      case CloseRun(run, ended, found) => CausesOfDeleteAll(t.operations, Closing(run), found, vm);
      case Ask(r) => CausesOfEnqueued(t.operations, r, vm);
      case Work(row, state) => CausesOfWork(t.operations, row, state, vm);
      case Assign(id, a) =>
    }
  }

  // The assignments the sweep has listed with the VM, the lab runs closed while one of theirs had it, and the deletions
  // asked for without a key.
  function Expired(steps: seq<Step>, vm: nat, n: nat): set<nat>
    requires n <= |steps|
  {
    set o | o in AskedFor(steps, vm, n) && o.Expiry? :: o.assignment
  }

  function ClosedRuns(steps: seq<Step>, vm: nat, n: nat): set<nat>
    requires n <= |steps|
  {
    set o | o in AskedFor(steps, vm, n) && o.RunClose? :: o.run
  }

  function Unkeyed(steps: seq<Step>, vm: nat, n: nat): set<Text>
    requires n <= |steps|
  {
    set o | o in AskedFor(steps, vm, n) && o.Anonymous? :: o.uuid
  }

  // A cause of a deletion of `vm` is of that VM, and is not the creation of one.
  predicate CauseFor(o: Origin, vm: nat) {
    match o
    case Expiry(_, v) => v == vm
    case RunClose(_, v) => v == vm
    case Creation(_) => false
    case Anonymous(_) => true
  }

  lemma {:induction false} AskedForFits(ts: seq<Tables>, steps: seq<Step>, vm: nat, n: nat)
    requires Run(ts, steps) && n <= |steps|
    ensures forall o | o in AskedFor(steps, vm, n) :: CauseFor(o, vm)
  {
    if n > 0 {
      AskedForFits(ts, steps, vm, n - 1);
      assert Enabled(ts[n - 1], steps[n - 1]);
    }
  }

  lemma {:induction false} SplitCauses(causes: set<Origin>, vm: nat)
    requires forall o | o in causes :: CauseFor(o, vm)
    ensures |causes| == |set o | o in causes && o.Expiry? :: o.assignment|
      + |set o | o in causes && o.RunClose? :: o.run| + |set o | o in causes && o.Anonymous? :: o.uuid|
    decreases |causes|
  {
    var a, r, u := set o | o in causes && o.Expiry? :: o.assignment, set o | o in causes && o.RunClose? :: o.run,
      set o | o in causes && o.Anonymous? :: o.uuid;
    if causes == {} {
      assert a == {} && r == {} && u == {};
    } else {
      var o :| o in causes;
      var rest := causes - {o};
      SplitCauses(rest, vm);
      var a', r', u' := set p | p in rest && p.Expiry? :: p.assignment, set p | p in rest && p.RunClose? :: p.run,
        set p | p in rest && p.Anonymous? :: p.uuid;
      match o {
        case Expiry(x, _) => assert a == a' + {x} && x !in a' && r == r' && u == u';
        case RunClose(x, _) => assert r == r' + {x} && x !in r' && a == a' && u == u';
        case Anonymous(x) => assert u == u' + {x} && x !in u' && a == a' && r == r';
        case Creation(_) => assert false;
      }
    }
  }

  // The deletions a VM gets: one for every assignment the sweep found expired with it, one for every lab run closed
  // while an assignment of it had the VM, and those asked for without a key. Nothing else, however often anything is
  // repeated.
  lemma DeletionsAreCounted(ts: seq<Tables>, steps: seq<Step>, vm: nat, n: nat)
    requires Run(ts, steps) && n < |ts|
    ensures Deletions(ts[n].operations, vm)
      == |Expired(steps, vm, n)| + |ClosedRuns(steps, vm, n)| + |Unkeyed(steps, vm, n)|
  {
    RunIsSound(ts, steps, n);
    EveryDeletionHasItsCause(ts[n].operations, vm);
    CausesAreAskedFor(ts, steps, vm, n);
    AskedForFits(ts, steps, vm, n);
    SplitCauses(AskedFor(steps, vm, n), vm);
  }

  lemma SizeOfUnion(a: set<Origin>, b: set<Origin>)
    ensures |a + b| == |a| + |b - a|
  {
    assert a + b == a + (b - a);
  }

  // A sweep gives a VM that is due one more deletion exactly if it has not asked for that assignment and VM before.
  lemma SweepAdds(ts: seq<Tables>, steps: seq<Step>, n: nat, d: Target)
    requires Run(ts, steps) && n < |steps| && steps[n].Sweep? && d in steps[n].found
    requires forall e | e in steps[n].found && e.vm == d.vm :: e == d
    ensures Deletions(ts[n + 1].operations, d.vm)
      == Deletions(ts[n].operations, d.vm) + if d.assignment in Expired(steps, d.vm, n) then 0 else 1
  {
    RunIsSound(ts, steps, n);
    RunIsSound(ts, steps, n + 1);
    EveryDeletionHasItsCause(ts[n].operations, d.vm);
    EveryDeletionHasItsCause(ts[n + 1].operations, d.vm);
    CausesAreAskedFor(ts, steps, d.vm, n);
    CausesAreAskedFor(ts, steps, d.vm, n + 1);
    AskedForFits(ts, steps, d.vm, n);
    var before, o := AskedFor(steps, d.vm, n), Expiry(d.assignment, d.vm);
    assert Asks(steps[n], d.vm) == {o};
    assert o in before <==> d.assignment in Expired(steps, d.vm, n);
    SizeOfUnion(before, {o});
  }

  // One VM can get two deletions: a lab run is closed, and the sweep finds the same assignment expired.
  lemma TwoDeletions() returns (ts: seq<Tables>, steps: seq<Step>)
    ensures Run(ts, steps) && Deletions(ts[|steps|].operations, 9) == 2
  {
    var s0 := Assign(1, Assignment(3, Some(5), Some(9), Ready));
    var s1, s2 := CloseRun(3, true, [Target(1, 9)]), Sweep([Target(1, 9)], 10);
    var t1 := Do(Tables([], map[]), s0);
    CanClose(t1);
    CanSweep(Do(t1, s1));
    ts, steps := ThreeSteps(Tables([], map[]), s0, s1, s2);
    TwoCauses(steps);
    CountCauses(ts, steps, 9);
  }

  lemma CountCauses(ts: seq<Tables>, steps: seq<Step>, vm: nat)
    requires Run(ts, steps)
    ensures Deletions(ts[|steps|].operations, vm) == |AskedFor(steps, vm, |steps|)|
  {
    RunIsSound(ts, steps, |steps|);
    EveryDeletionHasItsCause(ts[|steps|].operations, vm);
    CausesAreAskedFor(ts, steps, vm, |steps|);
  }

  lemma CanClose(t: Tables)
    requires t.assignments == map[1 := Assignment(3, Some(5), Some(9), Ready)]
    ensures Enabled(t, CloseRun(3, true, [Target(1, 9)]))
    ensures Do(t, CloseRun(3, true, [Target(1, 9)])).assignments
              == map[1 := Assignment(3, Some(5), Some(9), ExpiredStatus)]
  {
    assert Target(1, 9) in [Target(1, 9)];
  }

  lemma CanSweep(t: Tables)
    requires t.assignments == map[1 := Assignment(3, Some(5), Some(9), ExpiredStatus)]
    ensures Enabled(t, Sweep([Target(1, 9)], 10))
  {
    assert Target(1, 9) in [Target(1, 9)];
  }

  lemma ThreeSteps(t: Tables, s0: Step, s1: Step, s2: Step) returns (ts: seq<Tables>, steps: seq<Step>)
    requires t.operations == [] && Enabled(t, s0) && Enabled(Do(t, s0), s1) && Enabled(Do(Do(t, s0), s1), s2)
    ensures Run(ts, steps) && steps == [s0, s1, s2]
  {
    ts, steps := [t, Do(t, s0), Do(Do(t, s0), s1), Do(Do(Do(t, s0), s1), s2)], [s0, s1, s2];
  }

  lemma AskedByOne(who: Caller, d: Target)
    ensures AskedBy(who, [d], d.vm) == {CauseOf(who, d)}
  {
    assert d in [d];
  }

  lemma TwoCauses(steps: seq<Step>)
    requires |steps| == 3 && steps[0].Assign?
    requires steps[1] == CloseRun(3, true, [Target(1, 9)]) && steps[2] == Sweep([Target(1, 9)], 10)
    ensures AskedFor(steps, 9, 3) == {RunClose(3, 9), Expiry(1, 9)}
  {
    AskedByOne(Closing(3), Target(1, 9));
    AskedByOne(Sweeper, Target(1, 9));
    assert AskedFor(steps, 9, 1) == {};
    assert AskedFor(steps, 9, 2) == {RunClose(3, 9)};
  }

  // ---- what the sweep asks for

  // The deletion the sweep asks for is in the table, once.
  ghost predicate HasOneFor(rows: seq<Entry>, d: Target) {
    exists i :: IsOnlyFor(rows, i, d)
  }

  ghost predicate IsOnlyFor(rows: seq<Entry>, i: nat, d: Target) {
    && i < |rows| && rows[i].request == Deletion(Sweeper, d)
    && forall j | 0 <= j < |rows| && rows[j].request == Deletion(Sweeper, d) :: j == i
  }

  // However often the sweep runs, an assignment and its VM get one deletion from it at most.
  lemma AtMostOneFromTheSweep(ts: seq<Tables>, steps: seq<Step>, n: nat, d: Target, i: nat, j: nat)
    requires Run(ts, steps) && n < |ts| && i < |ts[n].operations| && j < |ts[n].operations|
    requires ts[n].operations[i].request == Deletion(Sweeper, d) && ts[n].operations[j].request == Deletion(Sweeper, d)
    ensures i == j
  {
    RunIsSound(ts, steps, n);
    assert Honest(ts[n].operations[i]) && Honest(ts[n].operations[j]);
  }

  lemma {:induction false} DeleteAllKeepsRows(rows: seq<Entry>, who: Caller, found: seq<Target>)
    ensures rows <= DeleteAll(rows, who, found)
  {
    if found != [] { DeleteAllKeepsRows(rows, who, found[..|found| - 1]); }
  }

  // After a sweep every assignment that was due has its deletion, and exactly one from the sweep.
  lemma SweepAsksForEveryDeletion(ts: seq<Tables>, steps: seq<Step>, n: nat, d: Target)
    requires Run(ts, steps) && n < |steps| && steps[n].Sweep? && Listed(ts[n].assignments, d, steps[n].now)
    ensures HasOneFor(ts[n + 1].operations, d)
  {
    assert Enabled(ts[n], steps[n]);
    var rows := ts[n + 1].operations;
    RunIsSound(ts, steps, n + 1);
    CausesAreAskedFor(ts, steps, d.vm, n + 1);
    assert CauseOf(Sweeper, d) in Asks(steps[n], d.vm);
    CauseHasRow(rows, d.vm, CauseOf(Sweeper, d));
    var i: nat :| i < |rows| && Deletes(rows[i].request, d.vm) && rows[i].request.cause == CauseOf(Sweeper, d);
    forall j | 0 <= j < |rows| && rows[j].request == Deletion(Sweeper, d)
      ensures j == i
    {
      AtMostOneFromTheSweep(ts, steps, n + 1, d, i, j);
    }
    assert IsOnlyFor(rows, i, d);
  }

  // Closing a lab run ends its assigned and ready assignments, and asks for a deletion of every VM among them; it
  // leaves every other assignment as it is.
  lemma ClosingEndsAssignments(ts: seq<Tables>, steps: seq<Step>, n: nat, id: nat)
    requires Run(ts, steps) && n < |steps| && steps[n].CloseRun? && id in ts[n].assignments
    ensures id in ts[n + 1].assignments
    ensures var a, a' := ts[n].assignments[id], ts[n + 1].assignments[id];
            if a.run == steps[n].run && (a.status == Assigned || a.status == Ready) then
              && a' == a.(status := if steps[n].ended then ExpiredStatus else Revoked)
              && (a.vm.Some? ==> RunClose(a.run, a.vm.value) in Causes(ts[n + 1].operations, a.vm.value))
            else
              a' == a
  {
    assert Enabled(ts[n], steps[n]);
    var a := ts[n].assignments[id];
    if a.vm.Some? && Open(a, steps[n].run) {
      CausesAreAskedFor(ts, steps, a.vm.value, n + 1);
      assert Target(id, a.vm.value) in steps[n].found;
      assert CauseOf(Closing(a.run), Target(id, a.vm.value)) in Asks(steps[n], a.vm.value);
    }
  }

  // A sweep ends the assignments with a VM whose time is up and which were not revoked, and asks for a deletion of each
  // of their VMs; it leaves every other assignment as it is.
  lemma SweepEndsAssignments(ts: seq<Tables>, steps: seq<Step>, n: nat, id: nat)
    requires Run(ts, steps) && n < |steps| && steps[n].Sweep? && id in ts[n].assignments
    ensures id in ts[n + 1].assignments
    ensures var a, a' := ts[n].assignments[id], ts[n + 1].assignments[id];
            if a.vm.Some? && a.status != Revoked && a.expiresAt.Some? && a.expiresAt.value <= steps[n].now then
              && a' == a.(status := ExpiredStatus)
              && Expiry(id, a.vm.value) in Causes(ts[n + 1].operations, a.vm.value)
            else
              a' == a
  {
    assert Enabled(ts[n], steps[n]);
    var a := ts[n].assignments[id];
    if a.vm.Some? {
      var d := Target(id, a.vm.value);
      assert Listed(ts[n].assignments, d, steps[n].now) <==> Due(a, steps[n].now);
      if Due(a, steps[n].now) {
        CausesAreAskedFor(ts, steps, d.vm, n + 1);
        assert CauseOf(Sweeper, d) in Asks(steps[n], d.vm);
      }
    }
  }

  lemma {:induction false} RowsStay(ts: seq<Tables>, steps: seq<Step>, i: nat, j: nat, k: nat)
    requires Run(ts, steps) && i <= j < |ts| && k < |ts[i].operations|
    ensures k < |ts[j].operations| && ts[j].operations[k].(state := Queued) == ts[i].operations[k].(state := Queued)
  {
    if i < j {
      RowsStay(ts, steps, i, j - 1, k);
      var t := ts[j - 1];
      assert Enabled(t, steps[j - 1]);
      if steps[j - 1].Sweep? { DeleteAllKeepsRows(t.operations, Sweeper, steps[j - 1].found); }
      if steps[j - 1].CloseRun? { DeleteAllKeepsRows(t.operations, Closing(steps[j - 1].run), steps[j - 1].found); }
    }
  }

  // A request once made stays and is the only row with its key for ever: it is never made again, not even after it
  // failed.
  lemma AskedOnceForEver(ts: seq<Tables>, steps: seq<Step>, i: nat, j: nat, k: nat)
    requires Run(ts, steps) && i <= j < |ts| && k < |ts[i].operations|
    ensures k < |ts[j].operations| && ts[j].operations[k].request == ts[i].operations[k].request
    ensures forall m | 0 <= m < |ts[j].operations| && m != k :: ts[j].operations[m].key != ts[i].operations[k].key
  {
    RowsStay(ts, steps, i, j, k);
    RunIsSound(ts, steps, j);
    assert ts[j].operations[k].key == ts[i].operations[k].key;
  }

  lemma {:induction false} DeleteAllReaches(rows: seq<Entry>, who: Caller, found: seq<Target>, d: Target)
    requires d in found
    ensures Find(DeleteAll(rows, who, found), KeyOf(who, d)).Some?
  {
    var n := |found| - 1;
    assert found == found[..n] + [found[n]];
    if d in found[..n] { DeleteAllReaches(rows, who, found[..n], d); }
    EnqueuedHasKey(DeleteAll(rows, who, found[..n]), KeyOf(who, found[n]), Deletion(who, found[n]), KeyOf(who, d));
  }

  lemma EnqueuedHasKey(rows: seq<Entry>, key: Text, request: Request, other: Text)
    ensures Find(Enqueued(rows, key, request), other).Some? <==> Find(rows, other).Some? || other == key
  {
  }

  // A sweep right after a sweep adds nothing.
  lemma {:induction false} SweepTwice(rows: seq<Entry>, who: Caller, found: seq<Target>, again: seq<Target>)
    requires forall d | d in again :: d in found
    ensures DeleteAll(DeleteAll(rows, who, found), who, again) == DeleteAll(rows, who, found)
  {
    if again != [] {
      var n := |again| - 1;
      assert again[n] in again;
      SweepTwice(rows, who, found, again[..n]);
      DeleteAllReaches(rows, who, found, again[n]);
    }
  }
}
