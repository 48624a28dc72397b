/**
 Enqueueing under an idempotency key (`enqueue_operation` in backend/app/services/operation_service.py), and the two
 callers that ask for the deletion of the VMs of assignments: the sweep over expired ones
 (backend/app/workers/cleanup_worker.py) and the closing of a lab run (backend/app/api/routers/classroom.py).
 */
module CleanupQueue {
  import opened Common
  import opened Decimals
  import opened OperationRecord

  // Where a request comes from; it determines the key. `uuid` is the random key of a request without one.
  datatype Origin =
    | Expiry(assignment: nat, vm: nat)
    | RunClose(run: nat, vm: nat)
    | Creation(vm: nat)
    | Anonymous(uuid: Text)

  function Key(o: Origin): Text {
    match o
    case Expiry(a, v) => "assignment-expire:" + (Decimal(a) + (":vm:" + Decimal(v)))
    case RunClose(r, v) => "lab-run-close:" + (Decimal(r) + (":vm:" + Decimal(v)))
    case Creation(v) => "vm.create:" + Decimal(v)
    case Anonymous(uuid) => uuid
  }

  // A version 4 UUID is hexadecimal digits and hyphens.
  predicate Valid(o: Origin) {
    o.Anonymous? ==> o.uuid != "" && ':' !in o.uuid
  }

  lemma DigitsEndTogether(x: Text, y: Text, s: Text, t: Text)
    requires AllDigits(x) && AllDigits(y) && s != [] && t != [] && !IsDigit(s[0]) && !IsDigit(t[0])
    requires x + s == y + t
    ensures x == y && s == t
  {
    assert x == (x + s)[..|x|] && y == (y + t)[..|y|];
    assert s == (x + s)[|x|..] && t == (y + t)[|y|..];
    assert (x + s)[|x|] == s[0] && (y + t)[|y|] == t[0];
  }

  lemma TailsAreEqual(p: Text, s: Text, t: Text)
    requires p + s == p + t
    ensures s == t
  {
    assert s == (p + s)[|p|..] && t == (p + t)[|p|..];
  }

  lemma DecimalsDiffer(a: nat, b: nat)
    requires Decimal(a) == Decimal(b)
    ensures a == b
  {
    NumberOfDecimal(a);
    NumberOfDecimal(b);
  }

  lemma PairsDiffer(p: Text, a: nat, v: nat, b: nat, w: nat)
    requires p + (Decimal(a) + (":vm:" + Decimal(v))) == p + (Decimal(b) + (":vm:" + Decimal(w)))
    ensures a == b && v == w
  {
    TailsAreEqual(p, Decimal(a) + (":vm:" + Decimal(v)), Decimal(b) + (":vm:" + Decimal(w)));
    DigitsEndTogether(Decimal(a), Decimal(b), ":vm:" + Decimal(v), ":vm:" + Decimal(w));
    TailsAreEqual(":vm:", Decimal(v), Decimal(w));
    DecimalsDiffer(a, b);
    DecimalsDiffer(v, w);
  }

  function Letter(o: Origin): char {
    match o
    case Expiry(_, _) => 'a'
    case RunClose(_, _) => 'l'
    case Creation(_) => 'v'
    case Anonymous(_) => '-'
  }

  lemma KeyStarts(o: Origin)
    requires Valid(o)
    ensures o.Anonymous? <==> ':' !in Key(o)
    ensures !o.Anonymous? ==> |Key(o)| > 0 && Key(o)[0] == Letter(o)
  {
  }

  // Different requests have different keys, within one family and across them.
  lemma KeysAreInjective(o: Origin, p: Origin)
    requires Valid(o) && Valid(p) && Key(o) == Key(p)
    ensures o == p
  {
    KeyStarts(o);
    KeyStarts(p);
    match (o, p)
    case (Expiry(a, v), Expiry(b, w)) => PairsDiffer("assignment-expire:", a, v, b, w);
    case (RunClose(a, v), RunClose(b, w)) => PairsDiffer("lab-run-close:", a, v, b, w);
    case (Creation(v), Creation(w)) =>
      TailsAreEqual("vm.create:", Decimal(v), Decimal(w));
      DecimalsDiffer(v, w);
    case _ =>
  }

  // ---- the operations table

  datatype Request = Request(cause: Origin, op: OpType, vm: nat)

  datatype Entry = Entry(key: Text, request: Request, state: State)

  function Find(rows: seq<Entry>, key: Text): (r: Option<nat>)
    ensures r.Some? ==> r.value < |rows| && rows[r.value].key == key
    ensures r.None? <==> forall e | e in rows :: e.key != key
  {
    if rows == [] then None
    else
      assert rows == rows[..|rows| - 1] + [rows[|rows| - 1]];
      if rows[|rows| - 1].key == key then Some(|rows| - 1) else Find(rows[..|rows| - 1], key)
  }

  function Enqueued(rows: seq<Entry>, key: Text, request: Request): seq<Entry> {
    if Find(rows, key).Some? then rows else rows + [Entry(key, request, Queued)]
  }

  datatype Status = Assigned | Ready | ExpiredStatus | Revoked

  datatype Assignment = Assignment(run: nat, expiresAt: Option<int>, vm: Option<nat>, status: Status)

  predicate Due(a: Assignment, now: int) {
    a.expiresAt.Some? && a.expiresAt.value <= now && a.vm.Some? && a.status != Revoked
  }

  // An assignment, and its VM.
  datatype Target = Target(assignment: nat, vm: nat)

  predicate Listed(assignments: map<nat, Assignment>, d: Target, now: int) {
    d.assignment in assignments && Due(assignments[d.assignment], now) && assignments[d.assignment].vm == Some(d.vm)
  }

  // Who asks for deletions: the sweep, or the closing of a lab run.
  datatype Caller = Sweeper | Closing(run: nat)

  function CauseOf(who: Caller, d: Target): Origin {
    match who
    case Sweeper => Expiry(d.assignment, d.vm)
    case Closing(run) => RunClose(run, d.vm)
  }

  function Deletion(who: Caller, d: Target): Request {
    Request(CauseOf(who, d), VmDelete, d.vm)
  }

  function KeyOf(who: Caller, d: Target): Text {
    Key(CauseOf(who, d))
  }

  // The table after the deletions of the listed VMs were asked for, in order.
  function DeleteAll(rows: seq<Entry>, who: Caller, found: seq<Target>): seq<Entry> {
    if found == [] then rows
    else
      var d := found[|found| - 1];
      Enqueued(DeleteAll(rows, who, found[..|found| - 1]), KeyOf(who, d), Deletion(who, d))
  }

  predicate Mentions(found: seq<Target>, id: nat) {
    exists d | d in found :: d.assignment == id
  }

  function Closed(assignments: map<nat, Assignment>, found: seq<Target>): map<nat, Assignment> {
    map id | id in assignments ::
      if Mentions(found, id) then assignments[id].(status := ExpiredStatus) else assignments[id]
  }

  class Database {
    var operations: seq<Entry>
    var assignments: map<nat, Assignment>

    // A key given by the caller, or a random one; the row that already has the key is returned as it is.
    method EnqueueOperation(request: Request, given: Option<Text>, uuid: Text) returns (row: nat)
      modifies this`operations
      ensures var key := if given.Some? && given.value != "" then given.value else uuid;
        && operations == Enqueued(old(operations), key, request)
        && Find(operations, key) == Some(row)
    {
      var key := if given.Some? && given.value != "" then given.value else uuid;
      var existing := Find(operations, key);
      if existing.Some? { return existing.value; }
      operations := operations + [Entry(key, request, Queued)];
      return |operations| - 1;
    }

    // `run_once`, given the assignments its query lists; the count is of rows that are queued, new or not.
    method RunOnce(found: seq<Target>, now: int) returns (queued: nat)
      requires forall d | d in found :: Listed(assignments, d, now)
      modifies this
      ensures operations == DeleteAll(old(operations), Sweeper, found)
      ensures assignments == Closed(old(assignments), found)
      ensures queued == CountQueued(old(operations), found)
    {
      queued := 0;
      var i := 0;
      NobodyClosed(assignments);
      while i < |found|
        invariant 0 <= i <= |found|
        invariant operations == DeleteAll(old(operations), Sweeper, found[..i])
        invariant assignments == Closed(old(assignments), found[..i])
        invariant queued == CountQueued(old(operations), found[..i])
      {
        CloseNext(old(assignments), found[..i], found[i], now);
        SweepNext(old(operations), found, i);
        var one := ExpireAssignment(found[i]);
        queued := queued + one;
        i := i + 1;
      }
      assert found[..i] == found;
    }

    // One turn of the loop of `run_once`.
    method ExpireAssignment(d: Target) returns (one: nat)
      requires d.assignment in assignments
      modifies this`operations, this`assignments
      ensures operations == Enqueued(old(operations), KeyOf(Sweeper, d), Deletion(Sweeper, d))
      ensures one == Counted(operations, d)
      ensures assignments == old(assignments)[d.assignment := old(assignments)[d.assignment].(status := ExpiredStatus)]
    {
      assignments := assignments[d.assignment := assignments[d.assignment].(status := ExpiredStatus)];
      var row := EnqueueOperation(Deletion(Sweeper, d), Some(KeyOf(Sweeper, d)), "");
      one := if operations[row].state == Queued then 1 else 0;
    }
  }

  function Counted(rows: seq<Entry>, d: Target): nat {
    var r := Find(rows, KeyOf(Sweeper, d));
    if r.Some? && rows[r.value].state == Queued then 1 else 0
  }

  function CountQueued(rows: seq<Entry>, found: seq<Target>): nat {
    if found == [] then 0
    else
      CountQueued(rows, found[..|found| - 1]) + Counted(DeleteAll(rows, Sweeper, found), found[|found| - 1])
  }

  lemma SweepNext(rows: seq<Entry>, found: seq<Target>, i: nat)
    requires i < |found|
    ensures found[..i + 1] == found[..i] + [found[i]]
    ensures DeleteAll(rows, Sweeper, found[..i + 1])
      == Enqueued(DeleteAll(rows, Sweeper, found[..i]), KeyOf(Sweeper, found[i]), Deletion(Sweeper, found[i]))
    ensures CountQueued(rows, found[..i + 1])
      == CountQueued(rows, found[..i]) + Counted(DeleteAll(rows, Sweeper, found[..i + 1]), found[i])
  {
    assert found[..i + 1][..i] == found[..i];
  }

  lemma NobodyClosed(assignments: map<nat, Assignment>)
    ensures Closed(assignments, []) == assignments
  {
  }

  lemma CloseNext(assignments: map<nat, Assignment>, found: seq<Target>, d: Target, now: int)
    requires Listed(assignments, d, now)
    ensures var a := Closed(assignments, found);
      && d.assignment in a
      && Closed(assignments, found + [d]) == a[d.assignment := a[d.assignment].(status := ExpiredStatus)]
  {
    assert d in found + [d];
    forall id
      ensures Mentions(found + [d], id) <==> Mentions(found, id) || id == d.assignment
    {
      if e :| e in found && e.assignment == id { assert e in found + [d]; }
    }
  }
}
