/**
 Remote sessions: the transition table, the service that moves rows along it, its sweeps, and reconnecting with a token
 (backend/app/architecture/state_machines.py, backend/app/services/session_service.py).
 Rows are kept in a map by id; every clock read of the source is a parameter.
 */
module SessionMachine {
  import opened Common
  import opened ReplayStore

  datatype State = LAUNCHING | ACTIVE | DISCONNECTED | RECONNECTING | EXPIRED | FAILED

  function Transitions(s: State): set<State> {
    match s
    case LAUNCHING => {ACTIVE, FAILED}
    case ACTIVE => {DISCONNECTED, EXPIRED}
    case DISCONNECTED => {RECONNECTING, EXPIRED}
    case RECONNECTING => {ACTIVE, FAILED}
    case EXPIRED => {}
    case FAILED => {}
  }

  datatype Times = Times(launched: Option<real>, disconnected: Option<real>, expired: Option<real>,
      failed: Option<real>)

  datatype Session = Session(
    protocol: nat, state: State, createdAt: real, updatedAt: real, heartbeatAt: Option<real>, times: Times,
    reason: Option<string>)

  type Rows = map<nat, Session>

  function Launched(protocol: nat, now: real): Session {
    Session(protocol, LAUNCHING, now, now, None, Times(None, None, None, None), None)
  }

  // ---- specification of the operations on rows

  function Stamped(t: Times, to: State, now: real): Times {
    match to
    case ACTIVE => t.(launched := Some(now))
    case DISCONNECTED => t.(disconnected := Some(now))
    case EXPIRED => t.(expired := Some(now))
    case FAILED => t.(failed := Some(now))
    case _ => t
  }

  function Moved(s: Session, to: State, reason: Option<string>, now: real): Session {
    if to !in Transitions(s.state) then s
    else
      var why := if to == FAILED then reason else s.reason;
      s.(state := to, updatedAt := now, times := Stamped(s.times, to, now), reason := why)
  }

  predicate CanMove(rows: Rows, id: nat, to: State) {
    id in rows && to in Transitions(rows[id].state)
  }

  function Marked(rows: Rows, id: nat, to: State, reason: Option<string>, now: real): Rows {
    if id in rows then rows[id := Moved(rows[id], to, reason, now)] else rows
  }

  predicate Final(s: State) {
    s == EXPIRED || s == FAILED
  }

  function Beat(s: Session, next: Option<State>, moveAt: real, beatAt: real): Session {
    if Final(s.state) then s
    else
      var moved := if next.Some? then Moved(s, next.value, None, moveAt) else s;
      moved.(heartbeatAt := Some(beatAt), updatedAt := beatAt)
  }

  // The presented token: None when its signature does not verify.
  datatype Reconnect = Reconnect(id: nat, token: Option<Claims>, uid: nat, verifyAt: real, stampAt: real,
      moveAt: real, activeAt: real)

  predicate Vouched(rows: Rows, r: Reconnect) {
    r.id in rows && r.token.Some? && Verifies(r.token.value, r.id, r.uid, rows[r.id].protocol, r.verifyAt)
  }

  predicate Unused(used: map<TokenId, int>, r: Reconnect)
    requires r.token.Some? && r.token.value.jti.Some?
  {
    r.token.value.jti.value !in Retained(used, r.stampAt.Floor)
  }

  predicate Reconnects(rows: Rows, used: map<TokenId, int>, r: Reconnect) {
    Vouched(rows, r) && Unused(used, r) && rows[r.id].state == DISCONNECTED
  }

  predicate Spends(rows: Rows, used: map<TokenId, int>, r: Reconnect) {
    Vouched(rows, r) && Unused(used, r)
  }

  // `reconnect` commits twice, and each commit may fail; the token is spent before the first.
  datatype Commits = NoneLands | FirstLands | BothLand

  function RowsEntered(rows: Rows, used: map<TokenId, int>, r: Reconnect): Rows {
    if Reconnects(rows, used, r) then Marked(rows, r.id, RECONNECTING, None, r.moveAt) else rows
  }

  function RowsAfterReconnect(rows: Rows, used: map<TokenId, int>, r: Reconnect, commits: Commits): Rows {
    if !Reconnects(rows, used, r) || commits.NoneLands? then rows
    else if commits.FirstLands? then RowsEntered(rows, used, r)
    else Marked(RowsEntered(rows, used, r), r.id, ACTIVE, None, r.activeAt)
  }

  function UsedAfterReconnect(rows: Rows, used: map<TokenId, int>, r: Reconnect): map<TokenId, int> {
    if !Vouched(rows, r) then used
    else if Unused(used, r) then Retained(used, r.stampAt.Floor)[r.token.value.jti.value := r.token.value.exp]
    else Retained(used, r.stampAt.Floor)
  }

  // A token brings back only the session it was issued for, for its user and protocol and in its time; and it does
  // bring that one back, once, if it is disconnected.
  lemma TokenOpensItsSession(rows: Rows, used: map<TokenId, int>, r: Reconnect, sid: nat, uid: nat, proto: nat,
      jti: TokenId, at: real, ttl: nat)
    requires r.token == Some(Issue(sid, uid, proto, jti, at, ttl))
    ensures r.id in rows && RowsAfterReconnect(rows, used, r, BothLand)[r.id] != rows[r.id] <==>
            && r.id in rows && r.id == sid && r.uid == uid && rows[r.id].protocol == proto
            && r.verifyAt < (at + ttl as real).Floor as real && jti !in Retained(used, r.stampAt.Floor)
            && rows[r.id].state == DISCONNECTED
  {
    IssuedForOne(sid, uid, proto, jti, at, ttl, r.id, r.uid, if r.id in rows then rows[r.id].protocol else proto,
      r.verifyAt);
  }

  // The filters of the three sweeps.
  datatype Sweep = Stale(cutoff: real) | Reconnecting(cutoff: real) | Stuck(cutoff: real)

  predicate Selected(s: Session, w: Sweep) {
    match w
    case Stale(c) => s.state in {ACTIVE, DISCONNECTED, RECONNECTING} && s.heartbeatAt.Some? && s.heartbeatAt.value < c
    case Reconnecting(c) => s.state == RECONNECTING && s.updatedAt < c
    case Stuck(c) => s.state == LAUNCHING && s.createdAt < c
  }

  function Target(w: Sweep): State {
    if w.Stuck? then FAILED else EXPIRED
  }

  function Why(w: Sweep): Option<string> {
    if w.Stuck? then Some("launch timeout") else None
  }

  function Swept(rows: Rows, w: Sweep, clock: nat -> real): Rows {
    map id | id in rows :: if Selected(rows[id], w) then Moved(rows[id], Target(w), Why(w), clock(id)) else rows[id]
  }

  function Ids(rows: Rows, w: Sweep): set<nat> {
    set id | id in rows && Selected(rows[id], w)
  }

  function Movers(rows: Rows, w: Sweep): set<nat> {
    set id | id in rows && Selected(rows[id], w) && Target(w) in Transitions(rows[id].state)
  }

  // ---- the service

  class SessionService {
    var rows: Rows
    const replayStore: InMemoryReplayStore

    constructor (store: InMemoryReplayStore)
      ensures rows == map[] && replayStore == store
    {
      rows := map[];
      replayStore := store;
    }

    method SetState(id: nat, next: State, reason: Option<string>, now: real) returns (ok: bool)
      requires id in rows
      modifies this`rows
      ensures ok <==> CanMove(old(rows), id, next)
      ensures rows == Marked(old(rows), id, next, reason, now)
    {
      var row := rows[id];
      if next !in Transitions(row.state) { return false; }
      row := row.(state := next);
      match next {
        case ACTIVE => row := row.(times := row.times.(launched := Some(now)));
        case DISCONNECTED => row := row.(times := row.times.(disconnected := Some(now)));
        case EXPIRED => row := row.(times := row.times.(expired := Some(now)));
        case FAILED => row := row.(times := row.times.(failed := Some(now)), reason := reason);
        case _ =>
      }
      rows := rows[id := row.(updatedAt := now)];
      return true;
    }

    method CreateLaunchingSession(id: nat, protocol: nat, now: real)
      requires id !in rows
      modifies this`rows
      ensures rows == old(rows)[id := Launched(protocol, now)]
    {
      rows := rows[id := Launched(protocol, now)];
    }

    // `mark_active`, `mark_failed`, `mark_disconnected`, `mark_reconnecting` and `mark_expired`
    method MarkState(id: nat, next: State, reason: Option<string>, now: real) returns (ok: bool)
      modifies this`rows
      ensures ok <==> CanMove(old(rows), id, next)
      ensures rows == Marked(old(rows), id, next, reason, now)
    {
      if id !in rows { return false; }
      ok := SetState(id, next, reason, now);
    }

    method Heartbeat(id: nat, next: Option<State>, moveAt: real, beatAt: real) returns (r: Option<Session>)
      modifies this`rows
      ensures rows == if id in old(rows) then old(rows)[id := Beat(old(rows)[id], next, moveAt, beatAt)] else old(rows)
      ensures r == if id in old(rows) && !Final(old(rows)[id].state) then Some(rows[id]) else None
    {
      if id !in rows { return None; }
      if rows[id].state == EXPIRED || rows[id].state == FAILED { return None; }
      if next.Some? {
        var _ := SetState(id, next.value, None, moveAt);
      }
      rows := rows[id := rows[id].(heartbeatAt := Some(beatAt), updatedAt := beatAt)];
      return Some(rows[id]);
    }

    method VerifyReconnect(r: Reconnect) returns (ok: bool)
      requires r.id in rows
      modifies replayStore
      ensures ok <==> Spends(rows, old(replayStore.usedUntil), r)
      ensures replayStore.usedUntil == UsedAfterReconnect(rows, old(replayStore.usedUntil), r)
    {
      if r.token.None? { return false; }
      var c := r.token.value;
      if c.exp as real <= r.verifyAt { return false; }
      if c.sid != r.id { return false; }
      if c.uid != r.uid { return false; }
      if c.proto != rows[r.id].protocol { return false; }
      if c.jti.None? { return false; }
      ok := replayStore.MarkUsed(c.jti.value, c.exp, r.stampAt.Floor);
    }

    // A session comes back only from DISCONNECTED, with a good token nobody used, and comes back ACTIVE if both commits
    // land; a good token is spent even when the state does not allow the reconnect, or a commit fails.
    method ReconnectSession(r: Reconnect, commits: Commits) returns (row: Result<Option<Session>, ()>)
      modifies this`rows, replayStore
      ensures var may := Reconnects(old(rows), old(replayStore.usedUntil), r);
              && (row.Err? <==> may && commits != BothLand)
              && (row.Ok? && row.value.Some? <==> may && commits == BothLand)
      ensures row.Ok? && row.value.Some? ==>
                r.id in rows && row.value.value == rows[r.id] && row.value.value.state == ACTIVE
      ensures rows == RowsAfterReconnect(old(rows), old(replayStore.usedUntil), r, commits)
      ensures replayStore.usedUntil == UsedAfterReconnect(old(rows), old(replayStore.usedUntil), r)
    {
      if r.id !in rows { return Ok(None); }
      var verified := VerifyReconnect(r);
      if !verified { return Ok(None); }
      var before := rows;
      var ok := MarkState(r.id, RECONNECTING, None, r.moveAt);
      if !ok { return Ok(None); }
      if commits.NoneLands? {
        rows := before;
        return Err(());
      }
      if commits.FirstLands? { return Err(()); }
      var _ := MarkState(r.id, ACTIVE, None, r.activeAt);
      return Ok(Some(rows[r.id]));
    }

    // `expire_stale_sessions`, `expire_reconnecting_sessions`, `fail_stuck_launching`, given the rows of the query.
    method SweepRows(found: seq<nat>, w: Sweep, clock: nat -> real) returns (count: nat)
      requires Lists(found, Ids(rows, w))
      modifies this`rows
      ensures rows == Swept(old(rows), w, clock)
      ensures count == |Movers(old(rows), w)|
    {
      count := MoveRows(found, Target(w), Why(w), clock);
      OneByOneIsSwept(old(rows), found, w, clock);
    }

    method MoveRows(found: seq<nat>, to: State, reason: Option<string>, clock: nat -> real) returns (count: nat)
      requires forall id | id in found :: id in rows
      modifies this`rows
      ensures (rows, count) == MovedOneByOne(old(rows), found, to, reason, clock)
    {
      count := 0;
      var i := 0;
      while i < |found|
        invariant 0 <= i <= |found|
        invariant rows.Keys == old(rows).Keys
        invariant (rows, count) == MovedOneByOne(old(rows), found[..i], to, reason, clock)
      {
        MoveNext(old(rows), found, i, to, reason, clock);
        count := MoveRow(found[i], to, reason, clock(found[i]), count);
        i := i + 1;
      }
      assert found[..i] == found;
    }

    // One turn of the loop of a sweep.
    method MoveRow(id: nat, to: State, reason: Option<string>, now: real, n: nat) returns (count: nat)
      requires id in rows
      modifies this`rows
      ensures (rows, count) == MovedOne((old(rows), n), id, to, reason, now)
    {
      var ok := SetState(id, to, reason, now);
      count := if ok then n + 1 else n;
    }

    // The end of a console connection (backend/app/services/guacamole_console.py): disconnected, or else failed.
    method SettleSession(id: nat, disconnectAt: real, failAt: real)
      modifies this`rows
      ensures rows == Settled(old(rows), id, disconnectAt, failAt)
    {
      var ok := MarkState(id, DISCONNECTED, None, disconnectAt);
      if !ok {
        var _ := MarkState(id, FAILED, Some(NOT_ACTIVE), failAt);
      }
    }
  }

  // `found` lists the members of `ids`, each of them once, in any order.
  ghost predicate Lists(found: seq<nat>, ids: set<nat>) {
    && (forall id | id in found :: id in ids)
    && (forall id | id in ids :: id in found)
    && (forall i, j | 0 <= i < j < |found| :: found[i] != found[j])
  }

  function MovedOne(so: (Rows, nat), id: nat, to: State, reason: Option<string>, now: real): (Rows, nat) {
    (Marked(so.0, id, to, reason, now), if CanMove(so.0, id, to) then so.1 + 1 else so.1)
  }

  function MovedOneByOne(rows: Rows, found: seq<nat>, to: State, reason: Option<string>, clock: nat -> real)
    : (Rows, nat)
    requires forall id | id in found :: id in rows
    ensures MovedOneByOne(rows, found, to, reason, clock).0.Keys == rows.Keys
  {
    if found == [] then (rows, 0)
    else
      var id := found[|found| - 1];
      MovedOne(MovedOneByOne(rows, found[..|found| - 1], to, reason, clock), id, to, reason, clock(id))
  }

  lemma MoveNext(rows: Rows, found: seq<nat>, i: nat, to: State, reason: Option<string>, clock: nat -> real)
    requires i < |found| && forall id | id in found :: id in rows
    ensures MovedOneByOne(rows, found[..i + 1], to, reason, clock)
      == MovedOne(MovedOneByOne(rows, found[..i], to, reason, clock), found[i], to, reason, clock(found[i]))
  {
    assert found[..i + 1][..i] == found[..i];
  }

  lemma {:induction false} MovedAt(rows: Rows, found: seq<nat>, w: Sweep, clock: nat -> real, id: nat)
    requires forall k | k in found :: k in rows
    requires forall i, j | 0 <= i < j < |found| :: found[i] != found[j]
    requires id in rows
    ensures MovedOneByOne(rows, found, Target(w), Why(w), clock).0[id]
      == if id in found then Moved(rows[id], Target(w), Why(w), clock(id)) else rows[id]
  {
    if found != [] {
      var rest, last := found[..|found| - 1], found[|found| - 1];
      MovedAt(rows, rest, w, clock, id);
      assert found == rest + [last] && last !in rest;
    }
  }

  ghost function Listed(movers: set<nat>, found: seq<nat>): set<nat> {
    set id | id in found && id in movers
  }

  lemma ListedStep(movers: set<nat>, rest: seq<nat>, last: nat)
    requires last !in rest
    ensures |Listed(movers, rest + [last])| == |Listed(movers, rest)| + if last in movers then 1 else 0
  {
    var before := Listed(movers, rest);
    assert Listed(movers, rest + [last]) == if last in movers then before + {last} else before;
  }

  lemma {:induction false} MovedCount(rows: Rows, found: seq<nat>, w: Sweep, clock: nat -> real)
    requires forall id | id in found :: id in rows && Selected(rows[id], w)
    requires forall i, j | 0 <= i < j < |found| :: found[i] != found[j]
    ensures MovedOneByOne(rows, found, Target(w), Why(w), clock).1 == |Listed(Movers(rows, w), found)|
  {
    if found == [] {
      assert Listed(Movers(rows, w), found) == {};
    } else {
      var rest, last := found[..|found| - 1], found[|found| - 1];
      MovedCount(rows, rest, w, clock);
      MovedAt(rows, rest, w, clock, last);
      assert found == rest + [last] && last !in rest;
      ListedStep(Movers(rows, w), rest, last);
      assert CanMove(MovedOneByOne(rows, rest, Target(w), Why(w), clock).0, last, Target(w))
          <==> last in Movers(rows, w);
    }
  }

  lemma OneByOneIsSwept(rows: Rows, found: seq<nat>, w: Sweep, clock: nat -> real)
    requires Lists(found, Ids(rows, w))
    ensures MovedOneByOne(rows, found, Target(w), Why(w), clock) == (Swept(rows, w, clock), |Movers(rows, w)|)
  {
    MovedCount(rows, found, w, clock);
    assert Listed(Movers(rows, w), found) == Movers(rows, w);
    var moved := MovedOneByOne(rows, found, Target(w), Why(w), clock).0;
    forall id | id in rows
      ensures moved[id] == Swept(rows, w, clock)[id]
    {
      MovedAt(rows, found, w, clock, id);
      assert id in found <==> Selected(rows[id], w);
    }
    assert moved == Swept(rows, w, clock);
  }

  const NOT_ACTIVE := "Connection ended before the remote session became active"

  function Settled(rows: Rows, id: nat, disconnectAt: real, failAt: real): Rows {
    if CanMove(rows, id, DISCONNECTED) then Marked(rows, id, DISCONNECTED, None, disconnectAt)
    else Marked(rows, id, FAILED, Some(NOT_ACTIVE), failAt)
  }

  // A settled console leaves nothing live behind; a launch that never became active has failed, and says why.
  lemma SettledIsOver(rows: Rows, id: nat, disconnectAt: real, failAt: real)
    requires id in rows
    ensures var s, s' := rows[id], Settled(rows, id, disconnectAt, failAt)[id];
      && s'.state in {DISCONNECTED, EXPIRED, FAILED}
      && (s'.state == DISCONNECTED <==> s.state in {ACTIVE, DISCONNECTED})
      && (s.state in {LAUNCHING, RECONNECTING} ==>
           && s'.state == FAILED && s'.times.failed == Some(failAt)
           && s'.reason == Some("Connection ended before the remote session became active"))
      && (s.state in {DISCONNECTED, EXPIRED, FAILED} ==> s' == s)
  {
  }

  // ---- whole runs

  // A reconnect that goes through is two operations with others in between: `ReconnectOp` up to its first commit, which
  // may fail, and then a `MarkOp` for ACTIVE, which may never come.
  datatype Op =
    | Create(id: nat, protocol: nat, now: real)
    | MarkOp(id: nat, to: State, reason: Option<string>, now: real)
    | BeatOp(id: nat, next: Option<State>, moveAt: real, beatAt: real)
    | ReconnectOp(r: Reconnect, lands: bool)
    | SweepOp(w: Sweep, clock: nat -> real)
    | SettleOp(id: nat, disconnectAt: real, failAt: real)

  datatype Service = Service(rows: Rows, used: map<TokenId, int>)

  predicate Legal(v: Service, op: Op) {
    op.Create? ==> op.id !in v.rows
  }

  function Do(v: Service, op: Op): Service {
    match op
    case Create(id, protocol, now) => v.(rows := v.rows[id := Launched(protocol, now)])
    case MarkOp(id, to, reason, now) => v.(rows := Marked(v.rows, id, to, reason, now))
    case BeatOp(id, next, moveAt, beatAt) =>
      if id in v.rows then v.(rows := v.rows[id := Beat(v.rows[id], next, moveAt, beatAt)]) else v
    case ReconnectOp(r, lands) =>
      Service(if lands then RowsEntered(v.rows, v.used, r) else v.rows, UsedAfterReconnect(v.rows, v.used, r))
    case SweepOp(w, clock) => v.(rows := Swept(v.rows, w, clock))
    case SettleOp(id, disconnectAt, failAt) => v.(rows := Settled(v.rows, id, disconnectAt, failAt))
  }

  ghost predicate History(vs: seq<Service>, ops: seq<Op>) {
    && |vs| == |ops| + 1 && vs[0] == Service(map[], map[])
    && forall i | 0 <= i < |ops| :: Legal(vs[i], ops[i]) && vs[i + 1] == Do(vs[i], ops[i])
  }

  // What `reconnect` does when nothing comes between its commits is these two operations, or the first of them.
  lemma ReconnectIsTwoOps(v: Service, r: Reconnect)
    requires Reconnects(v.rows, v.used, r)
    ensures var entered := Do(v, ReconnectOp(r, true));
            && RowsAfterReconnect(v.rows, v.used, r, NoneLands) == Do(v, ReconnectOp(r, false)).rows
            && RowsAfterReconnect(v.rows, v.used, r, FirstLands) == entered.rows
            && RowsAfterReconnect(v.rows, v.used, r, BothLand)
                 == Do(entered, MarkOp(r.id, ACTIVE, None, r.activeAt)).rows
            && RowsAfterReconnect(v.rows, v.used, r, BothLand)[r.id].state == ACTIVE
  {
  }

  // One operation takes a session over at most one edge of the table.
  lemma StepFollowsTable(v: Service, op: Op, id: nat)
    requires Legal(v, op) && id in v.rows
    ensures id in Do(v, op).rows
    ensures var a, b := v.rows[id].state, Do(v, op).rows[id].state; a == b || b in Transitions(a)
  {
  }

  // An expired or failed session is never written again, not even its heartbeat.
  lemma {:induction false} FinalIsForever(vs: seq<Service>, ops: seq<Op>, id: nat, i: nat, j: nat)
    requires History(vs, ops) && i <= j < |vs| && id in vs[i].rows && Final(vs[i].rows[id].state)
    ensures id in vs[j].rows && vs[j].rows[id] == vs[i].rows[id]
  {
    if i < j {
      FinalIsForever(vs, ops, id, i, j - 1);
      FinalStays(vs[j - 1], ops[j - 1], id);
    }
  }

  lemma FinalStays(v: Service, op: Op, id: nat)
    requires Legal(v, op) && id in v.rows && Final(v.rows[id].state)
    ensures id in Do(v, op).rows && Do(v, op).rows[id] == v.rows[id]
  {
  }

  // The dates and the failure reason of a row tell its state, and the other way round.
  predicate Dated(s: Session) {
    && (s.times.expired.Some? <==> s.state == EXPIRED)
    && (s.times.failed.Some? <==> s.state == FAILED)
    && (s.reason.Some? ==> s.state == FAILED)
    && (s.state == LAUNCHING ==> s.times.launched.None?)
    && (s.state in {ACTIVE, DISCONNECTED, RECONNECTING, EXPIRED} ==> s.times.launched.Some?)
    && (s.state in {DISCONNECTED, RECONNECTING} ==> s.times.disconnected.Some?)
    && (s.times.disconnected.Some? ==> s.times.launched.Some?)
  }

  ghost predicate AllDated(v: Service) {
    forall id | id in v.rows :: Dated(v.rows[id])
  }

  lemma {:induction false} EveryRowIsDated(vs: seq<Service>, ops: seq<Op>, n: nat)
    requires History(vs, ops) && n < |vs|
    ensures AllDated(vs[n])
  {
    if n > 0 {
      EveryRowIsDated(vs, ops, n - 1);
      var v, op := vs[n - 1], ops[n - 1];
      forall id | id in vs[n].rows
        ensures Dated(vs[n].rows[id])
      {
        if id in v.rows { DatedStays(v, op, id); }
      }
    }
  }

  lemma DatedStays(v: Service, op: Op, id: nat)
    requires Legal(v, op) && id in v.rows && Dated(v.rows[id])
    ensures id in Do(v, op).rows && Dated(Do(v, op).rows[id])
  {
  }

  // RECONNECTING has no edge to EXPIRED: the sweep for lost reconnects never changes a row and always counts zero.
  lemma ReconnectSweepIsIdle(rows: Rows, cutoff: real, clock: nat -> real)
    ensures Swept(rows, Reconnecting(cutoff), clock) == rows
    ensures Movers(rows, Reconnecting(cutoff)) == {}
  {
  }

  // No run of sweeps ever moves a reconnecting session, so one whose activation was lost keeps its state for ever.
  lemma {:induction false} ReconnectingIsNeverSwept(vs: seq<Service>, ops: seq<Op>, id: nat, i: nat, j: nat)
    requires History(vs, ops) && i <= j < |vs| && id in vs[i].rows && vs[i].rows[id].state == RECONNECTING
    requires forall k | i <= k < j :: ops[k].SweepOp?
    ensures id in vs[j].rows && vs[j].rows[id] == vs[i].rows[id]
  {
    if i < j { ReconnectingIsNeverSwept(vs, ops, id, i, j - 1); }
  }

  // What one sweep does to a row, state by state.
  lemma SweepMoves(rows: Rows, w: Sweep, clock: nat -> real, id: nat)
    requires id in rows
    ensures var s, s' := rows[id], Swept(rows, w, clock)[id];
      && (id in Movers(rows, w) <==> s'.state != s.state)
      && (id !in Movers(rows, w) ==> s' == s)
      && (id in Movers(rows, w) <==> match w
            case Stale(c) => s.state in {ACTIVE, DISCONNECTED} && s.heartbeatAt.Some? && s.heartbeatAt.value < c
            case Reconnecting(c) => false
            case Stuck(c) => s.state == LAUNCHING && s.createdAt < c)
  {
  }

  // ---- what the activations of a session were paid for with

  // An operation other than `reconnect` that asks for the state `to`.
  predicate Names(op: Op, id: nat, to: State) {
    || (op.MarkOp? && op.id == id && op.to == to)
    || (op.BeatOp? && op.id == id && op.next == Some(to))
  }

  // A heartbeat may name any state, and with RECONNECTING and ACTIVE it brings a session back without a token.
  lemma HeartbeatNeedsNoToken(v: Service, id: nat, a: real, b: real)
    requires id in v.rows && v.rows[id].state == DISCONNECTED
    ensures var v' := Do(v, BeatOp(id, Some(RECONNECTING), a, a));
      EntersByName(v, BeatOp(id, Some(RECONNECTING), a, a), id)
      && Do(v', BeatOp(id, Some(ACTIVE), b, b)).rows[id].state == ACTIVE
  {
  }

  predicate Is(v: Service, id: nat, state: State) {
    id in v.rows && v.rows[id].state == state
  }

  predicate Activates(v: Service, op: Op, id: nat) {
    !Is(v, id, ACTIVE) && Is(Do(v, op), id, ACTIVE)
  }

  // A disconnected session starts to come back: on a token, or because an operation other than `reconnect` says so.
  predicate EntersByToken(v: Service, op: Op, id: nat) {
    op.ReconnectOp? && op.r.id == id && op.lands && Reconnects(v.rows, v.used, op.r)
  }

  predicate EntersByName(v: Service, op: Op, id: nat) {
    Is(v, id, DISCONNECTED) && Names(op, id, RECONNECTING)
  }

  // A session that was coming back fails instead.
  predicate Loses(v: Service, op: Op, id: nat) {
    Is(v, id, RECONNECTING) && Is(Do(v, op), id, FAILED)
  }

  // How often something happened to the session in the first `n` operations.
  function Count(happens: (Service, Op) -> bool, vs: seq<Service>, ops: seq<Op>, n: nat): nat
    requires |vs| == |ops| + 1 && n <= |ops|
  {
    if n == 0 then 0 else Count(happens, vs, ops, n - 1) + if happens(vs[n - 1], ops[n - 1]) then 1 else 0
  }

  function Activations(vs: seq<Service>, ops: seq<Op>, id: nat, n: nat): nat
    requires |vs| == |ops| + 1 && n <= |ops|
  {
    Count((v: Service, op: Op) => Activates(v, op, id), vs, ops, n)
  }

  function NamedEntries(vs: seq<Service>, ops: seq<Op>, id: nat, n: nat): nat
    requires |vs| == |ops| + 1 && n <= |ops|
  {
    Count((v: Service, op: Op) => EntersByName(v, op, id), vs, ops, n)
  }

  function Losses(vs: seq<Service>, ops: seq<Op>, id: nat, n: nat): nat
    requires |vs| == |ops| + 1 && n <= |ops|
  {
    Count((v: Service, op: Op) => Loses(v, op, id), vs, ops, n)
  }

  // The tokens on which session `id` started to come back.
  function Paid(vs: seq<Service>, ops: seq<Op>, id: nat, n: nat): set<TokenId>
    requires |vs| == |ops| + 1 && n <= |ops|
  {
    if n == 0 then {}
    else
      var v, op := vs[n - 1], ops[n - 1];
      Paid(vs, ops, id, n - 1) + if EntersByToken(v, op, id) then {op.r.token.value.jti.value} else {}
  }

  // Presentations of one process, one after the other: every token is one that was issued, the clock does not go
  // back, and the two clock reads of one presentation are less than a second apart.
  ghost predicate Orderly(t: Tokens, ops: seq<Op>) {
    && (forall i | 0 <= i < |ops| && ops[i].ReconnectOp? :: PromptToken(t, ops[i].r))
    && (forall i, j | 0 <= i < j < |ops| && ops[i].ReconnectOp? && ops[j].ReconnectOp? ::
         ops[i].r.stampAt <= ops[j].r.verifyAt)
  }

  predicate PromptToken(t: Tokens, r: Reconnect) {
    && r.verifyAt <= r.stampAt < r.verifyAt + 1.0
    && (r.token.Some? && r.token.value.jti.Some? ==> r.token.value == t.Token(r.token.value.jti.value))
  }

  ghost predicate SpentBefore(vs: seq<Service>, ops: seq<Op>, id: TokenId, n: nat)
    requires |vs| == |ops| + 1 && n <= |ops|
  {
    exists i | 0 <= i < n :: SpendsAt(vs[i], ops[i], id)
  }

  predicate SpendsAt(v: Service, op: Op, id: TokenId) {
    op.ReconnectOp? && Spends(v.rows, v.used, op.r) && op.r.token.value.jti.value == id
  }

  // A spent token is in the store, or expired before the clock of some earlier presentation.
  lemma {:induction false} SpentIsRemembered(t: Tokens, vs: seq<Service>, ops: seq<Op>, id: TokenId, n: nat)
    requires History(vs, ops) && Orderly(t, ops) && n <= |ops| && SpentBefore(vs, ops, id, n)
    ensures (id in vs[n].used && vs[n].used[id] == t.Exp(id))
      || (exists i | 0 <= i < n :: ops[i].ReconnectOp? && t.Exp(id) < ops[i].r.stampAt.Floor)
    decreases n
  {
    if n > 0 {
      var v, op := vs[n - 1], ops[n - 1];
      assert vs[n] == Do(v, op);
      if SpendsAt(v, op, id) {
        assert PromptToken(t, op.r);
      } else {
        SpentIsRemembered(t, vs, ops, id, n - 1);
        if op.ReconnectOp? && t.Exp(id) < op.r.stampAt.Floor {
        } else if i :| 0 <= i < n - 1 && ops[i].ReconnectOp? && t.Exp(id) < ops[i].r.stampAt.Floor {
        } else {
          assert id in v.used && v.used[id] == t.Exp(id);
        }
      }
    }
  }

  lemma SpentOnce(t: Tokens, vs: seq<Service>, ops: seq<Op>, id: TokenId, n: nat)
    requires History(vs, ops) && Orderly(t, ops) && n < |ops| && SpentBefore(vs, ops, id, n)
    ensures !SpendsAt(vs[n], ops[n], id)
  {
    SpentIsRemembered(t, vs, ops, id, n);
  }

  lemma {:induction false} PaidWasSpent(vs: seq<Service>, ops: seq<Op>, id: nat, n: nat, k: TokenId)
    requires History(vs, ops) && n <= |ops| && k in Paid(vs, ops, id, n)
    ensures SpentBefore(vs, ops, k, n)
  {
    if EntersByToken(vs[n - 1], ops[n - 1], id) && k == ops[n - 1].r.token.value.jti.value {
      assert SpendsAt(vs[n - 1], ops[n - 1], k);
    } else {
      PaidWasSpent(vs, ops, id, n - 1, k);
    }
  }

  // The session has been active at least once.
  predicate Begun(v: Service, id: nat) {
    id in v.rows && v.rows[id].times.launched.Some?
  }

  function One(b: bool): nat {
    if b then 1 else 0
  }

  // What one operation adds to either side of the balance.
  lemma BalanceStep(v: Service, op: Op, id: nat)
    requires Legal(v, op) && (id in v.rows ==> Dated(v.rows[id]))
    ensures var v' := Do(v, op);
            One(Activates(v, op, id)) + One(Loses(v, op, id)) + One(Is(v', id, RECONNECTING)) + One(Begun(v, id))
              == One(EntersByToken(v, op, id)) + One(EntersByName(v, op, id)) + One(Is(v, id, RECONNECTING))
                  + One(Begun(v', id))
    ensures !Begun(Do(v, op), id) ==> !Begun(v, id) && !Activates(v, op, id) && !EntersByName(v, op, id)
  {
  }

  lemma PaidStep(t: Tokens, vs: seq<Service>, ops: seq<Op>, id: nat, n: nat)
    requires History(vs, ops) && Orderly(t, ops) && n < |ops|
    ensures |Paid(vs, ops, id, n + 1)| == |Paid(vs, ops, id, n)| + One(EntersByToken(vs[n], ops[n], id))
  {
    if EntersByToken(vs[n], ops[n], id) {
      var k := ops[n].r.token.value.jti.value;
      if k in Paid(vs, ops, id, n) {
        PaidWasSpent(vs, ops, id, n, k);
        SpentOnce(t, vs, ops, k, n);
      }
    }
  }

  // Every start of coming back, on a token of its own or by name, ends in an activation, in a failure, or is still
  // open; and but for the launch there are no other activations. A reconnect that stops after its first commit leaves
  // its start open, and whoever activates the session then does so on its token.
  lemma {:induction false} ActivationBalance(t: Tokens, vs: seq<Service>, ops: seq<Op>, id: nat, n: nat)
    requires History(vs, ops) && Orderly(t, ops) && n <= |ops|
    ensures Activations(vs, ops, id, n) + Losses(vs, ops, id, n) + One(Is(vs[n], id, RECONNECTING))
      == One(Begun(vs[n], id)) + |Paid(vs, ops, id, n)| + NamedEntries(vs, ops, id, n)
  {
    if n > 0 {
      ActivationBalance(t, vs, ops, id, n - 1);
      BalanceNext(t, vs, ops, id, n - 1);
    }
  }

  lemma BalanceNext(t: Tokens, vs: seq<Service>, ops: seq<Op>, id: nat, n: nat)
    requires History(vs, ops) && Orderly(t, ops) && n < |ops|
    ensures Activations(vs, ops, id, n + 1) + Losses(vs, ops, id, n + 1) + One(Is(vs[n + 1], id, RECONNECTING))
      + One(Begun(vs[n], id)) + |Paid(vs, ops, id, n)| + NamedEntries(vs, ops, id, n)
      == Activations(vs, ops, id, n) + Losses(vs, ops, id, n) + One(Is(vs[n], id, RECONNECTING))
      + One(Begun(vs[n + 1], id)) + |Paid(vs, ops, id, n + 1)| + NamedEntries(vs, ops, id, n + 1)
  {
    EveryRowIsDated(vs, ops, n);
    assert Legal(vs[n], ops[n]) && vs[n + 1] == Do(vs[n], ops[n]);
    BalanceStep(vs[n], ops[n], id);
    PaidStep(t, vs, ops, id, n);
    CountsNext(vs, ops, id, n);
  }

  lemma CountsNext(vs: seq<Service>, ops: seq<Op>, id: nat, n: nat)
    requires |vs| == |ops| + 1 && n < |ops|
    ensures Activations(vs, ops, id, n + 1) == Activations(vs, ops, id, n) + One(Activates(vs[n], ops[n], id))
    ensures NamedEntries(vs, ops, id, n + 1) == NamedEntries(vs, ops, id, n) + One(EntersByName(vs[n], ops[n], id))
    ensures Losses(vs, ops, id, n + 1) == Losses(vs, ops, id, n) + One(Loses(vs[n], ops[n], id))
  {
  }

  // Before its launch a session is not active, and does not come back.
  lemma {:induction false} NothingBeforeLaunch(vs: seq<Service>, ops: seq<Op>, id: nat, n: nat)
    requires History(vs, ops) && n <= |ops| && !Begun(vs[n], id)
    ensures Activations(vs, ops, id, n) == 0 && NamedEntries(vs, ops, id, n) == 0
  {
    if n > 0 {
      EveryRowIsDated(vs, ops, n - 1);
      assert Legal(vs[n - 1], ops[n - 1]) && vs[n] == Do(vs[n - 1], ops[n - 1]);
      BalanceStep(vs[n - 1], ops[n - 1], id);
      NothingBeforeLaunch(vs, ops, id, n - 1);
      CountsNext(vs, ops, id, n - 1);
    }
  }

  // Every activation after the first has a token of its own if and only if no more starts were made by name than were
  // lost or are still open; so where only `reconnect` asks for RECONNECTING, always.
  lemma ActivationsArePaidIff(t: Tokens, vs: seq<Service>, ops: seq<Op>, id: nat, n: nat)
    requires History(vs, ops) && Orderly(t, ops) && n <= |ops|
    ensures Activations(vs, ops, id, n) <= 1 + |Paid(vs, ops, id, n)| <==>
            NamedEntries(vs, ops, id, n) <= Losses(vs, ops, id, n) + One(Is(vs[n], id, RECONNECTING))
  {
    ActivationBalance(t, vs, ops, id, n);
    if !Begun(vs[n], id) { NothingBeforeLaunch(vs, ops, id, n); }
  }

  // A session that is coming back, and so every activation out of RECONNECTING, was put there by an earlier reconnect
  // whose first commit landed, or by an earlier operation that named RECONNECTING.
  lemma {:induction false} ComingBackWasAskedFor(vs: seq<Service>, ops: seq<Op>, id: nat, n: nat) returns (i: nat)
    requires History(vs, ops) && n <= |ops| && Is(vs[n], id, RECONNECTING)
    ensures i < n && (EntersByToken(vs[i], ops[i], id) || EntersByName(vs[i], ops[i], id))
    ensures forall k | i < k <= n :: Is(vs[k], id, RECONNECTING)
    decreases n
  {
    var v, op := vs[n - 1], ops[n - 1];
    assert Legal(v, op) && vs[n] == Do(v, op);
    if Is(v, id, RECONNECTING) {
      i := ComingBackWasAskedFor(vs, ops, id, n - 1);
    } else {
      EntryHasACause(v, op, id);
      i := n - 1;
    }
  }

  lemma EntryHasACause(v: Service, op: Op, id: nat)
    requires Legal(v, op) && !Is(v, id, RECONNECTING) && Is(Do(v, op), id, RECONNECTING)
    ensures EntersByToken(v, op, id) || EntersByName(v, op, id)
  {
  }

  // A reconnect can stop between its commits: the session is left RECONNECTING, no sweep takes it out again, and a
  // heartbeat that names ACTIVE brings it back.
  lemma HalfAReconnect() returns (vs: seq<Service>, ops: seq<Op>)
    ensures History(vs, ops) && |ops| == 5 && ops[3].ReconnectOp? && EntersByToken(vs[3], ops[3], 1)
    ensures Is(vs[4], 1, RECONNECTING) && ops[4].BeatOp? && Activates(vs[4], ops[4], 1)
  {
    var token := Issue(1, 2, 3, 7, 0.0, 300);
    ops := [Create(1, 3, 1.0), MarkOp(1, ACTIVE, None, 2.0), MarkOp(1, DISCONNECTED, None, 3.0),
            ReconnectOp(Reconnect(1, Some(token), 2, 4.0, 4.0, 5.0, 6.0), true), BeatOp(1, Some(ACTIVE), 9.0, 9.0)];
    var v0 := Service(map[], map[]);
    var v1 := Do(v0, ops[0]);
    var v2 := Do(v1, ops[1]);
    var v3 := Do(v2, ops[2]);
    var v4 := Do(v3, ops[3]);
    vs := [v0, v1, v2, v3, v4, Do(v4, ops[4])];
    assert Reconnects(v3.rows, v3.used, ops[3].r);
  }

  // ---- launches

  lemma {:induction false} CreationIsKept(vs: seq<Service>, ops: seq<Op>, id: nat, i: nat, j: nat)
    requires History(vs, ops) && i <= j < |vs| && id in vs[i].rows
    ensures id in vs[j].rows && vs[j].rows[id].createdAt == vs[i].rows[id].createdAt
    ensures vs[i].rows[id].state != LAUNCHING ==> vs[j].rows[id].state != LAUNCHING
  {
    if i < j {
      CreationIsKept(vs, ops, id, i, j - 1);
      assert Legal(vs[j - 1], ops[j - 1]);
      CreationStays(vs[j - 1], ops[j - 1], id);
    }
  }

  lemma CreationStays(v: Service, op: Op, id: nat)
    requires Legal(v, op) && id in v.rows
    ensures id in Do(v, op).rows && Do(v, op).rows[id].createdAt == v.rows[id].createdAt
    ensures v.rows[id].state != LAUNCHING ==> Do(v, op).rows[id].state != LAUNCHING
  {
  }

  // A new session is launching, dated from its creation: no launch outlives a sweep for stuck ones with a later cutoff,
  // and a session that has left LAUNCHING never launches again.
  lemma LaunchesDoNotLinger(vs: seq<Service>, ops: seq<Op>, id: nat, i: nat, j: nat, k: nat, cutoff: real)
    requires History(vs, ops) && i < j < k <= |ops|
    requires ops[i].Create? && ops[i].id == id && ops[j].SweepOp? && ops[j].w == Stuck(cutoff) && ops[i].now < cutoff
    ensures vs[i + 1].rows[id].state == LAUNCHING && vs[i + 1].rows[id].createdAt == ops[i].now
    ensures id in vs[k].rows && vs[k].rows[id].state != LAUNCHING
    ensures id in vs[j].rows && vs[j].rows[id].state == LAUNCHING ==>
              && id in vs[j + 1].rows && vs[j + 1].rows[id].state == FAILED
              && vs[j + 1].rows[id].reason == Some("launch timeout")
  {
    assert Legal(vs[i], ops[i]) && vs[j + 1] == Do(vs[j], ops[j]);
    CreationIsKept(vs, ops, id, i + 1, j);
    CreationIsKept(vs, ops, id, j + 1, k);
  }
}
