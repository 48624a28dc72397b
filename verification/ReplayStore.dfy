/**
 Reconnect tokens and the store that remembers the used ones only for a while
 (backend/app/security/reconnect_tokens.py, backend/app/security/replay_store.py).
 */
module ReplayStore {
  import opened Common

  type TokenId = nat

  // The claims of a token whose signature is good. `jti` may be missing; `exp` is in whole seconds.
  datatype Claims = Claims(sid: nat, uid: nat, proto: nat, jti: Option<TokenId>, exp: int)

  // `create_reconnect_token`
  function Issue(sid: nat, uid: nat, proto: nat, jti: TokenId, now: real, ttl: nat): Claims {
    Claims(sid, uid, proto, Some(jti), (now + ttl as real).Floor)
  }

  // `verify_reconnect_token` at time `now`: a token is expired from its `exp` on (section 4.1.4 of RFC 7519).
  predicate Verifies(c: Claims, sid: nat, uid: nat, proto: nat, now: real) {
    c.exp as real > now && c.sid == sid && c.uid == uid && c.proto == proto && c.jti.Some?
  }

  // A token is good for exactly the session, the user and the protocol it was issued for, until its second is up.
  lemma IssuedForOne(sid: nat, uid: nat, proto: nat, jti: TokenId, at: real, ttl: nat, sid': nat, uid': nat,
      proto': nat, now: real)
    ensures Verifies(Issue(sid, uid, proto, jti, at, ttl), sid', uid', proto', now) <==>
            sid' == sid && uid' == uid && proto' == proto && now < (at + ttl as real).Floor as real
  {
  }

  // What `mark_used` keeps of the store when its clock reads `stamp`.
  function Retained(used: map<TokenId, int>, stamp: int): map<TokenId, int> {
    map id | id in used && used[id] >= stamp :: used[id]
  }

  class InMemoryReplayStore {
    var usedUntil: map<TokenId, int>

    constructor ()
      ensures usedUntil == map[]
    {
      usedUntil := map[];
    }

    method MarkUsed(id: TokenId, expiresAt: int, stamp: int) returns (unused: bool)
      modifies this
      ensures unused <==> id !in Retained(old(usedUntil), stamp)
      ensures var kept := Retained(old(usedUntil), stamp);
              usedUntil == if unused then kept[id := expiresAt] else kept
    {
      usedUntil := map k | k in usedUntil && usedUntil[k] >= stamp :: usedUntil[k];
      if id in usedUntil { return false; }
      usedUntil := usedUntil[id := expiresAt];
      return true;
    }
  }

  // ---- all interleavings of presentations

  // A presentation under way: verified, then its own second clock read, then the store under its lock.
  datatype Call = Call(id: TokenId, verifiedAt: real, stamp: Option<int>)

  // `honoured` counts, for every token, the presentations that `mark_used` let through.
  datatype World = World(clock: real, used: map<TokenId, int>, calls: map<nat, Call>, honoured: map<TokenId, nat>)

  datatype Step =
    | Wait(later: real)
    | Verify(call: nat, id: TokenId)
    | ReadClock(call: nat)
    | Mark(call: nat)
    | Drop(call: nat)

  datatype Grant = Grant(sid: nat, uid: nat, proto: nat, at: real, ttl: nat)

  // What each token id was issued for, and when: ids are never reissued.
  datatype Tokens = Tokens(grant: TokenId -> Grant) {

    function Token(id: TokenId): Claims {
      var g := grant(id);
      Issue(g.sid, g.uid, g.proto, id, g.at, g.ttl)
    }

    function Exp(id: TokenId): int {
      Token(id).exp
    }

    // At `now` the token is out, and passes for what it was issued for.
    predicate Passes(id: TokenId, now: real) {
      grant(id).at <= now && Verifies(Token(id), grant(id).sid, grant(id).uid, grant(id).proto, now)
    }
  }

  predicate Enabled(t: Tokens, w: World, s: Step) {
    match s
    case Wait(later) => w.clock <= later
    case Verify(k, id) => k !in w.calls && t.Passes(id, w.clock)
    case ReadClock(k) => k in w.calls && w.calls[k].stamp.None?
    case Mark(k) => k in w.calls && w.calls[k].stamp.Some?
    case Drop(k) => k in w.calls
  }

  // The whole presentation, from the first clock read to the store, takes less than a second.
  predicate Prompt(w: World, s: Step) {
    s.Mark? && s.call in w.calls ==> w.clock < w.calls[s.call].verifiedAt + 1.0
  }

  function Count(w: World, id: TokenId): nat {
    if id in w.honoured then w.honoured[id] else 0
  }

  function Apply(t: Tokens, w: World, s: Step): World
    requires Enabled(t, w, s)
  {
    match s
    case Wait(later) => w.(clock := later)
    case Verify(k, id) => w.(calls := w.calls[k := Call(id, w.clock, None)])
    case ReadClock(k) => w.(calls := w.calls[k := w.calls[k].(stamp := Some(w.clock.Floor))])
    case Mark(k) =>
      var id, kept := w.calls[k].id, Retained(w.used, w.calls[k].stamp.value);
      var done := w.(calls := w.calls - {k});
      if id in kept then done.(used := kept)
      else done.(used := kept[id := t.Exp(id)], honoured := w.honoured[id := Count(w, id) + 1])
    case Drop(k) => w.(calls := w.calls - {k})
  }

  // A token that was honoured is remembered until the clock is past its expiry.
  predicate TokenOk(t: Tokens, w: World, id: TokenId) {
    && Count(w, id) <= 1
    && (Count(w, id) == 1 ==> (id in w.used && w.used[id] == t.Exp(id)) || t.Exp(id) < w.clock.Floor)
  }

  predicate CallOk(t: Tokens, w: World, k: nat)
    requires k in w.calls
  {
    var c := w.calls[k];
    && t.Passes(c.id, c.verifiedAt) && c.verifiedAt <= w.clock
    && (c.stamp.Some? ==> c.stamp.value <= w.clock.Floor)
  }

  ghost predicate Ok(t: Tokens, w: World) {
    && (forall id: TokenId :: TokenOk(t, w, id))
    && (forall k | k in w.calls :: CallOk(t, w, k))
  }

  // Within a second of its verification a token cannot have fallen out of the store.
  lemma StillRemembered(t: Tokens, w: World, k: nat)
    requires Ok(t, w) && Enabled(t, w, Mark(k)) && Prompt(w, Mark(k)) && Count(w, w.calls[k].id) == 1
    ensures w.calls[k].id in Retained(w.used, w.calls[k].stamp.value)
  {
    var c := w.calls[k];
    assert CallOk(t, w, k) && TokenOk(t, w, c.id);
    var e := t.Exp(c.id);
    assert w.clock < e as real + 1.0;
    assert w.clock.Floor <= e;
  }

  lemma StepKeepsOk(t: Tokens, w: World, s: Step)
    requires Ok(t, w) && Enabled(t, w, s) && Prompt(w, s)
    ensures Ok(t, Apply(t, w, s))
  {
    var w' := Apply(t, w, s);
    forall id: TokenId
      ensures TokenOk(t, w', id)
    {
      assert TokenOk(t, w, id);
      if s.Mark? {
        assert CallOk(t, w, s.call);
        if w.calls[s.call].id == id && Count(w, id) == 1 {
          StillRemembered(t, w, s.call);
        }
      }
    }
    forall k | k in w'.calls
      ensures CallOk(t, w', k)
    {
      if k in w.calls { assert CallOk(t, w, k); }
    }
  }

  ghost predicate Run(t: Tokens, worlds: seq<World>, steps: seq<Step>) {
    && |worlds| == |steps| + 1
    && worlds[0].used == map[] && worlds[0].calls == map[] && worlds[0].honoured == map[]
    && forall i | 0 <= i < |steps| :: Enabled(t, worlds[i], steps[i]) && worlds[i + 1] == Apply(t, worlds[i], steps[i])
  }

  ghost predicate AllPrompt(worlds: seq<World>, steps: seq<Step>)
    requires |worlds| == |steps| + 1
  {
    forall i | 0 <= i < |steps| :: Prompt(worlds[i], steps[i])
  }

  lemma {:induction false} RunIsOk(t: Tokens, worlds: seq<World>, steps: seq<Step>, n: nat)
    requires Run(t, worlds, steps) && AllPrompt(worlds, steps) && n < |worlds|
    ensures Ok(t, worlds[n])
  {
    if n > 0 {
      RunIsOk(t, worlds, steps, n - 1);
      StepKeepsOk(t, worlds[n - 1], steps[n - 1]);
    }
  }

  // A token is honoured only while it is out: from its issue, and up to less than a second past its expiry.
  lemma HonouredInItsTime(t: Tokens, worlds: seq<World>, steps: seq<Step>, n: nat, id: TokenId)
    requires Run(t, worlds, steps) && AllPrompt(worlds, steps) && n < |steps| && HonoursToken(worlds[n], steps[n], id)
    ensures t.grant(id).at <= worlds[n].clock < t.grant(id).at + t.grant(id).ttl as real + 1.0
  {
    RunIsOk(t, worlds, steps, n);
    assert CallOk(t, worlds[n], steps[n].call) && Prompt(worlds[n], steps[n]);
  }

  // Whatever the interleaving, and however much the store has forgotten, a token is honoured at most once ever.
  lemma HonouredAtMostOnce(t: Tokens, worlds: seq<World>, steps: seq<Step>, n: nat, id: TokenId)
    requires Run(t, worlds, steps) && AllPrompt(worlds, steps) && n < |worlds|
    ensures Count(worlds[n], id) <= 1
  {
    RunIsOk(t, worlds, steps, n);
    assert TokenOk(t, worlds[n], id);
  }

  // ---- without promptness

  predicate Honours(w: World, s: Step) {
    && s.Mark? && s.call in w.calls && w.calls[s.call].stamp.Some?
    && w.calls[s.call].id !in Retained(w.used, w.calls[s.call].stamp.value)
  }

  // Step `m` of a run is a purge that forgets every token that expired before `exp + 1`.
  predicate Purges(w: World, s: Step, exp: int) {
    s.Mark? && s.call in w.calls && w.calls[s.call].stamp.Some? && w.calls[s.call].stamp.value > exp
  }

  predicate HonoursToken(w: World, s: Step, id: TokenId) {
    Honours(w, s) && w.calls[s.call].id == id
  }

  // Once honoured, and until it is honoured again, a token is in the store exactly as long as nobody purged past its
  // expiry.
  lemma {:induction false} KeptUntilPurged(t: Tokens, worlds: seq<World>, steps: seq<Step>, i: nat, n: nat, id: TokenId)
    requires Run(t, worlds, steps) && i < n <= |steps| && HonoursToken(worlds[i], steps[i], id)
    requires forall m | i < m < n :: !HonoursToken(worlds[m], steps[m], id)
    ensures id in worlds[n].used ==> worlds[n].used[id] == t.Exp(id)
    ensures id in worlds[n].used <==> forall m | i < m < n :: !Purges(worlds[m], steps[m], t.Exp(id))
  {
    if n > i + 1 {
      KeptUntilPurged(t, worlds, steps, i, n - 1, id);
      assert !HonoursToken(worlds[n - 1], steps[n - 1], id);
      assert worlds[n] == Apply(t, worlds[n - 1], steps[n - 1]);
    }
  }

  // Exactly when a second presentation is honoured: some purge since the first one, or its own, reads a clock past
  // the expiry.
  lemma SecondUseIffPurged(t: Tokens, worlds: seq<World>, steps: seq<Step>, i: nat, j: nat, id: TokenId)
    requires Run(t, worlds, steps) && i < j < |steps| && HonoursToken(worlds[i], steps[i], id)
    requires forall m | i < m < j :: !HonoursToken(worlds[m], steps[m], id)
    requires steps[j].Mark? && worlds[j].calls[steps[j].call].id == id
    ensures HonoursToken(worlds[j], steps[j], id) <==> exists m :: i < m <= j && Purges(worlds[m], steps[m], t.Exp(id))
  {
    KeptUntilPurged(t, worlds, steps, i, j, id);
    assert Enabled(t, worlds[j], steps[j]);
    if id !in worlds[j].used {
      var m :| i < m < j && Purges(worlds[m], steps[m], t.Exp(id));
    } else if Purges(worlds[j], steps[j], t.Exp(id)) {
      assert HonoursToken(worlds[j], steps[j], id);
    }
  }

  // A run of `Apply` from the empty store.
  function Worlds(t: Tokens, w: World, steps: seq<Step>): (r: Option<World>)
    decreases |steps|
  {
    if steps == [] then Some(w)
    else if !Enabled(t, w, steps[0]) then None
    else Worlds(t, Apply(t, w, steps[0]), steps[1..])
  }

  lemma {:induction false} WorldsSplit(t: Tokens, w: World, a: seq<Step>, b: seq<Step>)
    ensures Worlds(t, w, a + b) == (var m := Worlds(t, w, a); if m.None? then None else Worlds(t, m.value, b))
    decreases |a|
  {
    if a == [] {
      assert a + b == b;
    } else {
      assert (a + b)[0] == a[0] && (a + b)[1..] == a[1..] + b;
      if Enabled(t, w, a[0]) { WorldsSplit(t, Apply(t, w, a[0]), a[1..], b); }
    }
  }

  // One undisturbed presentation: verified, stamped and marked in one second.
  function AtOnce(k: nat, id: TokenId): seq<Step> {
    [Verify(k, id), ReadClock(k), Mark(k)]
  }

  // A presentation that reads its clock in time and then waits for the lock.
  function Waiting(k: nat, id: TokenId, from: real, until: real): seq<Step> {
    [Wait(from), Verify(k, id), ReadClock(k), Wait(until)]
  }

  lemma AtOnceIsHonoured(t: Tokens, w: World, k: nat, id: TokenId)
    requires k !in w.calls && t.Passes(id, w.clock) && id !in w.used
    ensures Worlds(t, w, AtOnce(k, id)) ==
      Some(w.(used := Retained(w.used, w.clock.Floor)[id := t.Exp(id)], honoured := w.honoured[id := Count(w, id) + 1]))
  {
    var a := AtOnce(k, id);
    var w1 := Apply(t, w, a[0]);
    var w2 := Apply(t, w1, a[1]);
    var w3 := Apply(t, w2, a[2]);
    assert w3.calls == w.calls;
    assert a[1..][1..] == [a[2]] && a[1..][0] == a[1];
    assert Worlds(t, w2, [a[2]]) == Some(w3);
    assert Worlds(t, w1, a[1..]) == Some(w3);
  }

  lemma WaitingIsPending(t: Tokens, w: World, k: nat, id: TokenId, from: real, until: real)
    requires k !in w.calls && t.Passes(id, from) && w.clock <= from <= until
    ensures Worlds(t, w, Waiting(k, id, from, until))
              == Some(w.(clock := until, calls := w.calls[k := Call(id, from, Some(from.Floor))]))
  {
    var a := Waiting(k, id, from, until);
    var w1 := Apply(t, w, a[0]);
    var w2 := Apply(t, w1, a[1]);
    var w3 := Apply(t, w2, a[2]);
    var w4 := Apply(t, w3, a[3]);
    assert a[3..] == [a[3]] && a[2..][1..] == a[3..] && a[1..][1..] == a[2..];
    assert Worlds(t, w3, a[3..]) == Some(w4);
    assert Worlds(t, w2, a[2..]) == Some(w4);
    assert Worlds(t, w1, a[1..]) == Some(w4);
    assert w4.calls == w.calls[k := Call(id, from, Some(from.Floor))];
  }

  // Two clock reads of one call in the same second are not enough: a call that waits for the lock, after its own read,
  // while another call purges, honours a token for the second time.
  lemma LateLockHonoursTwice()
    ensures var t := Tokens(id => Grant(1, 2, 3, 40.0, if id == 7 then 60 else 860));
      var r := Worlds(t, World(50.0, map[], map[], map[]), AtOnce(0, 7)
          + (Waiting(1, 7, 99.9, 101.0) + (AtOnce(2, 8) + [Mark(1)])));
      r.Some? && Count(r.value, 7) == 2
  {
    var t := Tokens(id => Grant(1, 2, 3, 40.0, if id == 7 then 60 else 860));
    var w0 := World(50.0, map[], map[], map[]);
    AtOnceIsHonoured(t, w0, 0, 7);
    var w1 := Worlds(t, w0, AtOnce(0, 7)).value;
    WaitingIsPending(t, w1, 1, 7, 99.9, 101.0);
    var w2 := Worlds(t, w1, Waiting(1, 7, 99.9, 101.0)).value;
    AtOnceIsHonoured(t, w2, 2, 8);
    var w3 := Worlds(t, w2, AtOnce(2, 8)).value;
    assert 7 !in w3.used && Count(w3, 7) == 1;
    var w4 := Apply(t, w3, Mark(1));
    assert Count(w4, 7) == 2;
    assert Worlds(t, w3, [Mark(1)]) == Some(w4);
    WorldsSplit(t, w2, AtOnce(2, 8), [Mark(1)]);
    WorldsSplit(t, w1, Waiting(1, 7, 99.9, 101.0), AtOnce(2, 8) + [Mark(1)]);
    WorldsSplit(t, w0, AtOnce(0, 7), Waiting(1, 7, 99.9, 101.0) + (AtOnce(2, 8) + [Mark(1)]));
  }

  // ---- the Redis store

  // The time to live `mark_used` asks for.
  function Ttl(expiresAt: int, stamp: int): (ttl: int)
    ensures ttl >= 1 && stamp + ttl >= expiresAt
  {
    if expiresAt - stamp > 1 then expiresAt - stamp else 1
  }

  // `keys` maps a token to the time its key disappears.
  class RedisReplayStore {
    var keys: map<TokenId, real>

    // `SET` with `nx` reaches the server at `at`; a key is there until its time has come.
    method MarkUsed(id: TokenId, expiresAt: int, stamp: int, at: real) returns (unused: bool)
      modifies this
      ensures unused <==> !Held(old(keys), id, at)
      ensures keys == SetNx(old(keys), Use(id, expiresAt, stamp, at))
    {
      if id in keys && at < keys[id] { return false; }
      keys := keys[id := at + Ttl(expiresAt, stamp) as real];
      return true;
    }
  }

  // A verified presentation: its clock read and the time its `SET` reached the server.
  datatype Use = Use(id: TokenId, exp: int, stamp: int, at: real)

  predicate Held(keys: map<TokenId, real>, id: TokenId, at: real) {
    id in keys && at < keys[id]
  }

  function SetNx(keys: map<TokenId, real>, u: Use): map<TokenId, real> {
    if Held(keys, u.id, u.at) then keys else keys[u.id := u.at + Ttl(u.exp, u.stamp) as real]
  }

  // The keys after the uses, in the order the server saw them.
  function Keys(uses: seq<Use>): map<TokenId, real> {
    if uses == [] then map[] else SetNx(Keys(uses[..|uses| - 1]), uses[|uses| - 1])
  }

  predicate LetThrough(uses: seq<Use>, i: nat)
    requires i < |uses|
  {
    !Held(Keys(uses[..i]), uses[i].id, uses[i].at)
  }

  // The time of a `SET` is not before the clock read of its call.
  predicate InTime(uses: seq<Use>) {
    forall i | 0 <= i < |uses| :: uses[i].stamp as real <= uses[i].at
  }

  lemma {:induction false} KeyOfLastUse(uses: seq<Use>, i: nat, n: nat)
    requires i < n <= |uses| && LetThrough(uses, i)
    requires forall m | i < m < n && uses[m].id == uses[i].id :: !LetThrough(uses, m)
    ensures uses[i].id in Keys(uses[..n])
    ensures Keys(uses[..n])[uses[i].id] == uses[i].at + Ttl(uses[i].exp, uses[i].stamp) as real
  {
    assert uses[..n][..n - 1] == uses[..n - 1];
    assert uses[..n][n - 1] == uses[n - 1];
    if n > i + 1 { KeyOfLastUse(uses, i, n - 1); }
  }

  // The next presentation of a token is let through exactly when it arrives after the first one's time to live.
  lemma RedisSecondUse(uses: seq<Use>, i: nat, j: nat)
    requires i < j < |uses| && uses[i].id == uses[j].id && LetThrough(uses, i)
    requires forall m | i < m < j && uses[m].id == uses[i].id :: !LetThrough(uses, m)
    ensures LetThrough(uses, j) <==> uses[j].at >= uses[i].at + Ttl(uses[i].exp, uses[i].stamp) as real
  {
    KeyOfLastUse(uses, i, j);
  }

  // Honoured at most once if no `SET` of the token reaches the server at or after its expiry.
  lemma {:induction false} RedisAtMostOnce(uses: seq<Use>, i: nat, j: nat)
    requires InTime(uses) && i < j < |uses| && uses[i].id == uses[j].id && uses[i].exp == uses[j].exp
    requires LetThrough(uses, i) && LetThrough(uses, j)
    requires forall m | 0 <= m < |uses| && uses[m].id == uses[i].id :: uses[m].exp == uses[i].exp
    ensures exists m :: i < m <= j && uses[m].id == uses[i].id && uses[m].at >= uses[i].exp as real
    decreases j
  {
    if m :| i < m < j && uses[m].id == uses[i].id && LetThrough(uses, m) {
      RedisAtMostOnce(uses, i, m);
    } else {
      RedisSecondUse(uses, i, j);
      assert uses[j].at >= uses[i].exp as real;
    }
  }

  // And a fifth of a second between the verification and the `SET` is enough to break it.
  lemma RedisHonoursTwice()
    ensures var uses := [Use(7, 100, 50, 50.0), Use(7, 100, 99, 100.1)];
      && InTime(uses) && Verifies(Claims(1, 2, 3, Some(7), 100), 1, 2, 3, 99.9) && LetThrough(uses, 0)
      && LetThrough(uses, 1)
  {
  }
}
