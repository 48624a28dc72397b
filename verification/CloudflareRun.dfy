/**
 A provisioning run (deploy/provision_cloudflare.py): create what is missing in an order that publishes last, record
 it, and when a step fails undo it in reverse. A run that succeeds leaves nothing to do; one that fails leaves what
 it found.
 */
module CloudflareRun {
  import opened Common
  import opened CloudflareAccount

  // How the write of the state file ends; it can fail after the new file is in place.
  datatype Write = Written | FailedBefore | FailedAfter

  // How the PUT of the Tunnel configuration ends; it can fail after it took effect.
  datatype PutReply = Done | FailedPut(landed: bool)

  // What the outside answers to the requests of a run, each made at most once; `gone(i)` says whether the DELETE of the
  // i-th created resource removes it.
  datatype Answers = Answers(policy: Post, app: Post, audience: Option<Name>, tunnel: Post, put: PutReply, token: bool,
    enabled: bool, halfEnabled: Local, disabled: Local, dns: Post, write: Write, gone: nat -> bool)

  // The service never reuses an id.
  predicate FreshIds(remote: Remote, a: Answers) {
    && FreshPost(remote, PolicyKind, a.policy) && FreshPost(remote, AppKind, a.app)
    && FreshPost(remote, TunnelKind, a.tunnel) && FreshPost(remote, DnsKind, a.dns)
  }

  // ---- the order of creation

  function Rank(kind: Kind): nat {
    match kind
    case PolicyKind => 0
    case AppKind => 1
    case TunnelKind => 2
    case DnsKind => 3
  }

  predicate Increasing(created: seq<Key>) {
    forall i, j | 0 <= i < j < |created| :: Rank(created[i].kind) < Rank(created[j].kind)
  }

  predicate Upto(created: seq<Key>, n: nat) {
    Increasing(created) && forall k | k in created :: Rank(k.kind) < n
  }

  // Nothing of the kind was created yet, so an id that was fresh for the account still is.
  lemma StillFresh(start: Remote, p: Progress, kind: Kind, post: Post)
    requires Balanced(start, p, None) && Upto(p.created, Rank(kind)) && FreshPost(start, kind, post)
    ensures FreshPost(p.remote, kind, post)
  {
  }

  // ---- the steps

  // Where a run stands between two steps.
  ghost predicate Underway(d: Desired, start: Remote, n: nat, good: bool, p: Progress) {
    Balanced(start, p, None) && Upto(p.created, n) && (good ==> Good(d, p))
  }

  ghost predicate Halted(d: Desired, start: Remote, good: bool, s: Stop) {
    Balanced(start, s.at, s.leaked) && Upto(s.at.created, 4) && (good ==> GoodStop(d, s))
  }

  lemma StopsHere(d: Desired, start: Remote, n: nat, good: bool, p: Progress)
    requires Underway(d, start, n, good, p) && n <= 4
    ensures Halted(d, start, good, Stop(p, false, None))
  {
  }

  // A policy, an application or a DNS record: kept if it was found, else created.
  method EnsureResource(d: Desired, p: Progress, kind: Kind, body: Resource, post: Post, ghost start: Remote,
      ghost good: bool)
    returns (r: Result<Progress, Stop>)
    requires d.Valid() && Underway(d, start, Rank(kind), good, p) && FreshPost(start, kind, post)
    requires kind != TunnelKind
    requires (ItemOf(p.found, kind).None? && good ==> Ready(p.found, kind) && IsBody(d, p.found, kind, body))
    ensures r.Ok? ==> Underway(d, start, Rank(kind) + 1, good, r.value)
    ensures r.Ok? <==> ItemOf(p.found, kind).Some? || post.Made?
    ensures r.Ok? ==> r.value == if ItemOf(p.found, kind).Some? then p else Put(p, kind, Item(post.id, body))
    ensures r.Err? ==> ItemOf(p.found, kind).None? && Halted(d, start, good, r.error)
  {
    if ItemOf(p.found, kind).Some? { return Ok(p); }
    StillFresh(start, p, kind, post);
    r := Request(p, kind, body, post);
    if post.Made? {
      var item := Item(post.id, body);
      PutIsBalanced(start, p, kind, item);
      if good { PutIsGood(d, p, kind, item); }
    } else {
      LeaveIsBalanced(start, p, kind, body, post.leaked, post.Lost?);
      if good { LeaveIsGood(d, p, kind, body, post.leaked, post.Lost?); }
    }
  }

  // The Tunnel once its configuration is in place.
  function Configured(d: Desired, p: Progress, id: Id): Progress {
    var tunnel := Tunnel(d.tunnelName, DesiredIngress(d));
    var made := Unconfigured(d, p, id);
    var remote := made.remote[Key(TunnelKind, id) := tunnel];
    Progress(remote, made.created, WithItem(made.found, TunnelKind, Item(id, tunnel)), made.trail + [remote])
  }

  function Unconfigured(d: Desired, p: Progress, id: Id): Progress {
    Put(p, TunnelKind, Item(id, Tunnel(d.tunnelName, [])))
  }

  lemma ConfiguredIsBalanced(d: Desired, start: Remote, p: Progress, id: Id)
    requires Balanced(start, p, None) && Upto(p.created, 2) && Key(TunnelKind, id) !in p.remote
    ensures Balanced(start, Unconfigured(d, p, id), None) && Balanced(start, Configured(d, p, id), None)
    ensures Unconfigured(d, p, id).created == Configured(d, p, id).created && Upto(Configured(d, p, id).created, 3)
  {
  }

  lemma ConfiguredRemote(d: Desired, p: Progress, id: Id)
    ensures Configured(d, p, id).remote == Put(p, TunnelKind, Item(id, Tunnel(d.tunnelName, DesiredIngress(d)))).remote
    ensures Configured(d, p, id).created
              == Put(p, TunnelKind, Item(id, Tunnel(d.tunnelName, DesiredIngress(d)))).created
    ensures Configured(d, p, id).found == Put(p, TunnelKind, Item(id, Tunnel(d.tunnelName, DesiredIngress(d)))).found
  {
  }

  lemma ConfiguredIsGood(d: Desired, p: Progress, id: Id)
    requires d.Valid() && Good(d, p) && Key(TunnelKind, id) !in p.remote && p.found.tunnel.None?
    ensures Good(d, Configured(d, p, id)) && AlwaysGuarded(d, Unconfigured(d, p, id))
  {
    var item := Item(id, Tunnel(d.tunnelName, DesiredIngress(d)));
    AddingIsGuarded(d, p, TunnelKind, Item(id, Tunnel(d.tunnelName, [])));
    PutIsGood(d, p, TunnelKind, item);
    ConfiguredRemote(d, p, id);
    assert Discovered(d, Configured(d, p, id).remote, Configured(d, p, id).found);
  }

  // The Tunnel is created first and configured with a second request.
  method EnsureTunnel(d: Desired, p: Progress, post: Post, put: PutReply, ghost start: Remote, ghost good: bool)
    returns (r: Result<Progress, Stop>)
    requires d.Valid() && Underway(d, start, 2, good, p) && FreshPost(start, TunnelKind, post)
    ensures r.Ok? ==> Underway(d, start, 3, good, r.value)
    ensures r.Ok? <==> p.found.tunnel.Some? || (post.Made? && put.Done?)
    ensures r.Ok? ==> r.value == if p.found.tunnel.Some? then p else Configured(d, p, post.id)
    ensures r.Err? ==> p.found.tunnel.None? && Halted(d, start, good, r.error)
    ensures r.Err? && post.Made? ==>
              r.error.at.remote == if put.landed then Configured(d, p, post.id).remote
                                   else Unconfigured(d, p, post.id).remote
  {
    if p.found.tunnel.Some? { return Ok(p); }
    StillFresh(start, p, TunnelKind, post);
    var made := Request(p, TunnelKind, Tunnel(d.tunnelName, []), post);
    if !post.Made? {
      LeaveIsBalanced(start, p, TunnelKind, Tunnel(d.tunnelName, []), post.leaked, post.Lost?);
      if good { LeaveIsGood(d, p, TunnelKind, Tunnel(d.tunnelName, []), post.leaked, post.Lost?); }
      return made;
    }
    ConfiguredIsBalanced(d, start, p, post.id);
    if good { ConfiguredIsGood(d, p, post.id); }
    match put {
      case Done => return Ok(Configured(d, p, post.id));
      case FailedPut(landed) =>
        var q := Unconfigured(d, p, post.id);
        return Err(Stop(if landed then Configured(d, p, post.id) else q.(trail := q.trail + [q.remote]), false, None));
    }
  }

  function AudienceOf(item: Item): Option<Name> {
    if item.value.App? then item.value.audience else None
  }

  // The access boundary, in front of everything else: policy, application, audience.
  method EnsureBoundary(d: Desired, p: Progress, a: Answers, ghost start: Remote, ghost good: bool)
    returns (r: Result<Progress, Stop>)
    requires d.Valid() && Underway(d, start, 0, good, p) && FreshIds(start, a)
    ensures r.Ok? ==>
              && Underway(d, start, 2, good, r.value) && r.value.found.tunnel == p.found.tunnel
              && r.value.found.dns == p.found.dns
    ensures r.Ok? ==> r.value.found.policy.Some? && r.value.found.app.Some? && AudienceOf(r.value.found.app.value).Some?
    ensures r.Ok? <==>
      && (p.found.policy.Some? || a.policy.Made?)
      && if p.found.app.Some? then AudienceOf(p.found.app.value).Some? else a.app.Made? && a.audience.Some?
    ensures r.Ok? && p.found.policy.Some? && p.found.app.Some? ==> r.value == p
    ensures r.Err? ==> Halted(d, start, good, r.error)
    ensures r.Err? && p.found.policy.Some? && p.found.app.Some? ==> r.error == Stop(p, false, None)
  {
    var p1 :- EnsureResource(d, p, PolicyKind, PolicyBody(d), a.policy, start, good);
    var p2 :- EnsureResource(d, p1, AppKind, AppBody(d, p1.found.policy.value.id, a.audience), a.app, start, good);
    if AudienceOf(p2.found.app.value).None? {
      StopsHere(d, start, 2, good, p2);
      return Err(Stop(p2, false, None));
    }
    return Ok(p2);
  }

  // All that the DNS record will lead to: the boundary, and the Tunnel behind it.
  method EnsureRoute(d: Desired, p: Progress, a: Answers, ghost start: Remote, ghost good: bool)
    returns (r: Result<Progress, Stop>)
    requires d.Valid() && Underway(d, start, 0, good, p) && FreshIds(start, a)
    ensures r.Ok? ==>
              && Underway(d, start, 3, good, r.value) && r.value.found.dns == p.found.dns
              && r.value.found.policy.Some? && r.value.found.app.Some? && r.value.found.tunnel.Some?
              && AudienceOf(r.value.found.app.value).Some?
    ensures r.Ok? <==> RouteSuffices(a, p.found)
    ensures r.Err? ==> Halted(d, start, good, r.error)
    ensures p.found.policy.Some? && p.found.app.Some? && p.found.tunnel.Some? ==>
              (r.Ok? ==> r.value == p) && (r.Err? ==> r.error == Stop(p, false, None))
  {
    var boundary :- EnsureBoundary(d, p, a, start, good);
    r := EnsureTunnel(d, boundary, a.tunnel, a.put, start, good);
  }

  // Every request for the route that is still to be made succeeds, and an audience that is already there is valid.
  predicate RouteSuffices(a: Answers, f: Found) {
    && (f.policy.Some? || a.policy.Made?) && (f.tunnel.Some? || (a.tunnel.Made? && a.put.Done?))
    && (if f.app.Some? then AudienceOf(f.app.value).Some? else a.app.Made? && a.audience.Some?)
  }

  // The local part of the host, configured unless it already matches.
  method EnsureLocal(d: Desired, f: Found, local: Local, a: Answers) returns (ok: bool, local': Local, enabled: bool)
    requires f.tunnel.Some? && f.app.Some? && AudienceOf(f.app.value).Some?
    ensures ok <==> LocalMatches(d, local, f.app, f.tunnel) || (a.token && a.enabled)
    ensures ok ==> LocalMatches(d, local', f.app, f.tunnel)
    ensures enabled <==> ok && !LocalMatches(d, local, f.app, f.tunnel)
    ensures !enabled ==> local' == if ok || !a.token then local else a.halfEnabled
  {
    if LocalMatches(d, local, f.app, f.tunnel) { return true, local, false; }
    if !a.token { return false, local, false; }
    if !a.enabled { return false, a.halfEnabled, false; }
    return true, Local(Some(Env(true, d.hostname, d.team, AudienceOf(f.app.value).value)), true), true;
  }

  predicate Complete(f: Found) {
    f.policy.Some? && f.app.Some? && f.tunnel.Some? && f.dns.Some?
  }

  function OwnedBy(d: Desired, f: Found): Owned
    requires Complete(f) && AudienceOf(f.app.value).Some?
  {
    Owned(d.account, d.zone, d.hostname, f.tunnel.value.id, f.app.value.id, f.policy.value.id, f.dns.value.id,
        AudienceOf(f.app.value).value)
  }

  datatype Host = Host(local: Local, file: File)

  // Publication comes last: the host is configured, then the DNS record is made, then the state file is written.
  method Publish(d: Desired, p: Progress, h: Host, a: Answers, ghost start: Remote, ghost good: bool)
    returns (r: Result<Progress, Stop>, h': Host, enabled: bool)
    requires d.Valid() && Underway(d, start, 3, good, p) && FreshIds(start, a)
    requires p.found.policy.Some? && p.found.app.Some? && p.found.tunnel.Some? && AudienceOf(p.found.app.value).Some?
    ensures r.Ok? ==>
              && Underway(d, start, 4, good, r.value) && Complete(r.value.found)
              && AudienceOf(r.value.found.app.value).Some?
    ensures r.Ok? ==>
              && h'.file == Saved(OwnedBy(d, r.value.found))
              && LocalMatches(d, h'.local, r.value.found.app, r.value.found.tunnel)
    ensures r.Ok? <==>
      && (LocalMatches(d, h.local, p.found.app, p.found.tunnel) || (a.token && a.enabled))
      && (p.found.dns.Some? || a.dns.Made?) && a.write == Written
    ensures r.Err? ==>
              Halted(d, start, good, r.error) && (r.error.ambiguous || a.write != FailedAfter ==> h'.file == h.file)
    ensures !enabled ==> h'.local == h.local || h'.local == a.halfEnabled
    ensures Complete(p.found) ==> (r.Ok? ==> r.value == p) && (r.Err? ==> r.error == Stop(p, false, None))
    ensures LocalMatches(d, h.local, p.found.app, p.found.tunnel) || !a.token ==> h'.local == h.local && !enabled
  {
    h' := h;
    var ok, local', en := EnsureLocal(d, p.found, h.local, a);
    h', enabled := h.(local := local'), en;
    StopsHere(d, start, 3, good, p);
    if !ok { return Err(Stop(p, false, None)), h', enabled; }
    var step := EnsureResource(d, p, DnsKind, DnsBody(d, p.found.tunnel.value.id), a.dns, start, good);
    if step.Err? { return step, h', enabled; }
    var q := step.value;
    StopsHere(d, start, 4, good, q);
    if a.write != FailedBefore { h' := Host(h'.local, Saved(OwnedBy(d, q.found))); }
    if a.write != Written { return Err(Stop(q, false, None)), h', enabled; }
    return Ok(q), h', enabled;
  }

  // Every request still to be made succeeds, and so does what is done on the host.
  predicate Suffices(a: Answers, f: Found) {
    RouteSuffices(a, f) && a.token && a.enabled && (f.dns.Some? || a.dns.Made?) && a.write == Written
  }

  // The body of `apply`, up to the first failure.
  method Advance(d: Desired, start: Remote, h: Host, found: Found, a: Answers)
    returns (r: Result<Progress, Stop>, h': Host, enabled: bool)
    requires d.Valid() && FreshIds(start, a)
    ensures var good := Discovered(d, start, found) && Fits(d, found) && Guarded(d, start);
      && (r.Ok? ==>
           Underway(d, start, 4, good, r.value) && Complete(r.value.found) && AudienceOf(r.value.found.app.value).Some?)
      && (r.Err? ==> Halted(d, start, good, r.error))
    ensures r.Ok? ==>
              && h'.file == Saved(OwnedBy(d, r.value.found))
              && LocalMatches(d, h'.local, r.value.found.app, r.value.found.tunnel)
    ensures r.Err? && (r.error.ambiguous || a.write != FailedAfter) ==> h'.file == h.file
    ensures !enabled ==> h'.local == h.local || h'.local == a.halfEnabled
    ensures Suffices(a, found) ==> r.Ok?
    ensures var p := Progress(start, [], found, []);
      Complete(found) ==> (r.Ok? ==> r.value == p) && (r.Err? ==> r.error == Stop(p, false, None))
    ensures Complete(found) && LocalMatches(d, h.local, found.app, found.tunnel) ==> h'.local == h.local && !enabled
    ensures !RouteSuffices(a, found) ==> r.Err? && h' == h && !enabled
    ensures !a.token ==> h'.local == h.local && !enabled
  {
    ghost var good := Discovered(d, start, found) && Fits(d, found) && Guarded(d, start);
    var p := Progress(start, [], found, []);
    var route := EnsureRoute(d, p, a, start, good);
    if route.Err? { return route, h, false; }
    r, h', enabled := Publish(d, route.value, h, a, start, good);
  }

  // ---- undoing a run

  // The account after the DELETEs of `created[i..]`, last first.
  function Remaining(remote: Remote, created: seq<Key>, gone: nat -> bool, i: nat): Remote
    requires i <= |created|
    decreases |created| - i
  {
    if i == |created| then remote
    else
      var r := Remaining(remote, created, gone, i + 1);
      if gone(i) then r - {created[i]} else r
  }

  ghost predicate Removed(created: seq<Key>, gone: nat -> bool, i: nat, k: Key) {
    exists j | i <= j < |created| :: created[j] == k && gone(j)
  }

  lemma {:induction false} RemainingAt(remote: Remote, created: seq<Key>, gone: nat -> bool, i: nat, k: Key)
    requires i <= |created|
    ensures var r := Remaining(remote, created, gone, i);
      && (k in r <==> k in remote && !Removed(created, gone, i, k))
      && (k in r ==> r[k] == remote[k])
    decreases |created| - i
  {
    if i < |created| {
      RemainingAt(remote, created, gone, i + 1, k);
      assert Removed(created, gone, i, k) <==> Removed(created, gone, i + 1, k) || (created[i] == k && gone(i));
    }
  }

  // The trail of an undone run: the account after every DELETE.
  function UndoTrail(remote: Remote, created: seq<Key>, gone: nat -> bool, i: nat): seq<Remote>
    requires i <= |created|
    decreases |created| - i
  {
    if i == |created| then [] else UndoTrail(remote, created, gone, i + 1) + [Remaining(remote, created, gone, i)]
  }

  method Compensate(remote: Remote, created: seq<Key>, gone: nat -> bool) returns (remote': Remote, trail: seq<Remote>)
    ensures remote' == Remaining(remote, created, gone, 0)
    ensures trail == UndoTrail(remote, created, gone, 0)
  {
    remote', trail := remote, [];
    var i := |created|;
    while i > 0
      invariant 0 <= i <= |created|
      invariant remote' == Remaining(remote, created, gone, i)
      invariant trail == UndoTrail(remote, created, gone, i)
    {
      i := i - 1;
      remote' := if gone(i) then remote' - {created[i]} else remote';
      trail := trail + [remote'];
    }
  }

  // Whatever fails, and whatever cannot be deleted, nothing that was there before is lost or changed.
  lemma UndoKeepsStart(start: Remote, s: Stop, gone: nat -> bool)
    requires Balanced(start, s.at, s.leaked)
    ensures var r := Remaining(s.at.remote, s.at.created, gone, 0); forall k | k in start :: k in r && r[k] == start[k]
  {
    forall k | k in start
      ensures k in Remaining(s.at.remote, s.at.created, gone, 0)
      ensures Remaining(s.at.remote, s.at.created, gone, 0)[k] == start[k]
    {
      RemainingAt(s.at.remote, s.at.created, gone, 0, k);
    }
  }

  predicate AllGone(created: seq<Key>, gone: nat -> bool) {
    forall i | 0 <= i < |created| :: gone(i)
  }

  lemma IncreasingIsDistinct(created: seq<Key>, i: nat, j: nat)
    requires Increasing(created) && i < |created| && j < |created| && created[i] == created[j]
    ensures i == j
  {
  }

  // The account is as it was before the run exactly when no failed POST left anything and every DELETE took effect.
  lemma UndoneIffClean(start: Remote, s: Stop, gone: nat -> bool)
    requires Balanced(start, s.at, s.leaked) && Increasing(s.at.created)
    ensures Remaining(s.at.remote, s.at.created, gone, 0) == start <==> s.leaked.None? && AllGone(s.at.created, gone)
  {
    var created := s.at.created;
    var r := Remaining(s.at.remote, created, gone, 0);
    if s.leaked.Some? {
      RemainingAt(s.at.remote, created, gone, 0, s.leaked.value);
    } else if !AllGone(created, gone) {
      var i :| 0 <= i < |created| && !gone(i);
      RemainingAt(s.at.remote, created, gone, 0, created[i]);
      forall j | 0 <= j < |created| && created[j] == created[i] ensures j == i { IncreasingIsDistinct(created, i, j); }
      assert created[i] in created;
    } else {
      forall k
        ensures k in r <==> k in start
        ensures k in start ==> r[k] == start[k]
      {
        RemainingAt(s.at.remote, created, gone, 0, k);
        if k in created {
          var j :| 0 <= j < |created| && created[j] == k;
          assert Removed(created, gone, 0, k);
        }
      }
    }
  }

  // Undoing takes the DNS record away first, so that an undone run is guarded at every point too.
  lemma UndoIsGuarded(d: Desired, start: Remote, s: Stop, gone: nat -> bool, i: nat)
    requires Balanced(start, s.at, s.leaked) && Upto(s.at.created, 4) && AllGone(s.at.created, gone)
    requires s.leaked.Some? ==> s.leaked.value.kind != DnsKind
    requires !Has(d, start, DnsKind) && i < |s.at.created|
    ensures Guarded(d, Remaining(s.at.remote, s.at.created, gone, i))
  {
    var created := s.at.created;
    var r := Remaining(s.at.remote, created, gone, i);
    forall k
      ensures !Hit(d, r, DnsKind, k)
    {
      RemainingAt(s.at.remote, created, gone, i, k);
      assert !Hit(d, start, DnsKind, k);
      if k in created && k.kind == DnsKind {
        var j :| 0 <= j < |created| && created[j] == k;
        assert created[|created| - 1] in created;
        assert j == |created| - 1;
        assert Removed(created, gone, i, k);
      }
    }
  }

  lemma {:induction false} UndoTrailIsGuarded(d: Desired, start: Remote, s: Stop, gone: nat -> bool, i: nat)
    requires Balanced(start, s.at, s.leaked) && Upto(s.at.created, 4) && AllGone(s.at.created, gone)
    requires s.leaked.Some? ==> s.leaked.value.kind != DnsKind
    requires !Has(d, start, DnsKind) && i <= |s.at.created|
    ensures forall t | t in UndoTrail(s.at.remote, s.at.created, gone, i) :: Guarded(d, t)
    decreases |s.at.created| - i
  {
    if i < |s.at.created| {
      UndoTrailIsGuarded(d, start, s, gone, i + 1);
      UndoIsGuarded(d, start, s, gone, i);
    }
  }

  // ---- `apply`

  datatype World = World(remote: Remote, host: Host)

  // What a run that stopped leaves behind.
  ghost predicate Undone(s: Stop, gone: nat -> bool, remote': Remote, trail: seq<Remote>) {
    if s.ambiguous then remote' == s.at.remote && trail == s.at.trail
    else
      && remote' == Remaining(s.at.remote, s.at.created, gone, 0)
      && trail == s.at.trail + UndoTrail(s.at.remote, s.at.created, gone, 0)
  }

  // Every DELETE took effect, and no DNS record was left by a POST that failed.
  predicate CleanlyUndone(s: Stop, gone: nat -> bool) {
    s.ambiguous || (AllGone(s.at.created, gone) && (s.leaked.Some? ==> s.leaked.value.kind != DnsKind))
  }

  ghost predicate Consistent(d: Desired, remote: Remote, found: Found) {
    Discovered(d, remote, found) && Fits(d, found) && Guarded(d, remote)
  }

  // Where something is missing, the hostname is not published yet.
  lemma WhatIsMissingIsUnpublished(d: Desired, remote: Remote, found: Found)
    requires Consistent(d, remote, found) && !Complete(found)
    ensures !Has(d, remote, DnsKind)
  {
    HasIffFound(d, remote, found, DnsKind);
    HasIffFound(d, remote, found, PolicyKind);
    HasIffFound(d, remote, found, AppKind);
    HasIffFound(d, remote, found, TunnelKind);
  }

  method Apply(d: Desired, w: World, found: Found, a: Answers)
    returns (r: Result<Owned, Stop>, w': World, trail: seq<Remote>)
    requires d.Valid() && FreshIds(w.remote, a)
    ensures r.Ok? ==> Published(d, w', r.value)
    ensures r.Ok? && Consistent(d, w.remote, found) ==> Converged(d, w')
    ensures forall k | k in w.remote :: k in w'.remote && w'.remote[k] == w.remote[k]
    ensures r.Err? ==>
              Halted(d, w.remote, Consistent(d, w.remote, found), r.error) && Undone(r.error, a.gone, w'.remote, trail)
    ensures r.Err? && (r.error.ambiguous || a.write != FailedAfter) ==> w'.host.file == w.host.file
    ensures r.Err? && !r.error.ambiguous ==> w'.host.local in {w.host.local, a.halfEnabled, a.disabled}
    ensures Suffices(a, found) ==> r.Ok?
    ensures Complete(found) ==> w'.remote == w.remote && trail == []
    ensures Complete(found) && LocalMatches(d, w.host.local, found.app, found.tunnel) ==> w'.host.local == w.host.local
    ensures !RouteSuffices(a, found) ==> r.Err? && w'.host == w.host
    ensures !a.token ==> w'.host.local == w.host.local
    ensures Consistent(d, w.remote, found) && (r.Err? ==> CleanlyUndone(r.error, a.gone)) ==>
              forall t | t in trail :: Guarded(d, t)
  {
    ghost var good := Discovered(d, w.remote, found) && Fits(d, found) && Guarded(d, w.remote);
    var step, h, enabled := Advance(d, w.remote, w.host, found, a);
    match step {
      case Ok(p) =>
        w', trail := World(p.remote, h), p.trail;
        r := Ok(OwnedBy(d, p.found));
        if good { SuccessConverges(d, p, h); }
      case Err(s) =>
        r := Err(s);
        if s.ambiguous {
          w', trail := World(s.at.remote, h), s.at.trail;
        } else {
          if enabled { h := h.(local := a.disabled); }
          var remote, undo := Compensate(s.at.remote, s.at.created, a.gone);
          w', trail := World(remote, h), s.at.trail + undo;
          UndoKeepsStart(w.remote, s, a.gone);
          if good && CleanlyUndone(s, a.gone) && s.at.created != [] {
            WhatIsMissingIsUnpublished(d, w.remote, found);
            UndoTrailIsGuarded(d, w.remote, s, a.gone, 0);
          }
        }
    }
  }

  // The state file says what was published, and the host is configured for it.
  predicate Published(d: Desired, w: World, o: Owned) {
    w.host.file == Saved(o) && w.host.local.token && w.host.local.env == Some(Env(true, d.hostname, d.team, o.audience))
  }

  // A discovery that does not adopt anything accepts the account, and there is nothing left to create or configure.
  ghost predicate Converged(d: Desired, w: World) {
    exists f :: ConvergedTo(d, w, f)
  }

  ghost predicate ConvergedTo(d: Desired, w: World, f: Found) {
    && Consistent(d, w.remote, f) && Accepts(d, false, w.host.file, Reads(true, true), f)
    && Complete(f) && LocalMatches(d, w.host.local, f.app, f.tunnel)
  }

  lemma SuccessConverges(d: Desired, p: Progress, h: Host)
    requires Good(d, p) && Complete(p.found) && AudienceOf(p.found.app.value).Some?
    requires h.file == Saved(OwnedBy(d, p.found)) && LocalMatches(d, h.local, p.found.app, p.found.tunnel)
    ensures Converged(d, World(p.remote, h))
  {
    assert ConvergedTo(d, World(p.remote, h), p.found);
  }

  // What a successful run has published: the hostname leads, proxied, to the Tunnel; the Tunnel leads to the web
  // service, and nothing else of it anywhere; and in front of the hostname stands the application, which only those
  // whom the policy admits can pass.
  lemma PublishedIsProtected(d: Desired, w: World, o: Owned)
    requires Converged(d, w) && Published(d, w, o)
    ensures var dns := Key(DnsKind, o.dns);
            dns in w.remote && w.remote[dns].Dns? && d.lower(w.remote[dns].name) == d.hostname
            && w.remote[dns] == Dns(w.remote[dns].name, true, ToTunnel(o.tunnel), true)
    ensures var tunnel := Key(TunnelKind, o.tunnel);
            tunnel in w.remote
            && w.remote[tunnel] == Tunnel(d.tunnelName, [Rule(Some(d.hostname), Web), Rule(None, NotFound)])
    ensures var app := Key(AppKind, o.app);
            app in w.remote
            && w.remote[app] == App(d.appName, d.hostname, Settings(true, [d.hostname], d.duration, false, true, Lax),
                                    [Link(o.policy, d.account, 1)], Some(o.audience))
    ensures var policy := Key(PolicyKind, o.policy);
            policy in w.remote && w.remote[policy] == Policy(d.policyName, true, [d.selector], [], [])
  {
    var f :| ConvergedTo(d, w, f);
    assert Only(d, w.remote, DnsKind, f.dns) && Only(d, w.remote, TunnelKind, f.tunnel);
    assert Only(d, w.remote, AppKind, f.app) && Only(d, w.remote, PolicyKind, f.policy);
  }

  // After a successful run the plan keeps everything.
  lemma NothingLeftToPlan(d: Desired, w: World, f: Found)
    requires Converged(d, w) && Discovered(d, w.remote, f)
    ensures Accepts(d, false, w.host.file, Reads(true, true), f)
    ensures Plan(d, f, w.host.local) == [
              Change(Keep, KindOfResource(PolicyKind)), Change(Keep, KindOfResource(AppKind)),
              Change(Keep, KindOfResource(TunnelKind)), Change(Keep, KindOfResource(DnsKind)),
              Change(Keep, TunnelIngress), Change(Keep, LocalHost)]
  {
  }

  // ---- whole runs of the tool, in `apply` mode

  datatype Outcome = Declined(why: Refusal) | Stopped(stop: Stop) | Completed(owned: Owned)

  // Nothing that was there before a run is lost or changed by it, however it ends. A run completes when every request
  // it makes succeeds, and then it has converged; on a converged account a run only reads: it sends no request that
  // could change the account, and leaves the host as it is. At no point of a run that is undone cleanly is the
  // hostname published without what protects it.
  method Provision(d: Desired, adopt: bool, w: World, seen: Reads, a: Answers)
    returns (o: Outcome, w': World, trail: seq<Remote>)
    requires d.Valid() && FreshIds(w.remote, a) && Guarded(d, w.remote)
    ensures o.Completed? ==> Converged(d, w') && Published(d, w', o.owned)
    ensures forall k | k in w.remote :: k in w'.remote && w'.remote[k] == w.remote[k]
    ensures (o.Stopped? ==> CleanlyUndone(o.stop, a.gone)) ==> forall t | t in trail :: Guarded(d, t)
    ensures o.Declined? ==> w' == w && trail == []
    ensures o.Stopped? ==> Halted(d, w.remote, true, o.stop) && Undone(o.stop, a.gone, w'.remote, trail)
    ensures Converged(d, w) ==> w'.remote == w.remote && w'.host.local == w.host.local && trail == []
    ensures Converged(d, w) && seen == Reads(true, true) ==> !o.Declined?
    ensures forall f | Discovered(d, w.remote, f) && Accepts(d, adopt, w.host.file, seen, f) && Suffices(a, f) ::
              o.Completed?
  {
    trail := [];
    var f := Discover(d, adopt, w.remote, w.host.file, seen);
    if f.Err? { return Declined(f.error), w, trail; }
    forall g | Discovered(d, w.remote, g) ensures g == f.value { DiscoveredIsUnique(d, w.remote, f.value, g); }
    var r;
    r, w', trail := Apply(d, w, f.value, a);
    o := if r.Ok? then Completed(r.value) else Stopped(r.error);
  }

  // A run that stopped without an ambiguous POST leaves the account exactly as it was if and only if no failed POST
  // left anything and every DELETE took effect.
  lemma StoppedRunIsUndone(d: Desired, start: Remote, s: Stop, gone: nat -> bool, remote': Remote, trail: seq<Remote>)
    requires Halted(d, start, true, s) && Undone(s, gone, remote', trail) && !s.ambiguous
    ensures remote' == start <==> s.leaked.None? && AllGone(s.at.created, gone)
  {
    UndoneIffClean(start, s, gone);
  }

  // A run that an unanswered POST stopped deletes nothing; `--adopt-existing` can take over what it leaves, except a
  // Tunnel that was created without its configuration.
  lemma AmbiguousRunCanBeAdopted(d: Desired, start: Remote, s: Stop, gone: nat -> bool, remote': Remote,
      trail: seq<Remote>)
    requires Halted(d, start, true, s) && Undone(s, gone, remote', trail) && s.ambiguous
    ensures Adoptable(d, remote') <==> !(s.leaked.Some? && s.leaked.value.kind == TunnelKind)
    ensures forall k | k in s.at.created :: k in remote'
  {
  }
}
