/**
 What the Cloudflare provisioning tool (deploy/provision_cloudflare.py) sees and sends: the account's resources, the
 discovery that refuses what is not ours, the plan, and what one request does to the account.
 */
module CloudflareAccount {
  import opened Common

  type Id = nat
  type Name = string

  datatype Kind = PolicyKind | AppKind | TunnelKind | DnsKind

  datatype Key = Key(kind: Kind, id: Id)

  // Who is let in: a pre-created Access group or an email domain.
  datatype Selector = Group(id: string) | EmailDomain(domain: string)

  datatype Service = Web | NotFound | OtherService

  datatype Rule = Rule(hostname: Option<Name>, service: Service)

  datatype Link = Link(policy: Id, account: Name, precedence: int)

  datatype SameSite = Lax | OtherSameSite

  datatype Settings = Settings(selfHosted: bool, destinations: seq<Name>, duration: Name, warp: bool, httpOnly: bool,
      sameSite: SameSite)

  datatype Target = ToTunnel(id: Id) | Elsewhere

  // `audience` is None where the tag is missing or not a valid identifier.
  datatype Resource =
    | Policy(name: Name, allow: bool, admits: seq<Selector>, excludes: seq<Selector>, demands: seq<Selector>)
    | App(name: Name, domain: Name, settings: Settings, policies: seq<Link>, audience: Option<Name>)
    | Tunnel(name: Name, ingress: seq<Rule>)
    | Dns(name: Name, cname: bool, content: Target, proxied: bool)

  // Everything the account holds.
  type Remote = map<Key, Resource>

  // `lower` is the lower-casing of names; the hostname was lower-cased when it was read.
  datatype Desired = Desired(account: Name, zone: Name, hostname: Name, selector: Selector, team: Name,
    tunnelName: Name, appName: Name, policyName: Name, duration: Name, lower: Name -> Name)
  {
    predicate Valid() {
      lower(hostname) == hostname
    }
  }

  // ---- the bodies that are sent

  function DesiredIngress(d: Desired): seq<Rule> {
    [Rule(Some(d.hostname), Web), Rule(None, NotFound)]
  }

  function PolicyBody(d: Desired): Resource {
    Policy(d.policyName, true, [d.selector], [], [])
  }

  function DesiredSettings(d: Desired): Settings {
    Settings(true, [d.hostname], d.duration, false, true, Lax)
  }

  function AppBody(d: Desired, policy: Id, audience: Option<Name>): Resource {
    App(d.appName, d.hostname, DesiredSettings(d), [Link(policy, d.account, 1)], audience)
  }

  function DnsBody(d: Desired, tunnel: Id): Resource {
    Dns(d.hostname, true, ToTunnel(tunnel), true)
  }

  // ---- discovery

  predicate Matches(d: Desired, r: Resource) {
    match r
    case Policy(name, _, _, _, _) => name == d.policyName
    case App(_, domain, _, _, _) => d.lower(domain) == d.hostname
    case Tunnel(name, _) => name == d.tunnelName
    case Dns(name, cname, _, _) => cname && d.lower(name) == d.hostname
  }

  predicate Hit(d: Desired, remote: Remote, kind: Kind, k: Key) {
    k in remote && k.kind == kind && Matches(d, remote[k])
  }

  datatype Item = Item(id: Id, value: Resource)

  datatype Found = Found(policy: Option<Item>, app: Option<Item>, tunnel: Option<Item>, dns: Option<Item>)

  // `item` is the one resource of its kind that matches, or nothing matches.
  ghost predicate Only(d: Desired, remote: Remote, kind: Kind, item: Option<Item>) {
    match item
    case None => forall k :: !Hit(d, remote, kind, k)
    case Some(it) =>
      && Hit(d, remote, kind, Key(kind, it.id)) && remote[Key(kind, it.id)] == it.value
      && forall k :: Hit(d, remote, kind, k) ==> k == Key(kind, it.id)
  }

  ghost predicate Discovered(d: Desired, remote: Remote, f: Found) {
    && Only(d, remote, PolicyKind, f.policy)
    && Only(d, remote, AppKind, f.app)
    && Only(d, remote, TunnelKind, f.tunnel)
    && Only(d, remote, DnsKind, f.dns)
  }

  lemma DiscoveredIsUnique(d: Desired, remote: Remote, f: Found, g: Found)
    requires Discovered(d, remote, f) && Discovered(d, remote, g)
    ensures f == g
  {
  }

  // The state file of the last successful run.
  datatype Owned = Owned(account: Name, zone: Name, hostname: Name, tunnel: Id, app: Id, policy: Id, dns: Id,
      audience: Name)

  datatype File = NoFile | Unreadable | Saved(owned: Owned)

  predicate ForUs(d: Desired, file: File) {
    match file
    case NoFile => true
    case Unreadable => false
    case Saved(o) => o.account == d.account && o.zone == d.zone && o.hostname == d.hostname
  }

  predicate Ours(item: Option<Item>, file: File, id: Owned -> Id) {
    item.Some? ==> file.Saved? && id(file.owned) == item.value.id
  }

  predicate AllOurs(f: Found, file: File) {
    && Ours(f.tunnel, file, (o: Owned) => o.tunnel) && Ours(f.policy, file, (o: Owned) => o.policy)
    && Ours(f.app, file, (o: Owned) => o.app) && Ours(f.dns, file, (o: Owned) => o.dns)
  }

  predicate TunnelFits(d: Desired, f: Found) {
    f.tunnel.Some? ==> f.tunnel.value.value.Tunnel? && f.tunnel.value.value.ingress == DesiredIngress(d)
  }

  predicate PolicyFits(d: Desired, f: Found) {
    f.policy.Some? ==>
      var p := f.policy.value.value;
      p.Policy? && p.allow && p.admits == [d.selector] && p.excludes == [] && p.demands == []
  }

  predicate AppFits(d: Desired, f: Found) {
    f.app.Some? ==>
      var a := f.app.value.value;
      && a.App? && a.name == d.appName && a.domain == d.hostname && a.settings == DesiredSettings(d)
      && f.policy.Some? && a.policies == [Link(f.policy.value.id, d.account, 1)]
  }

  predicate DnsFits(d: Desired, f: Found) {
    f.dns.Some? ==>
      var r := f.dns.value.value;
      r.Dns? && r.cname && f.tunnel.Some? && r.content == ToTunnel(f.tunnel.value.id) && r.proxied
  }

  // What `_verify_ownership` asks of the contents.
  predicate Fits(d: Desired, f: Found) {
    TunnelFits(d, f) && PolicyFits(d, f) && AppFits(d, f) && DnsFits(d, f)
  }

  // `answered` is false when a read fails or answers something malformed; `zone` when the zone is not there, or not
  // alone.
  datatype Reads = Reads(answered: bool, zone: bool)

  // Why a discovery stops.
  datatype Refusal = ForeignState | NoZone | NoAnswer | Ambiguous | Unmanaged | Unexpected

  predicate Accepts(d: Desired, adopt: bool, file: File, seen: Reads, f: Found) {
    ForUs(d, file) && seen.answered && seen.zone && (adopt || AllOurs(f, file)) && Fits(d, f)
  }

  // Everything found is what the last successful run recorded.
  predicate OnlyRecorded(f: Found, file: File) {
    && (file.Saved? ==>
          && (f.tunnel.Some? ==> f.tunnel.value.id == file.owned.tunnel)
          && (f.policy.Some? ==> f.policy.value.id == file.owned.policy)
          && (f.app.Some? ==> f.app.value.id == file.owned.app)
          && (f.dns.Some? ==> f.dns.value.id == file.owned.dns))
    && (!file.Saved? ==> f == Found(None, None, None, None))
  }

  // What a search goes by: the names of policy and Tunnel as they are, the hostname in any case.
  lemma MatchesByName(d: Desired, remote: Remote, k: Key)
    requires k in remote
    ensures match remote[k]
            case Policy(name, _, _, _, _) => Hit(d, remote, PolicyKind, k)
                <==> k.kind == PolicyKind && name == d.policyName
            case App(_, domain, _, _, _) =>
              Hit(d, remote, AppKind, k) <==> k.kind == AppKind && d.lower(domain) == d.hostname
            case Tunnel(name, _) => Hit(d, remote, TunnelKind, k) <==> k.kind == TunnelKind && name == d.tunnelName
            case Dns(name, cname, _, _) =>
              Hit(d, remote, DnsKind, k) <==> k.kind == DnsKind && cname && d.lower(name) == d.hostname
  {
  }

  method SearchKind(d: Desired, remote: Remote, kind: Kind) returns (r: Result<Option<Item>, Refusal>)
    ensures r.Ok? ==> Only(d, remote, kind, r.value)
    ensures r.Err? ==> r.error == Ambiguous && forall item :: !Only(d, remote, kind, item)
  {
    var hits := set k | k in remote && Hit(d, remote, kind, k);
    if hits == {} {
      assert forall k :: Hit(d, remote, kind, k) ==> k in hits;
      return Ok(None);
    }
    var k :| k in hits;
    if j :| j in hits && j != k {
      assert Hit(d, remote, kind, j) && Hit(d, remote, kind, k);
      return Err(Ambiguous);
    }
    assert forall j :: Hit(d, remote, kind, j) ==> j in hits;
    assert k == Key(kind, k.id);
    return Ok(Some(Item(k.id, remote[k])));
  }

  method VerifyOwnership(d: Desired, adopt: bool, file: File, f: Found) returns (r: Result<Found, Refusal>)
    ensures r.Ok? <==> (adopt || AllOurs(f, file)) && Fits(d, f)
    ensures r.Ok? ==> r.value == f
    ensures r.Err? ==> r.error == if !adopt && !AllOurs(f, file) then Unmanaged else Unexpected
  {
    if !adopt && !AllOurs(f, file) { return Err(Unmanaged); }
    if !TunnelFits(d, f) { return Err(Unexpected); }
    if !PolicyFits(d, f) { return Err(Unexpected); }
    if !AppFits(d, f) { return Err(Unexpected); }
    if !DnsFits(d, f) { return Err(Unexpected); }
    return Ok(f);
  }

  // Discovery only reads. It succeeds exactly when every kind has at most one match, nothing is foreign, and all of
  // it fits.
  method Discover(d: Desired, adopt: bool, remote: Remote, file: File, seen: Reads) returns (r: Result<Found, Refusal>)
    ensures r.Ok? ==> Discovered(d, remote, r.value) && Accepts(d, adopt, file, seen, r.value)
    ensures r.Err? ==> forall f | Discovered(d, remote, f) :: !Accepts(d, adopt, file, seen, f)
    ensures r.Ok? && !adopt ==> OnlyRecorded(r.value, file)
    ensures !ForUs(d, file) <==> r == Err(ForeignState)
    ensures ForUs(d, file) <==> match file
                                case NoFile => true
                                case Unreadable => false
                                case Saved(o) => (o.account, o.zone, o.hostname) == (d.account, d.zone, d.hostname)
    ensures ForUs(d, file) && !seen.zone ==> r == Err(NoZone)
    ensures ForUs(d, file) && seen.zone && !seen.answered ==> r == Err(NoAnswer)
    ensures ForUs(d, file) && seen == Reads(true, true) ==>
              (r == Err(Ambiguous) <==> forall f :: !Discovered(d, remote, f))
    ensures r == Err(Unmanaged) ==> !adopt
  {
    if !ForUs(d, file) { return Err(ForeignState); }
    if !seen.zone { return Err(NoZone); }
    if !seen.answered { return Err(NoAnswer); }
    var tunnel :- SearchKind(d, remote, TunnelKind);
    var policy :- SearchKind(d, remote, PolicyKind);
    var app :- SearchKind(d, remote, AppKind);
    var dns :- SearchKind(d, remote, DnsKind);
    var f := Found(policy, app, tunnel, dns);
    assert Discovered(d, remote, f);
    forall g | Discovered(d, remote, g) ensures g == f { DiscoveredIsUnique(d, remote, f, g); }
    r := VerifyOwnership(d, adopt, file, f);
  }

  // ---- the plan

  datatype Env = Env(on: bool, hostname: Name, team: Name, audience: Name)

  // The host: the entries of its `.env` that matter, and whether the token file is there.
  datatype Local = Local(env: Option<Env>, token: bool)

  predicate LocalMatches(d: Desired, local: Local, app: Option<Item>, tunnel: Option<Item>) {
    && app.Some? && tunnel.Some? && app.value.value.App? && app.value.value.audience.Some?
    && local.token && local.env == Some(Env(true, d.hostname, d.team, app.value.value.audience.value))
  }

  datatype Action = Keep | Create | Configure

  datatype Subject = KindOfResource(kind: Kind) | TunnelIngress | LocalHost

  datatype Change = Change(action: Action, subject: Subject)

  function Planned(kind: Kind, item: Option<Item>): Change {
    Change(if item.Some? then Keep else Create, KindOfResource(kind))
  }

  function Plan(d: Desired, f: Found, local: Local): seq<Change> {
    [Planned(PolicyKind, f.policy), Planned(AppKind, f.app), Planned(TunnelKind, f.tunnel), Planned(DnsKind, f.dns)]
    + (if f.tunnel.Some? then [Change(Keep, TunnelIngress)] else [])
    + [Change(if LocalMatches(d, local, f.app, f.tunnel) then Keep else Configure, LocalHost)]
  }

  // The plan creates what the account does not have, and configures the host unless it is set up already.
  lemma PlanCreatesTheMissing(d: Desired, remote: Remote, f: Found, local: Local, kind: Kind)
    requires Discovered(d, remote, f)
    ensures Change(Create, KindOfResource(kind)) in Plan(d, f, local) <==> forall k :: !Hit(d, remote, kind, k)
    ensures Change(Keep, KindOfResource(kind)) in Plan(d, f, local) <==> exists k :: Hit(d, remote, kind, k)
    ensures Change(Configure, LocalHost) in Plan(d, f, local) <==>
            !(&& f.app.Some? && f.tunnel.Some? && f.app.value.value.App? && f.app.value.value.audience.Some?
              && local == Local(Some(Env(true, d.hostname, d.team, f.app.value.value.audience.value)), true))
  {
    var p := Plan(d, f, local);
    assert p[0] == Planned(PolicyKind, f.policy) && p[1] == Planned(AppKind, f.app);
    assert p[2] == Planned(TunnelKind, f.tunnel) && p[3] == Planned(DnsKind, f.dns);
    assert p[|p| - 1].subject == LocalHost;
  }

  // ---- applying

  // How a POST ends: with the new resource; with an error or an unusable answer; or without any answer. In the last two
  // it may have created the resource all the same.
  datatype Post = Made(id: Id) | Refused(leaked: Option<Id>) | Lost(leaked: Option<Id>)

  predicate FreshPost(remote: Remote, kind: Kind, p: Post) {
    match p
    case Made(id) => Key(kind, id) !in remote
    case Refused(leaked) => leaked.Some? ==> Key(kind, leaked.value) !in remote
    case Lost(leaked) => leaked.Some? ==> Key(kind, leaked.value) !in remote
  }

  // A run under way. `trail` holds the account after every POST, PUT and DELETE that was sent, whatever became of it.
  datatype Progress = Progress(remote: Remote, created: seq<Key>, found: Found, trail: seq<Remote>)

  // A run that stopped, and what the failed POST left behind, if anything.
  datatype Stop = Stop(at: Progress, ambiguous: bool, leaked: Option<Key>)

  // The account is what it was, plus what this run created, plus what a failed POST left behind.
  ghost predicate Balanced(start: Remote, p: Progress, leaked: Option<Key>) {
    && (forall k | k in start :: k in p.remote && p.remote[k] == start[k] && k !in p.created && leaked != Some(k))
    && (forall k | k in p.created :: k in p.remote)
    && (forall k | k in p.remote :: k in start || k in p.created || leaked == Some(k))
    && (leaked.Some? ==> leaked.value in p.remote && leaked.value !in p.created)
  }

  // The run knows all there is of its deployment, and all of it fits.
  ghost predicate Settled(d: Desired, p: Progress) {
    Discovered(d, p.remote, p.found) && Fits(d, p.found)
  }

  ghost predicate Has(d: Desired, remote: Remote, kind: Kind) {
    exists k :: Hit(d, remote, kind, k)
  }

  // The hostname is published only when the Tunnel it points to, the Access application in front and its policy exist.
  ghost predicate Guarded(d: Desired, remote: Remote) {
    Has(d, remote, DnsKind) ==> Has(d, remote, PolicyKind) && Has(d, remote, AppKind) && Has(d, remote, TunnelKind)
  }

  ghost predicate AlwaysGuarded(d: Desired, p: Progress) {
    Guarded(d, p.remote) && forall i | 0 <= i < |p.trail| :: Guarded(d, p.trail[i])
  }

  ghost predicate Good(d: Desired, p: Progress) {
    Settled(d, p) && AlwaysGuarded(d, p)
  }

  // An `--adopt-existing` discovery would take over what is there.
  ghost predicate Adoptable(d: Desired, remote: Remote) {
    exists f :: Discovered(d, remote, f) && Fits(d, f)
  }

  ghost predicate GoodStop(d: Desired, s: Stop) {
    && AlwaysGuarded(d, s.at)
    && (s.ambiguous ==> (Adoptable(d, s.at.remote) <==> !(s.leaked.Some? && s.leaked.value.kind == TunnelKind)))
  }

  function WithItem(f: Found, kind: Kind, item: Item): Found {
    match kind
    case PolicyKind => f.(policy := Some(item))
    case AppKind => f.(app := Some(item))
    case TunnelKind => f.(tunnel := Some(item))
    case DnsKind => f.(dns := Some(item))
  }

  function ItemOf(f: Found, kind: Kind): Option<Item> {
    match kind
    case PolicyKind => f.policy
    case AppKind => f.app
    case TunnelKind => f.tunnel
    case DnsKind => f.dns
  }

  function Put(p: Progress, kind: Kind, item: Item): Progress {
    var remote := p.remote[Key(kind, item.id) := item.value];
    Progress(remote, p.created + [Key(kind, item.id)], WithItem(p.found, kind, item), p.trail + [remote])
  }

  function Leave(p: Progress, kind: Kind, body: Resource, leaked: Option<Id>, ambiguous: bool): Stop {
    if leaked.None? then Stop(p.(trail := p.trail + [p.remote]), ambiguous, None)
    else
      var remote := p.remote[Key(kind, leaked.value) := body];
      Stop(p.(remote := remote, trail := p.trail + [remote]), ambiguous, Some(Key(kind, leaked.value)))
  }

  // One POST.
  method Request(p: Progress, kind: Kind, body: Resource, post: Post) returns (r: Result<Progress, Stop>)
    ensures post.Made? ==> r == Ok(Put(p, kind, Item(post.id, body)))
    ensures !post.Made? ==> r.Err? && r.error == Leave(p, kind, body, post.leaked, post.Lost?)
  {
    match post {
      case Made(id) => return Ok(Put(p, kind, Item(id, body)));
      case Refused(leaked) => return Err(Leave(p, kind, body, leaked, false));
      case Lost(leaked) => return Err(Leave(p, kind, body, leaked, true));
    }
  }

  // ---- what one request keeps

  lemma PutIsBalanced(start: Remote, p: Progress, kind: Kind, item: Item)
    requires Balanced(start, p, None) && Key(kind, item.id) !in p.remote
    ensures Balanced(start, Put(p, kind, item), None)
  {
  }

  lemma LeaveIsBalanced(start: Remote, p: Progress, kind: Kind, body: Resource, leaked: Option<Id>, ambiguous: bool)
    requires Balanced(start, p, None) && (leaked.Some? ==> Key(kind, leaked.value) !in p.remote)
    ensures var s := Leave(p, kind, body, leaked, ambiguous); Balanced(start, s.at, s.leaked)
  {
  }

  lemma OnlyAfterAdding(d: Desired, remote: Remote, kind: Kind, item: Item, other: Kind, was: Option<Item>)
    requires Key(kind, item.id) !in remote && Only(d, remote, other, was)
    requires kind == other ==> was.None? && Matches(d, item.value)
    ensures Only(d, remote[Key(kind, item.id) := item.value], other, if kind == other then Some(item) else was)
  {
    var remote' := remote[Key(kind, item.id) := item.value];
    forall k
      ensures Hit(d, remote', other, k) <==> Hit(d, remote, other, k) || (kind == other && k == Key(kind, item.id))
    {
    }
  }

  lemma DiscoveredAfterAdding(d: Desired, remote: Remote, f: Found, kind: Kind, item: Item)
    requires Discovered(d, remote, f) && Key(kind, item.id) !in remote && ItemOf(f, kind).None?
    requires Matches(d, item.value)
    ensures Discovered(d, remote[Key(kind, item.id) := item.value], WithItem(f, kind, item))
  {
    OnlyAfterAdding(d, remote, kind, item, PolicyKind, f.policy);
    OnlyAfterAdding(d, remote, kind, item, AppKind, f.app);
    OnlyAfterAdding(d, remote, kind, item, TunnelKind, f.tunnel);
    OnlyAfterAdding(d, remote, kind, item, DnsKind, f.dns);
  }

  lemma HasIffFound(d: Desired, remote: Remote, f: Found, kind: Kind)
    requires Discovered(d, remote, f)
    ensures Has(d, remote, kind) <==> ItemOf(f, kind).Some?
  {
  }

  lemma HasAfterAdding(d: Desired, remote: Remote, kind: Kind, item: Item, other: Kind)
    requires Key(kind, item.id) !in remote
    ensures Has(d, remote, other) ==> Has(d, remote[Key(kind, item.id) := item.value], other)
    ensures Has(d, remote[Key(kind, item.id) := item.value], other) ==> Has(d, remote, other) || kind == other
  {
    var remote' := remote[Key(kind, item.id) := item.value];
    if k :| Hit(d, remote, other, k) { assert Hit(d, remote', other, k); }
    if k :| Hit(d, remote', other, k) && k != Key(kind, item.id) { assert Hit(d, remote, other, k); }
  }

  lemma GuardedAfterAdding(d: Desired, remote: Remote, kind: Kind, item: Item)
    requires Guarded(d, remote) && Key(kind, item.id) !in remote
    requires kind == DnsKind ==> Has(d, remote, PolicyKind) && Has(d, remote, AppKind) && Has(d, remote, TunnelKind)
    ensures Guarded(d, remote[Key(kind, item.id) := item.value])
  {
    HasAfterAdding(d, remote, kind, item, PolicyKind);
    HasAfterAdding(d, remote, kind, item, AppKind);
    HasAfterAdding(d, remote, kind, item, TunnelKind);
    HasAfterAdding(d, remote, kind, item, DnsKind);
  }

  // A resource may be added when what it refers to is already there.
  predicate Ready(f: Found, kind: Kind) {
    && ItemOf(f, kind).None?
    && (kind == AppKind ==> f.policy.Some?)
    && (kind == DnsKind ==> f.policy.Some? && f.app.Some? && f.tunnel.Some?)
  }

  // The body sent for a kind, with the Tunnel as it is once its configuration is in place.
  predicate IsBody(d: Desired, f: Found, kind: Kind, r: Resource) {
    match kind
    case PolicyKind => r == PolicyBody(d)
    case AppKind => f.policy.Some? && r.App? && r == AppBody(d, f.policy.value.id, r.audience)
    case TunnelKind => r == Tunnel(d.tunnelName, DesiredIngress(d))
    case DnsKind => f.tunnel.Some? && r == DnsBody(d, f.tunnel.value.id)
  }

  lemma AddingSettles(d: Desired, remote: Remote, f: Found, kind: Kind, item: Item)
    requires d.Valid() && Discovered(d, remote, f) && Fits(d, f)
    requires Key(kind, item.id) !in remote && Ready(f, kind) && IsBody(d, f, kind, item.value)
    ensures Discovered(d, remote[Key(kind, item.id) := item.value], WithItem(f, kind, item))
    ensures Fits(d, WithItem(f, kind, item))
  {
    DiscoveredAfterAdding(d, remote, f, kind, item);
  }

  lemma AddingIsGuarded(d: Desired, p: Progress, kind: Kind, item: Item)
    requires Discovered(d, p.remote, p.found) && AlwaysGuarded(d, p)
    requires Key(kind, item.id) !in p.remote && Ready(p.found, kind)
    ensures AlwaysGuarded(d, Put(p, kind, item))
  {
    HasIffFound(d, p.remote, p.found, PolicyKind);
    HasIffFound(d, p.remote, p.found, AppKind);
    HasIffFound(d, p.remote, p.found, TunnelKind);
    GuardedAfterAdding(d, p.remote, kind, item);
  }

  lemma PutIsGood(d: Desired, p: Progress, kind: Kind, item: Item)
    requires d.Valid() && Good(d, p) && Key(kind, item.id) !in p.remote && Ready(p.found, kind)
    requires IsBody(d, p.found, kind, item.value)
    ensures Good(d, Put(p, kind, item))
  {
    AddingSettles(d, p.remote, p.found, kind, item);
    AddingIsGuarded(d, p, kind, item);
  }

  // Stopping at a failed POST leaves something a later run can adopt, unless it is a Tunnel without its configuration.
  lemma LeaveIsGood(d: Desired, p: Progress, kind: Kind, body: Resource, leaked: Option<Id>, ambiguous: bool)
    requires d.Valid() && Good(d, p) && Ready(p.found, kind) && (leaked.Some? ==> Key(kind, leaked.value) !in p.remote)
    requires if kind == TunnelKind then body == Tunnel(d.tunnelName, []) else IsBody(d, p.found, kind, body)
    ensures GoodStop(d, Leave(p, kind, body, leaked, ambiguous))
  {
    if leaked.Some? {
      var item := Item(leaked.value, body);
      AddingIsGuarded(d, p, kind, item);
      if kind == TunnelKind {
        DiscoveredAfterAdding(d, p.remote, p.found, kind, item);
        var remote, f := p.remote[Key(kind, item.id) := body], WithItem(p.found, kind, item);
        forall g | Discovered(d, remote, g) && Fits(d, g) ensures false { DiscoveredIsUnique(d, remote, f, g); }
      } else {
        AddingSettles(d, p.remote, p.found, kind, item);
      }
    }
  }
}
