/**
 The login throttle: failures per key in a window that starts at the first failure, and a lockout after too many
 (backend/app/services/auth_service.py). Times are whole microseconds, as the source's clock gives them.
 */
module LoginThrottle {
  import opened Common

  const SECOND := 1_000_000

  // `login_max_failures`, `login_failure_window_seconds` and `login_lockout_seconds`, the last two in microseconds
  datatype Config = Config(maxFailures: int, window: int, lockout: int)

  const DEFAULTS := Config(5, 300 * SECOND, 900 * SECOND)

  type Key = nat

  datatype Attempt = Attempt(failures: int, first: int, blockedUntil: Option<int>)

  datatype Reply = TooMany(retryAfter: int) | Unauthorized | Disabled | LoggedIn

  // What the user table and the password check say of the credentials.
  datatype Credentials = Wrong | Inactive | Good

  // One call of `login_user`: its clock at the check, and again when it records a failure.
  datatype Login = Login(checkAt: int, recordAt: int, credentials: Credentials)

  // ---- specification

  predicate Blocked(row: Option<Attempt>, now: int) {
    row.Some? && row.value.blockedUntil.Some? && row.value.blockedUntil.value > now
  }

  // The row the failure is counted on: a new one, the old one, or the old one with its window over.
  function Opened(cfg: Config, row: Option<Attempt>, now: int): Attempt {
    if row.None? || now - row.value.first > cfg.window then Attempt(0, now, None) else row.value
  }

  function Failed(cfg: Config, row: Option<Attempt>, now: int): Attempt {
    var a := Opened(cfg, row, now);
    var full := a.failures + 1 >= cfg.maxFailures;
    Attempt(a.failures + 1, a.first, if full then Some(now + cfg.lockout) else a.blockedUntil)
  }

  predicate Records(row: Option<Attempt>, l: Login) {
    !Blocked(row, l.checkAt) && l.credentials == Wrong
  }

  function After(cfg: Config, row: Option<Attempt>, l: Login): Option<Attempt> {
    if Blocked(row, l.checkAt) then row
    else match l.credentials
      case Wrong => Some(Failed(cfg, row, l.recordAt))
      case Inactive => row
      case Good => None
  }

  function Answer(row: Option<Attempt>, l: Login): Reply {
    if Blocked(row, l.checkAt) then TooMany(Wait(row.value.blockedUntil.value - l.checkAt))
    else match l.credentials
      case Wrong => Unauthorized
      case Inactive => Disabled
      case Good => LoggedIn
  }

  // `Retry-After`, in whole seconds
  function Wait(left: int): (seconds: int)
    requires left > 0
    ensures seconds >= 1 && (left < 1_000_000 ==> seconds == 1)
    ensures left >= SECOND ==> seconds * SECOND <= left < (seconds + 1) * SECOND
  {
    if left / SECOND > 1 then left / SECOND else 1
  }

  // ---- the service

  class AuthService {
    const settings: Config
    var attempts: map<Key, Attempt>

    constructor (cfg: Config)
      ensures settings == cfg && attempts == map[]
    {
      settings := cfg;
      attempts := map[];
    }

    function Row(key: Key): Option<Attempt>
      reads this
    {
      if key in attempts then Some(attempts[key]) else None
    }

    method CheckLoginAllowed(key: Key, now: int) returns (refusal: Option<Reply>)
      ensures refusal.Some? <==> Blocked(Row(key), now)
      ensures refusal.Some? ==> refusal.value == TooMany(Wait(attempts[key].blockedUntil.value - now))
    {
      if key in attempts {
        var blocked := attempts[key].blockedUntil;
        if blocked.Some? && blocked.value > now {
          return Some(TooMany(Wait(blocked.value - now)));
        }
      }
      return None;
    }

    method RecordLoginFailure(key: Key, now: int)
      modifies this
      ensures attempts == old(attempts)[key := Failed(settings, old(Row(key)), now)]
    {
      var row;
      if key !in attempts {
        row := Attempt(0, now, None);
      } else {
        row := attempts[key];
        if now - row.first > settings.window {
          row := row.(failures := 0);
          row := row.(first := now);
          row := row.(blockedUntil := None);
        }
      }
      row := row.(failures := row.failures + 1);
      if row.failures >= settings.maxFailures {
        row := row.(blockedUntil := Some(now + settings.lockout));
      }
      attempts := attempts[key := row];
    }

    method ClearLoginFailures(key: Key)
      modifies this
      ensures attempts == old(attempts) - {key}
    {
      attempts := attempts - {key};
    }

    // Only the row of the key is touched; a refused attempt never looks at the credentials, and a disabled account
    // neither counts nor clears.
    method LoginUser(key: Key, l: Login) returns (reply: Reply)
      modifies this
      ensures reply == Answer(old(Row(key)), l)
      ensures reply.TooMany? <==>
                && key in old(attempts) && old(attempts)[key].blockedUntil.Some?
                && l.checkAt < old(attempts)[key].blockedUntil.value
      ensures reply == LoggedIn <==> !reply.TooMany? && l.credentials == Good
      ensures reply == Unauthorized <==> !reply.TooMany? && l.credentials == Wrong
      ensures reply == Disabled <==> !reply.TooMany? && l.credentials == Inactive
      ensures Row(key) == After(settings, old(Row(key)), l)
      ensures attempts - {key} == old(attempts) - {key}
    {
      var refusal := CheckLoginAllowed(key, l.checkAt);
      if refusal.Some? { return refusal.value; }
      if l.credentials == Wrong {
        RecordLoginFailure(key, l.recordAt);
        return Unauthorized;
      }
      if l.credentials == Inactive { return Disabled; }
      ClearLoginFailures(key);
      return LoggedIn;
    }
  }

  // ---- runs for one key: the row lock puts its attempts one after the other

  predicate Ordered(logins: seq<Login>) {
    && (forall i | 0 <= i < |logins| :: logins[i].checkAt <= logins[i].recordAt)
    && (forall i, j | 0 <= i < j < |logins| :: logins[i].recordAt <= logins[j].checkAt)
  }

  function RowAfter(cfg: Config, logins: seq<Login>): Option<Attempt> {
    if logins == [] then None else After(cfg, RowAfter(cfg, logins[..|logins| - 1]), logins[|logins| - 1])
  }

  // The count stays within its maximum, and the row is blocked exactly when it has reached it.
  predicate Within(cfg: Config, row: Option<Attempt>) {
    row.Some? ==>
        && 1 <= row.value.failures <= cfg.maxFailures
        && (row.value.blockedUntil.Some? <==> row.value.failures == cfg.maxFailures)
  }

  // With no block outstanding the row's times lie in the past; a block reaches `lockout` beyond the last failure.
  predicate Timed(cfg: Config, row: Option<Attempt>, last: int) {
    row.Some? ==>
        && row.value.first <= last
        && (row.value.blockedUntil.Some? ==> row.value.first + cfg.lockout <= row.value.blockedUntil.value)
  }

  lemma StepStaysWithin(cfg: Config, row: Option<Attempt>, l: Login, last: int)
    requires cfg.maxFailures >= 1 && cfg.lockout > cfg.window
    requires Within(cfg, row) && Timed(cfg, row, last) && last <= l.checkAt <= l.recordAt
    ensures Within(cfg, After(cfg, row, l)) && Timed(cfg, After(cfg, row, l), l.recordAt)
  {
  }

  lemma {:induction false} RunStaysWithin(cfg: Config, logins: seq<Login>)
    requires cfg.maxFailures >= 1 && cfg.lockout > cfg.window && Ordered(logins)
    ensures Within(cfg, RowAfter(cfg, logins))
    ensures logins != [] ==> Timed(cfg, RowAfter(cfg, logins), logins[|logins| - 1].recordAt)
  {
    if logins != [] {
      var n := |logins| - 1;
      RunStaysWithin(cfg, logins[..n]);
      var last := if n > 0 then logins[n - 1].recordAt else logins[n].checkAt;
      StepStaysWithin(cfg, RowAfter(cfg, logins[..n]), logins[n], last);
    }
  }

  ghost predicate AlwaysWithin(cfg: Config) {
    forall logins | Ordered(logins) :: Within(cfg, RowAfter(cfg, logins))
  }

  // The same wrong password `n` times at one instant.
  function Burst(n: nat): seq<Login> {
    seq(n, i => Login(0, 0, Wrong))
  }

  lemma {:induction false} BurstFills(cfg: Config, n: nat)
    requires cfg.window >= 0 && 1 <= n && n <= cfg.maxFailures
    ensures RowAfter(cfg, Burst(n)) == Some(Attempt(n, 0, if n == cfg.maxFailures then Some(cfg.lockout) else None))
  {
    assert Burst(n)[..n - 1] == Burst(n - 1);
    if n > 1 { BurstFills(cfg, n - 1); }
  }

  // The throttle keeps its bound on every run exactly when a lockout outlasts the window.
  lemma WithinIffLockoutOutlastsWindow(cfg: Config)
    requires cfg.window >= 0
    ensures AlwaysWithin(cfg) <==> cfg.maxFailures >= 1 && cfg.lockout > cfg.window
  {
    if cfg.maxFailures >= 1 && cfg.lockout > cfg.window {
      forall logins | Ordered(logins)
        ensures Within(cfg, RowAfter(cfg, logins))
      {
        RunStaysWithin(cfg, logins);
      }
    } else if cfg.maxFailures < 1 {
      var logins := Burst(1);
      assert logins[..0] == [];
      assert Ordered(logins) && !Within(cfg, RowAfter(cfg, logins));
    } else {
      OneTooMany(cfg);
    }
  }

  // A block no longer than the window ends while the window is still open, and the next failure is one too many.
  lemma OneTooMany(cfg: Config)
    requires cfg.maxFailures >= 1 && 0 <= cfg.window && cfg.lockout <= cfg.window
    ensures !AlwaysWithin(cfg)
  {
    var later := if cfg.lockout > 0 then cfg.lockout else 0;
    var logins := Burst(cfg.maxFailures) + [Login(later, later, Wrong)];
    assert logins[..cfg.maxFailures] == Burst(cfg.maxFailures);
    BurstFills(cfg, cfg.maxFailures);
    assert Ordered(logins) && !Within(cfg, RowAfter(cfg, logins));
  }

  lemma {:induction false} RowSplits(cfg: Config, a: seq<Login>, b: seq<Login>)
    requires RowAfter(cfg, a) == None
    ensures RowAfter(cfg, a + b) == RowAfter(cfg, b)
  {
    if b == [] {
      assert a + b == a;
    } else {
      var n := |b| - 1;
      assert (a + b)[..|a| + n] == a + b[..n];
      RowSplits(cfg, a, b[..n]);
    }
  }

  // A login that succeeds starts the key over: what follows runs as if nothing had come before.
  lemma SuccessStartsOver(cfg: Config, before: seq<Login>, l: Login, after: seq<Login>)
    requires Answer(RowAfter(cfg, before), l) == LoggedIn
    ensures RowAfter(cfg, before + [l] + after) == RowAfter(cfg, after)
  {
    assert (before + [l])[..|before|] == before;
    RowSplits(cfg, before + [l], after);
  }

  // ---- how many failures an interval can hold

  predicate RecordedAt(cfg: Config, logins: seq<Login>, i: nat, from: int, until: int)
    requires i < |logins|
  {
    Records(RowAfter(cfg, logins[..i]), logins[i]) && from <= logins[i].recordAt <= until
  }

  // The failures recorded in `[from, until]` by the first `n` attempts.
  function Recorded(cfg: Config, logins: seq<Login>, n: nat, from: int, until: int): nat
    requires n <= |logins|
  {
    if n == 0 then 0
    else Recorded(cfg, logins, n - 1, from, until) + if RecordedAt(cfg, logins, n - 1, from, until) then 1 else 0
  }

  predicate Unsuccessful(logins: seq<Login>) {
    forall i | 0 <= i < |logins| :: logins[i].credentials != Good
  }

  // How many whole windows fit in a length of time: `a / w`, counted.
  function Windows(a: int, w: int): (n: nat)
    requires w > 0
    decreases a
  {
    if a < w then 0 else 1 + Windows(a - w, w)
  }

  lemma {:induction false} WindowsFit(a: nat, w: int)
    requires w > 0
    ensures w * Windows(a, w) <= a < w * Windows(a, w) + w
  {
    if a >= w {
      WindowsFit(a - w, w);
      assert w * Windows(a, w) == w * Windows(a - w, w) + w;
    }
  }

  lemma ProductIsMonotone(p: int, q: int, w: int)
    requires w > 0 && p <= q
    ensures w * p <= w * q
  {
  }

  lemma FactorsAreOrdered(p: int, q: int, w: int)
    requires w > 0 && w * p < w * q + w
    ensures p <= q
  {
    if p > q { ProductIsMonotone(q + 1, p, w); }
  }

  lemma WindowsIsQuotient(a: nat, w: int)
    requires w > 0
    ensures Windows(a, w) == a / w
  {
    WindowsFit(a, w);
    FactorsAreOrdered(a / w, Windows(a, w), w);
    FactorsAreOrdered(Windows(a, w), a / w, w);
  }

  lemma {:induction false} WindowsGrow(a: int, b: int, w: int)
    requires w > 0 && a <= b
    ensures Windows(a, w) <= Windows(b, w)
    decreases b
  {
    if a >= w { WindowsGrow(a - w, b - w, w); }
  }

  // What may be used up before the window that opens `q` windows into the interval: `max * (q + 1)`, counted.
  function Used(max: nat, q: int): (u: nat)
    requires q >= -1
  {
    if q < 0 then 0 else Used(max, q - 1) + max
  }

  lemma {:induction false} UsedIsProduct(max: nat, q: int)
    requires q >= -1
    ensures Used(max, q) == max * (q + 1)
  {
    if q >= 0 {
      UsedIsProduct(max, q - 1);
      assert max * (q + 1) == max * q + max;
    }
  }

  lemma {:induction false} UsedGrows(max: nat, p: int, q: int)
    requires -1 <= p < q
    ensures Used(max, p) + max <= Used(max, q)
  {
    if p < q - 1 { UsedGrows(max, p, q - 1); }
  }

  // The share of the bound that the window opened at `first` has used up.
  function Share(cfg: Config, row: Attempt, from: int): int
    requires cfg.window > 0 && cfg.maxFailures >= 0
  {
    if row.first < from then row.failures
    else Used(cfg.maxFailures, Windows(row.first - from, cfg.window)) + row.failures
  }

  function Bound(cfg: Config, length: int): int
    requires cfg.window > 0 && cfg.maxFailures >= 0
  {
    Used(cfg.maxFailures, Windows(length, cfg.window) + 1)
  }

  lemma ShareIsWithinBound(cfg: Config, row: Attempt, from: int, until: int)
    requires cfg.window > 0 && 1 <= row.failures <= cfg.maxFailures && row.first <= until && from <= until
    ensures Share(cfg, row, from) <= Bound(cfg, until - from)
  {
    if row.first < from {
      UsedGrows(cfg.maxFailures, -1, Windows(until - from, cfg.window) + 1);
    } else {
      WindowsGrow(row.first - from, until - from, cfg.window);
      UsedGrows(cfg.maxFailures, Windows(row.first - from, cfg.window), Windows(until - from, cfg.window) + 1);
    }
  }

  // Recording a failure at `now` makes room in the share for one more.
  lemma ShareGrows(cfg: Config, row: Option<Attempt>, now: int, from: int)
    requires cfg.window > 0 && cfg.maxFailures >= 1 && from <= now && Within(cfg, row)
    requires row.Some? ==> row.value.first <= now
    ensures (if row.Some? then Share(cfg, row.value, from) else 0) + 1 <= Share(cfg, Failed(cfg, row, now), from)
  {
    UsedGrows(cfg.maxFailures, -1, Windows(now - from, cfg.window));
    if row.Some? && now - row.value.first > cfg.window && row.value.first >= from {
      WindowsGrow(row.value.first - from, now - from - cfg.window, cfg.window);
      UsedGrows(cfg.maxFailures, Windows(row.value.first - from, cfg.window), Windows(now - from, cfg.window));
    }
  }

  lemma {:induction false} RecordedShare(cfg: Config, logins: seq<Login>, n: nat, from: int, until: int)
    requires cfg.maxFailures >= 1 && cfg.lockout > cfg.window > 0
    requires Ordered(logins) && Unsuccessful(logins) && n <= |logins| && from <= until
    ensures InShare(cfg, RowAfter(cfg, logins[..n]), from, until, Recorded(cfg, logins, n, from, until))
  {
    if n == 0 {
      assert Recorded(cfg, logins, 0, from, until) == 0;
    } else {
      RecordedShare(cfg, logins, n - 1, from, until);
      assert logins[..n][..n - 1] == logins[..n - 1];
      RunStaysWithin(cfg, logins[..n - 1]);
      RunStaysWithin(cfg, logins[..n]);
      var row, l := RowAfter(cfg, logins[..n - 1]), logins[n - 1];
      if l.recordAt < from { NothingYet(cfg, logins, n - 1, from, until); }
      ShareStep(cfg, row, l, from, until, Recorded(cfg, logins, n - 1, from, until));
    }
  }

  // One attempt keeps the count of the interval, `k` so far, below the share of the row.
  lemma ShareStep(cfg: Config, row: Option<Attempt>, l: Login, from: int, until: int, k: nat)
    requires cfg.maxFailures >= 1 && cfg.lockout > cfg.window > 0 && from <= until && l.credentials != Good
    requires Within(cfg, row) && Within(cfg, After(cfg, row, l)) && (row.Some? ==> row.value.first <= l.recordAt)
    requires l.recordAt < from ==> k == 0
    requires InShare(cfg, row, from, until, k)
    ensures var one := if Records(row, l) && from <= l.recordAt <= until then 1 else 0;
            InShare(cfg, After(cfg, row, l), from, until, k + one)
  {
    if Records(row, l) {
      if from <= l.recordAt {
        ShareGrows(cfg, row, l.recordAt, from);
        if l.recordAt <= until { ShareIsWithinBound(cfg, Failed(cfg, row, l.recordAt), from, until); }
      }
    }
  }

  predicate InShare(cfg: Config, row: Option<Attempt>, from: int, until: int, k: nat)
    requires cfg.window > 0 && cfg.maxFailures >= 0
  {
    && (if row.Some? then k <= Share(cfg, row.value, from) else k == 0)
    && k <= Bound(cfg, until - from)
  }

  lemma {:induction false} NothingYet(cfg: Config, logins: seq<Login>, n: nat, from: int, until: int)
    requires Ordered(logins) && n < |logins| && logins[n].recordAt < from
    ensures Recorded(cfg, logins, n, from, until) == 0
  {
    if n > 0 {
      assert logins[n - 1].recordAt <= logins[n].checkAt <= logins[n].recordAt;
      NothingYet(cfg, logins, n - 1, from, until);
    }
  }

  // Without a success in between, an interval of length L holds at most `max * (L / window + 2)` failures, so a guesser
  // gets at most that many passwords checked.
  lemma FailuresAreBounded(cfg: Config, logins: seq<Login>, from: int, until: int)
    requires cfg.maxFailures >= 1 && cfg.lockout > cfg.window > 0
    requires Ordered(logins) && Unsuccessful(logins) && from <= until
    ensures Recorded(cfg, logins, |logins|, from, until) <= cfg.maxFailures * ((until - from) / cfg.window + 2)
  {
    RecordedShare(cfg, logins, |logins|, from, until);
    WindowsIsQuotient(until - from, cfg.window);
    UsedIsProduct(cfg.maxFailures, Windows(until - from, cfg.window) + 1);
  }

  // The settings as shipped keep the bound: five failures at most, and in a day at most 1450.
  lemma DefaultsKeepTheBound(logins: seq<Login>, from: int)
    requires Ordered(logins)
    ensures DEFAULTS == Config(5, 300_000_000, 900_000_000) && Within(DEFAULTS, RowAfter(DEFAULTS, logins))
    ensures Unsuccessful(logins) ==> Recorded(DEFAULTS, logins, |logins|, from, from + 86400 * SECOND) <= 1450
  {
    RunStaysWithin(DEFAULTS, logins);
    if Unsuccessful(logins) { FailuresAreBounded(DEFAULTS, logins, from, from + 86400 * SECOND); }
  }

  // Once the maximum is reached, every attempt before the block ends is refused and leaves the row as it is.
  lemma {:induction false} BlockedUntilTheEnd(cfg: Config, logins: seq<Login>, k: nat, n: nat)
    requires Ordered(logins) && k < n <= |logins|
    requires RowAfter(cfg, logins[..k]).Some? && RowAfter(cfg, logins[..k]).value.blockedUntil.Some?
    requires forall i | k <= i < n :: logins[i].checkAt < RowAfter(cfg, logins[..k]).value.blockedUntil.value
    ensures RowAfter(cfg, logins[..n]) == RowAfter(cfg, logins[..k])
    ensures Answer(RowAfter(cfg, logins[..n - 1]), logins[n - 1]).TooMany?
  {
    assert logins[..n][..n - 1] == logins[..n - 1];
    if n - 1 > k { BlockedUntilTheEnd(cfg, logins, k, n - 1); }
  }
}
