/**
 The three actions of the agent, check, apply and rollback, and what any run of them keeps.
 */
module UpdaterActions {
  import opened Common
  import opened UpdaterHost
  import opened UpdaterSaga

  datatype Request = Request(repository: nat, branch: nat, target: Option<Version>)

  // The deployment's Git repository as one action sees it after its fetch.
  datatype Git = Git(
    allowed: nat,
    fetches: bool,
    clean: bool,
    tip: nat -> Option<Version>,
    ancestor: (Version, Version) -> bool,
    signed: Version -> bool,
    requireSigned: bool,
    now: int,
    maxAge: int)

  predicate Matches(c: Check, git: Git, req: Request, checkout: Version)
    requires req.target.Some?
  {
    && c.target == req.target.value && c.branch == req.branch && c.repository == req.repository
    && c.from == checkout && git.now - c.at <= git.maxAge
  }

  // The gate of `apply_update`: the request is the one that was checked, it is still the tip of its branch,
  // and it moves the deployment forward.
  predicate Approved(git: Git, req: Request, h: Host) {
    && req.repository == git.allowed && req.target.Some? && git.clean && git.fetches
    && h.file.lastCheck.Some?
    && Matches(h.file.lastCheck.value, git, req, h.checkout)
    && git.tip(req.branch) == req.target
    && git.ancestor(req.target.value, git.tip(req.branch).value)
    && (git.requireSigned ==> git.signed(req.target.value))
    && git.ancestor(h.checkout, req.target.value)
  }

  method CheckUpdate(git: Git, req: Request, h0: Host) returns (found: Option<Version>, h: Host)
    ensures h == h0.(file := h0.file.(lastCheck := h.file.lastCheck))
    ensures found.Some? ==>
              && git.tip(req.branch) == found
              && h.file.lastCheck == Some(Check(req.repository, req.branch, h0.checkout, found.value, git.now))
    ensures found.None? ==> h == h0
    ensures found.Some? <==> req.repository == git.allowed && git.fetches && git.tip(req.branch).Some?
  {
    h, found := h0, None;
    if req.repository != git.allowed || !git.fetches || git.tip(req.branch).None? { return; }
    found := git.tip(req.branch);
    h := h.(file := h.file.(lastCheck := Some(Check(req.repository, req.branch, h.checkout, found.value, git.now))));
  }

  // Every backup is a snapshot taken while the version it is named after was deployed, and the recorded
  // rollback point is such a backup of the recorded previous version.
  ghost predicate Coherent(h: Host) {
    && (forall p | p in h.backups :: h.backups[p].takenUnder == p.version)
    && (h.file.backup.Some? ==>
         h.file.backup.value in h.backups && h.file.previous == Some(h.file.backup.value.version))
  }

  // Every backup holds a database of the version it is named after.
  ghost predicate Schemas(h: Host) {
    forall p | p in h.backups :: h.backups[p].db.schema == p.version
  }

  lemma CapturedKeeps(h0: Host, h: Host, backup: Path)
    requires Captured(h0, h, backup) && h.file == h0.file
    ensures Coherent(h0) ==> Coherent(h)
    ensures Schemas(h0) && Settled(h0) ==> Schemas(h)
  {
  }

  // The last check found the target on this branch, for what is checked out now, and not before `since`.
  predicate WasChecked(last: Option<Check>, req: Request, checkout: Version, since: int)
    requires req.target.Some?
  {
    last.Some? && since <= last.value.at
    && last.value == Check(req.repository, req.branch, checkout, req.target.value, last.value.at)
  }

  method ApplyUpdate(env: Env, git: Git, req: Request, h0: Host) returns (out: Outcome, h: Host)
    ensures Coherent(h0) ==> Coherent(h)
    ensures Settled(h0) && Schemas(h0) ==> Schemas(h) && (!out.Stranded? ==> Settled(h))
    ensures out.Committed? ==>
              && req.target.Some? && h0.checkout != req.target.value && git.ancestor(h0.checkout, req.target.value)
              && req.repository == git.allowed && git.clean && git.fetches && git.tip(req.branch) == req.target
              && (git.requireSigned ==> git.signed(req.target.value))
              && WasChecked(h0.file.lastCheck, req, h0.checkout, git.now - git.maxAge)
              && Serves(h, req.target.value)
              && h.ran == h0.ran + [AddWorktree, Build, StopStack, Dump, CheckOut, ComposeUp, Health, Install]
              && h.file == StateFile(Some(h0.checkout), req.target, Some(out.backup), None)
              && Captured(h0.(file := h.file), h, out.backup) && h.db.Some?
              && OnlyBy(req.target.value, Migrate(h.backups[out.backup].db, req.target.value), h.db.value)
    ensures out == Recovered ==> Serves(h, h0.checkout) && Restored(h0, h) && h.file == h0.file
    ensures out == Refused ==> Drifted(h0.stack, h0.db, h.db) && h == h0.(db := h.db, ran := h.ran)
    ensures out.Stranded? ==> h.file == h0.file
    ensures h.checkout != h0.checkout ==> Some(h.checkout) == req.target && Approved(git, req, h0)
    ensures out != Refused <==>
              Approved(git, req, h0) && h0.checkout != req.target.value && env.works(AddWorktree, |h0.ran|)
    ensures Approved(git, req, h0) && h0.checkout != req.target.value && h0.db.Some? ==>
              out.Committed? || FailedIn(env, h0.ran, h.ran)
    ensures out.Committed? <==>
              && Approved(git, req, h0) && h0.checkout != req.target.value && h0.db.Some?
              && env.works(AddWorktree, |h0.ran|) && AppliesAt(env, |h0.ran| + 1)
    ensures out.Stranded? && h0.db.Some? ==> FailedTwice(env, h0.ran, h.ran)
  {
    out, h := Refused, h0;
    if !Approved(git, req, h) || h.checkout == req.target.value { return; }
    var ok, backup, h1;
    ok, h := RunIdle(env, AddWorktree, h);
    if !ok { return; }
    var target := req.target.value;
    ghost var begun := h;
    ok, backup, h := ApplySteps(env, h, target);
    if backup.Some? {
      DriftTransitive(h0.stack, begun.stack, h0.db, begun.db, Some(h.backups[backup.value].db));
      CapturedKeeps(h0, h, backup.value);
    } else {
      DriftTransitive(h0.stack, begun.stack, h0.db, begun.db, h.db);
    }
    if ok {
      h := h.(file := StateFile(Some(h0.checkout), Some(target), backup, None));
      return Committed(backup.value), h;
    }
    out, h1 := RecoverAfterFailure(env, h0, h, backup);
    h := h1;
  }

  // A check that finds a tip, and the update to it some time later: with working commands it is committed exactly if
  // the checkout is clean and behind the tip, the tip is still there and signed where it must be, and the check is
  // recent.
  method CheckAndApply(env: Env, git: Git, later: Git, repository: nat, branch: nat, h0: Host)
    returns (found: Option<Version>, out: Outcome, h: Host)
    ensures found.Some? <==> repository == git.allowed && git.fetches && git.tip(branch).Some?
    ensures found.Some? ==> found == git.tip(branch)
    ensures found.None? ==> out == Refused
    ensures out.Committed? ==> Serves(h, found.value)
    ensures found.Some? && h0.db.Some? && WorksFrom(env, |h0.ran|) && later.ancestor(found.value, found.value) ==>
              (out.Committed? <==>
                && repository == later.allowed && later.fetches && later.clean && later.tip(branch) == found
                && later.ancestor(h0.checkout, found.value) && h0.checkout != found.value
                && later.now <= git.now + later.maxAge && (later.requireSigned ==> later.signed(found.value)))
  {
    found, h := CheckUpdate(git, Request(repository, branch, None), h0);
    out, h := ApplyUpdate(env, later, Request(repository, branch, found), h);
  }

  // The body of `rollback_update`'s `try`: the current version is snapshotted before the recorded backup is loaded.
  method RollbackSteps(env: Env, h0: Host, target: Version, backup: Path)
    returns (ok: bool, reverse: Option<Path>, h: Host)
    ensures h.file == h0.file
    ensures h0.ran <= h.ran && (!ok && h0.db.Some? && backup in h0.backups ==> FailedIn(env, h0.ran, h.ran))
    ensures ok <==>
            h0.db.Some? && RollsBackAt(env, |h0.ran|) && (backup in h0.backups || Some(backup) == reverse)
    ensures reverse.None? ==> !ok && Untouched(h0, h)
    ensures reverse.Some? ==> Captured(h0, h, reverse.value)
    ensures ok ==>
              && Serves(h, target) && h.db.Some? && backup in h.backups
              && h.ran == h0.ran + [Build, StopStack, Dump, CheckOut, Restore, ComposeUp, Health, Install]
              && OnlyBy(target, Migrate(h.backups[backup].db, target), h.db.value)
  {
    ok := false;
    reverse, h := Prepare(env, h0);
    if reverse.None? { return; }
    ok, h := RunCheckout(env, h, target);
    if !ok { return; }
    ok, h := RunRestore(env, h, backup);
    if !ok { return; }
    var failed;
    failed, h := Launch(env, h);
    ok := failed.None?;
  }

  // A rollback point is recorded and its backup is there.
  predicate Reversible(h: Host) {
    h.file.previous.Some? && h.file.backup.Some? && h.file.backup.value in h.backups
  }

  method RollbackUpdate(env: Env, h0: Host) returns (out: Outcome, h: Host)
    ensures Coherent(h0) ==> Coherent(h)
    ensures Settled(h0) && Schemas(h0) ==> Schemas(h) && (!out.Stranded? ==> Settled(h))
    ensures out.Committed? ==>
              && h0.file.previous.Some? && h0.file.backup.Some?
              && Serves(h, h0.file.previous.value)
              && h.ran == h0.ran + [AddWorktree, Build, StopStack, Dump, CheckOut, Restore, ComposeUp, Health, Install]
              && h.file == StateFile(Some(h0.checkout), h0.file.previous, Some(out.backup), None)
              && Captured(h0.(file := h.file), h, out.backup) && h.db.Some?
              && h0.file.backup.value in h.backups
              && OnlyBy(h0.file.previous.value,
                        Migrate(h.backups[h0.file.backup.value].db, h0.file.previous.value), h.db.value)
    ensures out == Recovered ==> Serves(h, h0.checkout) && Restored(h0, h) && h.file == h0.file
    ensures out == Refused ==> Drifted(h0.stack, h0.db, h.db) && h == h0.(db := h.db, ran := h.ran)
    ensures out.Stranded? ==> h.file == h0.file
    ensures out != Refused <==> Reversible(h0) && env.works(AddWorktree, |h0.ran|)
    ensures out.Committed? <==>
              && Reversible(h0) && h0.db.Some?
              && env.works(AddWorktree, |h0.ran|) && RollsBackAt(env, |h0.ran| + 1)
    ensures Reversible(h0) && h0.db.Some? && !FailedIn(env, h0.ran, h.ran) ==> out.Committed?
    ensures out.Stranded? && h0.db.Some? ==> FailedTwice(env, h0.ran, h.ran)
  {
    out, h := Refused, h0;
    if !Reversible(h) { return; }
    var ok, reverse, h1;
    ok, h := RunIdle(env, AddWorktree, h);
    if !ok { return; }
    var target, backup := h.file.previous.value, h.file.backup.value;
    ghost var begun := h;
    ok, reverse, h := RollbackSteps(env, h, target, backup);
    if reverse.Some? {
      DriftTransitive(h0.stack, begun.stack, h0.db, begun.db, Some(h.backups[reverse.value].db));
      CapturedKeeps(h0, h, reverse.value);
    } else {
      DriftTransitive(h0.stack, begun.stack, h0.db, begun.db, h.db);
    }
    if ok {
      h := h.(file := StateFile(Some(h0.checkout), Some(target), reverse, None));
      return Committed(reverse.value), h;
    }
    out, h1 := RecoverAfterFailure(env, h0, h, reverse);
    h := h1;
  }

  // Two rollbacks in a row bring back the version they started from and its database, with nothing lost,
  // nothing migrated and nothing written by the version in between.
  method RollBackTwice(env1: Env, env2: Env, h0: Host) returns (first: Outcome, second: Outcome, h: Host)
    requires Coherent(h0) && Settled(h0) && Schemas(h0) && h0.file.previous != Some(h0.checkout)
    ensures first.Committed? && second.Committed? ==>
              && Serves(h, h0.checkout)
              && h.db.Some? && OnlyBy(h0.checkout, h0.db.value, h.db.value)
  {
    var h1;
    first, h1 := RollbackUpdate(env1, h0);
    second, h := RollbackUpdate(env2, h1);
  }

  datatype Action = DoCheck(git: Git, req: Request) | DoApply(env: Env, git: Git, req: Request) | DoRollback(env: Env)

  // What one action makes of the host.
  predicate StepFits(action: Action, h0: Host, out: Outcome, h: Host) {
    match action
    case DoCheck(git, req) =>
      && out == Refused
      && h == if req.repository == git.allowed && git.fetches && git.tip(req.branch).Some? then
                var check := Check(req.repository, req.branch, h0.checkout, git.tip(req.branch).value, git.now);
                h0.(file := h0.file.(lastCheck := Some(check)))
              else h0
    case DoApply(env, git, req) =>
      && (out != Refused <==>
            Approved(git, req, h0) && h0.checkout != req.target.value && env.works(AddWorktree, |h0.ran|))
      && (out.Committed? ==> req.target.Some? && h0.checkout != req.target.value && Serves(h, req.target.value))
      && (h.checkout != h0.checkout ==> git.ancestor(h0.checkout, h.checkout))
    case DoRollback(env) =>
      && (out != Refused <==> Reversible(h0) && env.works(AddWorktree, |h0.ran|))
      && (out.Committed? ==> h0.file.previous.Some? && Serves(h, h0.file.previous.value))
  }

  // `hosts` is the host before and after every action.
  predicate Fits(actions: seq<Action>, outcomes: seq<Outcome>, hosts: seq<Host>) {
    && |outcomes| == |actions| && |hosts| == |actions| + 1
    && forall i | 0 <= i < |actions| :: StepFits(actions[i], hosts[i], outcomes[i], hosts[i + 1])
  }

  // Any run of actions, whatever fails in them: the rollback point stays coherent, and until a recovery
  // fails the host is left settled.
  method Administer(actions: seq<Action>, h0: Host) returns (outcomes: seq<Outcome>, hosts: seq<Host>)
    requires Coherent(h0)
    ensures Fits(actions, outcomes, hosts) && hosts[0] == h0
    ensures Coherent(hosts[|actions|])
    ensures Settled(h0) && Schemas(h0) && (forall i | 0 <= i < |outcomes| :: !outcomes[i].Stranded?) ==>
              Settled(hosts[|actions|]) && Schemas(hosts[|actions|])
  {
    outcomes, hosts := [], [h0];
    for i := 0 to |actions|
      invariant Fits(actions[..i], outcomes, hosts) && hosts[0] == h0
      invariant Coherent(hosts[i])
      invariant Settled(h0) && Schemas(h0) && (forall j | 0 <= j < i :: !outcomes[j].Stranded?) ==>
                Settled(hosts[i]) && Schemas(hosts[i])
    {
      var out, h := Act(actions[i], hosts[i]);
      FitsNext(actions[..i], outcomes, hosts, actions[i], out, h);
      assert actions[..i + 1] == actions[..i] + [actions[i]];
      assert forall j | 0 <= j < i :: (outcomes + [out])[j] == outcomes[j];
      outcomes, hosts := outcomes + [out], hosts + [h];
      assert outcomes[i] == out && hosts[i + 1] == h;
    }
    assert actions[..|actions|] == actions;
  }

  method Act(action: Action, h0: Host) returns (out: Outcome, h: Host)
    requires Coherent(h0)
    ensures StepFits(action, h0, out, h) && Coherent(h)
    ensures Settled(h0) && Schemas(h0) && !out.Stranded? ==> Settled(h) && Schemas(h)
  {
    out := Refused;
    match action {
      case DoCheck(git, req) =>
        var _, checked := CheckUpdate(git, req, h0);
        h := checked;
      case DoApply(env, git, req) => out, h := ApplyUpdate(env, git, req, h0);
      case DoRollback(env) => out, h := RollbackUpdate(env, h0);
    }
  }

  lemma FitsNext(actions: seq<Action>, outcomes: seq<Outcome>, hosts: seq<Host>, action: Action, out: Outcome, h: Host)
    requires Fits(actions, outcomes, hosts) && StepFits(action, hosts[|actions|], out, h)
    ensures Fits(actions + [action], outcomes + [out], hosts + [h])
  {
  }

  // `before` is how commits descend from one another, and every action's repository agrees.
  ghost predicate Descent(before: (Version, Version) -> bool, actions: seq<Action>) {
    && (forall a :: before(a, a))
    && (forall a, b, c :: before(a, b) && before(b, c) ==> before(a, c))
    && (forall a, b :: before(a, b) && before(b, a) ==> a == b)
    && (forall i | 0 <= i < |actions| ::
          actions[i].DoApply? ==> forall a, b :: actions[i].git.ancestor(a, b) == before(a, b))
  }

  // A run of checks and updates, whatever fails in it and even where a recovery fails, never moves the deployment back,
  // and once an update was committed it is a strict descendant of where it was.
  lemma {:induction false} OnlyForward(before: (Version, Version) -> bool, actions: seq<Action>, outcomes: seq<Outcome>,
      hosts: seq<Host>, n: nat)
    requires Fits(actions, outcomes, hosts) && Descent(before, actions) && n <= |actions|
    requires forall i | 0 <= i < |actions| :: !actions[i].DoRollback?
    ensures before(hosts[0].checkout, hosts[n].checkout)
    ensures (exists i :: 0 <= i < n && outcomes[i].Committed?) ==> hosts[n].checkout != hosts[0].checkout
  {
    if n > 0 {
      OnlyForward(before, actions, outcomes, hosts, n - 1);
      assert StepFits(actions[n - 1], hosts[n - 1], outcomes[n - 1], hosts[n]);
    }
  }
}
