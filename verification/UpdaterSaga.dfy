/**
 `apply_update`, `rollback_update` and their recovery: what the host looks like after any of them,
 whichever command failed.
 */
module UpdaterSaga {
  import opened Common
  import opened UpdaterHost

  // Where `recover_version` itself gave up.
  datatype RecoveryPoint = AtStop | AtCheckout | AtRestore | AtUp | AtHealth | AtInstall

  datatype Outcome =
    | Refused                       // nothing was begun
    | Committed(backup: Path)       // a normal return
    | Recovered                     // failed, and the previous version is back
    | Stranded(point: RecoveryPoint) // failed, and recovery failed too

  // Running `v`, healthy, with its own checkout and agent.
  predicate Serves(h: Host, v: Version) {
    h.checkout == v && h.stack == Up(v) && h.healthy == Some(v) && h.agent == v
  }

  // The time at which a recovery gets to `up`, and whether it does.
  function UpTime(h: Host, backup: Option<Path>): nat {
    if backup.Some? then |h.ran| + 3 else |h.ran| + 2
  }

  predicate GetsToUp(env: Env, h: Host, backup: Option<Path>) {
    && env.works(StopStack, |h.ran|) && env.works(CheckOut, |h.ran| + 1)
    && (backup.Some? ==> backup.value in h.backups && env.works(Restore, |h.ran| + 2))
  }

  // The first command of a recovery that fails.
  function FirstFailure(env: Env, h: Host, backup: Option<Path>): Option<RecoveryPoint> {
    if !env.works(StopStack, |h.ran|) then Some(AtStop)
    else if !env.works(CheckOut, |h.ran| + 1) then Some(AtCheckout)
    else if !GetsToUp(env, h, backup) then Some(AtRestore)
    else LaunchFailure(env, UpTime(h, backup))
  }

  // The stop took effect, or there was nothing to stop, and `up` did not.
  predicate LeftDown(env: Env, h: Host, backup: Option<Path>) {
    && (h.stack == Down || TookEffect(env, StopStack, |h.ran|))
    && !(GetsToUp(env, h, backup) && TookEffect(env, ComposeUp, UpTime(h, backup)))
  }

  // The first of the three commands of a launch that fails.
  function LaunchFailure(env: Env, up: nat): Option<RecoveryPoint> {
    if !env.works(ComposeUp, up) then Some(AtUp)
    else if !env.works(Health, up + 1) then Some(AtHealth)
    else if !env.works(Install, up + 2) then Some(AtInstall)
    else None
  }

  // Start what is checked out, wait for it to be healthy, install its agent.
  method Launch(env: Env, h0: Host) returns (failed: Option<RecoveryPoint>, h: Host)
    requires h0.stack == Down
    ensures h.file == h0.file && h.checkout == h0.checkout && h.backups == h0.backups
    ensures failed == LaunchFailure(env, |h0.ran|)
    ensures failed.None? ==> h.ran == h0.ran + [ComposeUp, Health, Install]
    ensures h0.ran <= h.ran && (failed.Some? ==> FailedIn(env, h0.ran, h.ran))
    ensures h.stack == if TookEffect(env, ComposeUp, |h0.ran|) then Up(h0.checkout) else Down
    ensures failed.None? ==> Serves(h, h0.checkout)
    ensures failed.None? && h0.db.Some? ==>
              h.db.Some? && OnlyBy(h0.checkout, Migrate(h0.db.value, h0.checkout), h.db.value)
  {
    var ok, h1, h2;
    ok, h1 := RunUp(env, h0);
    if !ok { return Some(AtUp), h1; }
    ok, h2 := RunHealth(env, h1);
    if !ok { return Some(AtHealth), h2; }
    ok, h := RunInstall(env, h2);
    DriftTransitive(h1.stack, h2.stack, h1.db, h2.db, h.db);
    failed := if ok then None else Some(AtInstall);
  }

  // `recover_version`
  method Recover(env: Env, h0: Host, version: Version, backup: Option<Path>)
    returns (failed: Option<RecoveryPoint>, h: Host)
    ensures h.file == h0.file && h.backups == h0.backups
    ensures failed.None? ==> Serves(h, version)
    ensures failed == FirstFailure(env, h0, backup) && h0.ran <= h.ran
    ensures h.checkout == h0.checkout || h.checkout == version
    ensures failed.Some? ==> FailedIn(env, h0.ran, h.ran) || (backup.Some? && backup.value !in h0.backups)
    ensures failed.None? && backup.Some? ==>
              && backup.value in h0.backups && h.db.Some?
              && OnlyBy(version, Migrate(h0.backups[backup.value].db, version), h.db.value)
    ensures failed.None? && backup.None? && h0.db.Some? && h0.db.value.schema == version
            && (h0.stack == Down || h0.stack == Up(version)) ==>
              h.db.Some? && OnlyBy(version, h0.db.value, h.db.value)
    // The API remains stopped after a failed recovery exactly when the commands left it down.
    ensures failed.Some? ==> (h.stack == Down <==> LeftDown(env, h0, backup))
    ensures failed == Some(AtHealth) || failed == Some(AtInstall) ==> h.stack == Up(version)
  {
    var ok;
    ok, h := RunStop(env, h0);
    if !ok { return Some(AtStop), h; }
    ok, h := RunCheckout(env, h, version);
    if !ok { return Some(AtCheckout), h; }
    if backup.Some? {
      ok, h := RunRestore(env, h, backup.value);
      if !ok { return Some(AtRestore), h; }
    }
    failed, h := Launch(env, h);
  }

  // A recovery that fails at the health gate, from any host: the API is up.
  method HealthGateLeavesApiUp(h0: Host, version: Version) returns (env: Env, failed: Option<RecoveryPoint>, h: Host)
    ensures failed == Some(AtHealth) && h.stack == Up(version)
  {
    env := Env((command, _) => command != Health, (_, _) => false, _ => false, _ => [], _ => 0);
    failed, h := Recover(env, h0, version, None);
  }

  // A snapshot of the database under the version that was checked out, after its users' last writes.
  ghost predicate Captured(h0: Host, h: Host, backup: Path) {
    && backup in h.backups
    && backup.version == h0.checkout
    && h.backups == h0.backups[backup := h.backups[backup]]
    && h.backups[backup].takenUnder == h0.checkout
    && Drifted(h0.stack, h0.db, Some(h.backups[backup].db))
  }

  // Nothing of the target version has run yet.
  ghost predicate Untouched(h0: Host, h: Host) {
    && h.backups == h0.backups
    && (h.stack == h0.stack || h.stack == Down)
    && Drifted(h0.stack, h0.db, h.db)
  }

  // The commands of a preparation work, from the `t`-th on; those of a whole update; those of a whole rollback.
  predicate PreparesAt(env: Env, t: nat) {
    env.works(Build, t) && env.works(StopStack, t + 1) && env.works(Dump, t + 2)
  }

  predicate AppliesAt(env: Env, t: nat) {
    PreparesAt(env, t) && env.works(CheckOut, t + 3) && LaunchFailure(env, t + 4).None?
  }

  predicate RollsBackAt(env: Env, t: nat) {
    PreparesAt(env, t) && env.works(CheckOut, t + 3) && env.works(Restore, t + 4) && LaunchFailure(env, t + 5).None?
  }

  // Build aside, stop the writers, take the snapshot: common to update and rollback.
  method Prepare(env: Env, h0: Host) returns (backup: Option<Path>, h: Host)
    ensures h.file == h0.file && h.checkout == h0.checkout && h.agent == h0.agent
    ensures h0.ran <= h.ran && (backup.None? && h0.db.Some? ==> FailedIn(env, h0.ran, h.ran))
    ensures backup.Some? <==> h0.db.Some? && PreparesAt(env, |h0.ran|)
    // It stops at the first command that fails.
    ensures h.ran == h0.ran + if !env.works(Build, |h0.ran|) then [Build]
                              else if !env.works(StopStack, |h0.ran| + 1) then [Build, StopStack]
                              else [Build, StopStack, Dump]
    ensures backup.None? ==> Untouched(h0, h)
    ensures backup.Some? ==>
              && h.stack == Down && Captured(h0, h, backup.value) && h.db == Some(h.backups[backup.value].db)
              && h.ran == h0.ran + [Build, StopStack, Dump]
  {
    var ok, path, h1, h2, h3;
    ok, h1 := RunIdle(env, Build, h0);
    if !ok { return None, h1; }
    ok, h2 := RunStop(env, h1);
    DriftTransitive(h0.stack, h1.stack, h0.db, h1.db, h2.db);
    if !ok { return None, h2; }
    ok, path, h3 := RunDump(env, h2);
    DriftTransitive(h0.stack, h2.stack, h0.db, h2.db, h3.db);
    if !ok { return None, h3; }
    return Some(path), h3;
  }

  // The body of `apply_update`'s `try`, up to the state file.
  method ApplySteps(env: Env, h0: Host, target: Version) returns (ok: bool, backup: Option<Path>, h: Host)
    ensures h.file == h0.file
    ensures h0.ran <= h.ran && (!ok && h0.db.Some? ==> FailedIn(env, h0.ran, h.ran))
    ensures ok <==> h0.db.Some? && AppliesAt(env, |h0.ran|)
    ensures h.checkout == h0.checkout || h.checkout == target
    ensures backup.None? ==> !ok && Untouched(h0, h)
    ensures backup.Some? ==> Captured(h0, h, backup.value)
    ensures ok ==>
              && Serves(h, target) && h.db.Some?
              && h.ran == h0.ran + [Build, StopStack, Dump, CheckOut, ComposeUp, Health, Install]
              && OnlyBy(target, Migrate(h.backups[backup.value].db, target), h.db.value)
  {
    ok := false;
    backup, h := Prepare(env, h0);
    if backup.None? { return; }
    ok, h := RunCheckout(env, h, target);
    if !ok { return; }
    var failed;
    failed, h := Launch(env, h);
    ok := failed.None?;
  }

  // `recover_after_failure` for a failure at any point after the worktree was added.
  method RecoverAfterFailure(env: Env, h0: Host, h1: Host, backup: Option<Path>) returns (out: Outcome, h: Host)
    requires h1.file == h0.file
    requires backup.None? ==> Untouched(h0, h1)
    requires backup.Some? ==> Captured(h0, h1, backup.value)
    ensures h.file == h0.file && h.backups == h1.backups
    ensures h.checkout == h1.checkout || h.checkout == h0.checkout
    ensures out == Recovered || out.Stranded?
    ensures out == Recovered <==> FirstFailure(env, h1, backup).None?
    ensures h1.ran <= h.ran
    ensures WorksFrom(env, |h1.ran|) ==> out == Recovered
    ensures out.Stranded? ==> FailedIn(env, h1.ran, h.ran)
    ensures out == Recovered ==> Serves(h, h0.checkout) && Restored(h0, h)
    ensures out == Recovered && backup.Some? ==>
              h.db.Some? && OnlyBy(h0.checkout, Migrate(h.backups[backup.value].db, h0.checkout), h.db.value)
    ensures out.Stranded? ==> (h.stack == Down <==> LeftDown(env, h1, backup))
  {
    var point;
    point, h := Recover(env, h1, h0.checkout, backup);
    if point.Some? { return Stranded(point.value), h; }
    out := Recovered;
  }

  // The database belongs to the version checked out, and no other version is running on it.
  predicate Settled(h: Host) {
    h.db.Some? && h.db.value.schema == h.checkout && (h.stack == Down || h.stack == Up(h.checkout))
  }

  // A settled host's database comes back with nothing lost and nothing of the target in it.
  ghost predicate Restored(h0: Host, h: Host) {
    Settled(h0) ==> h.db.Some? && OnlyBy(h0.checkout, h0.db.value, h.db.value)
  }

  lemma Rejoin(h0: Host, mid: Database, end: Database)
    requires Settled(h0) && Drifted(h0.stack, h0.db, Some(mid)) && OnlyBy(h0.checkout, mid, end)
    ensures OnlyBy(h0.checkout, h0.db.value, end)
  {
  }
}
