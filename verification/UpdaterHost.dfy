/**
 The host an update changes (deploy/updater_agent.py): checkout, database, running stack, installed agent,
 backups and state file, and the single commands that change them. Any command may fail, before or after
 it took effect, and users write to the database whenever the stack is up.
 */
module UpdaterHost {
  import opened Common

  type Version = nat

  datatype Entry = Written(writer: Version, what: nat) | Migrated(to: Version)

  datatype Database = Database(schema: Version, rows: seq<Entry>)

  datatype Stack = Down | Up(version: Version)

  // A dump is named after the first twelve digits of its version and the second it was taken in;
  // versions are assumed to differ in those digits.
  datatype Path = Path(version: Version, stamp: nat)

  datatype Snapshot = Snapshot(db: Database, takenUnder: Version)

  datatype Check = Check(repository: nat, branch: nat, from: Version, target: Version, at: int)

  // update-state.json, but for its operation record.
  datatype StateFile = StateFile(
    previous: Option<Version>, current: Option<Version>, backup: Option<Path>, lastCheck: Option<Check>)

  datatype Host = Host(
    checkout: Version,
    db: Option<Database>,             // None once a restore died half-way
    stack: Stack,
    healthy: Option<Version>,         // what the last health gate passed on, since the stack last changed
    agent: Version,
    backups: map<Path, Snapshot>,
    file: StateFile,
    ran: seq<Command>)                // every command issued so far, the time of one being its position

  datatype Command = AddWorktree | Build | StopStack | Dump | CheckOut | Restore | ComposeUp | Health | Install

  datatype Env = Env(
    works: (Command, nat) -> bool,
    leaves: (Command, nat) -> bool,   // a failed command had taken effect
    migrates: nat -> bool,            // a failed `up` had migrated the database
    traffic: nat -> seq<nat>,         // what users write before a command, while the stack is up
    stamp: nat -> nat)

  // No command fails from `from` on.
  ghost predicate WorksFrom(env: Env, from: nat) {
    forall command, t | t >= from :: env.works(command, t)
  }

  // Of the commands issued since `before`, one failed.
  ghost predicate FailedIn(env: Env, before: seq<Command>, after: seq<Command>) {
    before <= after && exists t | |before| <= t < |after| :: !env.works(after[t], t)
  }

  // Two of them failed, one after the other.
  ghost predicate FailedTwice(env: Env, before: seq<Command>, after: seq<Command>) {
    && before <= after
    && exists t, u | |before| <= t < u < |after| :: !env.works(after[t], t) && !env.works(after[u], u)
  }

  // The command at `t` did what it is for, whether or not it then failed.
  predicate TookEffect(env: Env, command: Command, t: nat) {
    env.works(command, t) || env.leaves(command, t)
  }

  // `later` is `base` plus what version `writer` wrote: nothing lost, nothing migrated, nothing by anyone else.
  ghost predicate OnlyBy(writer: Version, base: Database, later: Database) {
    && later.schema == base.schema
    && |base.rows| <= |later.rows|
    && (forall i | 0 <= i < |base.rows| :: later.rows[i] == base.rows[i])
    && (forall i | |base.rows| <= i < |later.rows| :: later.rows[i].Written? && later.rows[i].writer == writer)
  }

  // Between two commands only the users of the running version write.
  ghost predicate Drifted(stack: Stack, a: Option<Database>, b: Option<Database>) {
    if stack.Up? && a.Some? then b.Some? && OnlyBy(stack.version, a.value, b.value) else b == a
  }

  lemma DriftTransitive(s1: Stack, s2: Stack, a: Option<Database>, b: Option<Database>, c: Option<Database>)
    requires Drifted(s1, a, b) && Drifted(s2, b, c) && (s2 == s1 || s2 == Down)
    ensures Drifted(s1, a, c)
  {
  }

  // What no command but its own touches.
  ghost predicate SameButDb(command: Command, h0: Host, h: Host) {
    h == h0.(db := h.db, ran := h0.ran + [command])
  }

  function Entries(writer: Version, items: seq<nat>): (es: seq<Entry>)
    ensures |es| == |items| && forall i | 0 <= i < |es| :: es[i] == Written(writer, items[i])
  {
    seq(|items|, i requires 0 <= i < |items| => Written(writer, items[i]))
  }

  // Time passes to the next command; users of a running stack write.
  method Pass(env: Env, command: Command, h0: Host) returns (h: Host)
    ensures SameButDb(command, h0, h) && Drifted(h0.stack, h0.db, h.db)
    ensures h.db == if h0.stack.Up? && h0.db.Some? then
                      Some(h0.db.value.(rows := h0.db.value.rows + Entries(h0.stack.version, env.traffic(|h0.ran|))))
                    else h0.db
    ensures !env.works(command, |h0.ran|) ==> FailedIn(env, h0.ran, h.ran)
  {
    h := h0.(ran := h0.ran + [command]);
    assert h.ran[|h0.ran|] == command;
    if h.stack.Up? && h.db.Some? {
      h := h.(db := Some(h.db.value.(rows := h.db.value.rows + Entries(h.stack.version, env.traffic(|h0.ran|)))));
    }
  }

  // Commands that leave the host as it is.
  method RunIdle(env: Env, command: Command, h0: Host) returns (ok: bool, h: Host)
    ensures SameButDb(command, h0, h) && Drifted(h0.stack, h0.db, h.db)
    ensures ok == env.works(command, |h0.ran|)
    ensures !env.works(command, |h0.ran|) ==> FailedIn(env, h0.ran, h.ran)
  {
    h := Pass(env, command, h0);
    ok := env.works(command, |h0.ran|);
  }

  method RunStop(env: Env, h0: Host) returns (ok: bool, h: Host)
    ensures Drifted(h0.stack, h0.db, h.db)
    ensures h == h0.(db := h.db, ran := h0.ran + [StopStack], stack := h.stack, healthy := h.healthy)
    ensures ok == env.works(StopStack, |h0.ran|)
    ensures h.stack == if TookEffect(env, StopStack, |h0.ran|) then Down else h0.stack
    ensures !env.works(StopStack, |h0.ran|) ==> FailedIn(env, h0.ran, h.ran)
  {
    h := Pass(env, StopStack, h0);
    ok := env.works(StopStack, |h0.ran|);
    if ok || env.leaves(StopStack, |h0.ran|) {
      h := h.(stack := Down, healthy := None);
    }
  }

  // A dump is written aside and renamed: it exists only when it is complete.
  method RunDump(env: Env, h0: Host) returns (ok: bool, path: Path, h: Host)
    ensures Drifted(h0.stack, h0.db, h.db)
    ensures path == Path(h0.checkout, env.stamp(|h0.ran|))
    ensures h == h0.(db := h.db, ran := h0.ran + [Dump], backups := h.backups)
    ensures if ok then h.db.Some? && h.backups == h0.backups[path := Snapshot(h.db.value, h0.checkout)]
            else h.backups == h0.backups
    ensures ok == (env.works(Dump, |h0.ran|) && h0.db.Some?)
    ensures !env.works(Dump, |h0.ran|) ==> FailedIn(env, h0.ran, h.ran)
  {
    h := Pass(env, Dump, h0);
    path := Path(h.checkout, env.stamp(|h0.ran|));
    ok := env.works(Dump, |h0.ran|) && h.db.Some?;
    if ok {
      h := h.(backups := h.backups[path := Snapshot(h.db.value, h.checkout)]);
    }
  }

  method RunCheckout(env: Env, h0: Host, v: Version) returns (ok: bool, h: Host)
    ensures Drifted(h0.stack, h0.db, h.db)
    ensures h == h0.(db := h.db, ran := h0.ran + [CheckOut], checkout := h.checkout)
    ensures h.checkout == if TookEffect(env, CheckOut, |h0.ran|) then v else h0.checkout
    ensures ok == env.works(CheckOut, |h0.ran|)
    ensures !env.works(CheckOut, |h0.ran|) ==> FailedIn(env, h0.ran, h.ran)
  {
    h := Pass(env, CheckOut, h0);
    ok := env.works(CheckOut, |h0.ran|);
    if ok || env.leaves(CheckOut, |h0.ran|) {
      h := h.(checkout := v);
    }
  }

  // Drop, create, load: a failure may leave no database at all.
  method RunRestore(env: Env, h0: Host, path: Path) returns (ok: bool, h: Host)
    ensures h == h0.(db := h.db, ran := h0.ran + [Restore])
    ensures ok ==> path in h0.backups && h.db == Some(h0.backups[path].db)
    ensures ok == (path in h0.backups && env.works(Restore, |h0.ran|))
    ensures !ok ==>
              if path in h0.backups && env.leaves(Restore, |h0.ran|) then h.db == None
              else Drifted(h0.stack, h0.db, h.db)
    ensures !env.works(Restore, |h0.ran|) ==> FailedIn(env, h0.ran, h.ran)
  {
    h := Pass(env, Restore, h0);
    ok := path in h.backups && env.works(Restore, |h0.ran|);
    if ok {
      h := h.(db := Some(h.backups[path].db));
    } else if path in h.backups && env.leaves(Restore, |h0.ran|) {
      h := h.(db := None);
    }
  }

  // The new version's migrations, when the schema is not already its own.
  function Migrate(d: Database, v: Version): Database {
    if d.schema == v then d else Database(v, d.rows + [Migrated(v)])
  }

  // `up` starts what is checked out and migrates the database to it.
  method RunUp(env: Env, h0: Host) returns (ok: bool, h: Host)
    ensures h == h0.(db := h.db, ran := h0.ran + [ComposeUp], stack := h.stack, healthy := h.healthy)
    ensures h.stack == if TookEffect(env, ComposeUp, |h0.ran|) then Up(h0.checkout) else h0.stack
    ensures ok && h0.stack == Down ==>
              h.db == if h0.db.Some? then Some(Migrate(h0.db.value, h0.checkout)) else None
    ensures ok == env.works(ComposeUp, |h0.ran|)
    ensures !env.works(ComposeUp, |h0.ran|) ==> FailedIn(env, h0.ran, h.ran)
  {
    h := Pass(env, ComposeUp, h0);
    ok := env.works(ComposeUp, |h0.ran|);
    var started := ok || env.leaves(ComposeUp, |h0.ran|);
    if h.db.Some? && (started || env.migrates(|h0.ran|)) {
      h := h.(db := Some(Migrate(h.db.value, h.checkout)));
    }
    if started {
      h := h.(stack := Up(h.checkout), healthy := None);
    }
  }

  method RunHealth(env: Env, h0: Host) returns (ok: bool, h: Host)
    ensures Drifted(h0.stack, h0.db, h.db)
    ensures h == h0.(db := h.db, ran := h0.ran + [Health], healthy := h.healthy)
    ensures ok == (h0.stack.Up? && env.works(Health, |h0.ran|))
    ensures h.healthy == if ok then Some(h0.stack.version) else h0.healthy
    ensures !env.works(Health, |h0.ran|) ==> FailedIn(env, h0.ran, h.ran)
  {
    h := Pass(env, Health, h0);
    ok := h.stack.Up? && env.works(Health, |h0.ran|);
    if ok {
      h := h.(healthy := Some(h.stack.version));
    }
  }

  method RunInstall(env: Env, h0: Host) returns (ok: bool, h: Host)
    ensures Drifted(h0.stack, h0.db, h.db)
    ensures h == h0.(db := h.db, ran := h0.ran + [Install], agent := h.agent)
    ensures h.agent == if TookEffect(env, Install, |h0.ran|) then h0.checkout else h0.agent
    ensures ok == env.works(Install, |h0.ran|)
    ensures !env.works(Install, |h0.ran|) ==> FailedIn(env, h0.ran, h.ran)
  {
    h := Pass(env, Install, h0);
    ok := env.works(Install, |h0.ran|);
    if ok || env.leaves(Install, |h0.ran|) {
      h := h.(agent := h.checkout);
    }
  }
}
