/**
 How an attempt keeps its row: between two polls it commits a new deadline, so that no other worker can claim the row
 while the attempt is waiting, as long as the clock moves by no more than a lease from one commit to the next.
 */
module OperationLease {
  import opened Common
  import opened OperationRecord
  import opened OperationHistory
  import opened OperationGuarantees
  import opened OperationEngine
  import opened OperationWorker

  lemma {:induction false} PollIsOwed(db0: Db, log: seq<Event>, i: nat)
    requires i < |log| && log[i].Polled? && forall k | i < k < |log| :: !log[k].Saved? && !log[k].Began?
    ensures Judge(db0, log).polled
    decreases |log|
  {
    if i < |log| - 1 { PollIsOwed(db0, log[..|log| - 1], i); }
  }

  // Between two polls of one attempt there is a commit.
  lemma PollsAreApart(db0: Db, log: seq<Event>, i: nat, j: nat) returns (k: nat)
    requires Clean(db0, log) && i < j < |log| && log[i].Polled? && log[j].Polled?
    requires forall k | i < k < j :: !log[k].Began?
    ensures i < k < j && log[k].Saved?
  {
    CleanStep(db0, log, j);
    if forall k | i < k < j :: !log[k].Saved? {
      PollIsOwed(db0, log[..j], i);
    }
    k :| i < k < j && log[k].Saved?;
  }

  // The last commit before `j` at or after `from`.
  lemma {:induction false} LastSave(db0: Db, log: seq<Event>, from: nat, j: nat) returns (k: nat)
    requires from < j <= |log| && log[from].Saved?
    ensures from <= k < j && log[k].Saved? && forall m | k < m < j :: !log[m].Saved?
    ensures Stored(db0, log[..j]).row == log[k].saved.row
    decreases j
  {
    assert log[..j][..j - 1] == log[..j - 1];
    if log[j - 1].Saved? {
      k := j - 1;
    } else {
      k := LastSave(db0, log, from, j - 1);
    }
  }

  // From position `from` on, the clock is never more than a lease past the last commit.
  ghost predicate InTime(cfg: Config, env: Env, log: seq<Event>, from: nat) {
    forall k, j | from <= k < j < |log| && log[k].Saved? && (forall m | k < m < j :: !log[m].Saved?) ::
      env.clock(j) <= env.clock(k) + cfg.leaseSeconds
  }

  // Every commit of an attempt that goes on writes a deadline one lease from its own time.
  lemma DeadlineIsWritten(cfg: Config, env: Env, before: seq<Event>, log: seq<Event>, k: nat)
    requires Runs(cfg, env, before, log) && |before| < k < |log| && log[k].Saved?
    ensures log[k].saved.row.life.state == Running ==>
              log[k].saved.row.life.leaseExpires == Some(env.clock(k) + cfg.leaseSeconds)
  {
    assert Told(cfg, env, k, log[k]);
  }

  // Whenever a run asks or calls the hypervisor, the committed row is its own: nobody can claim it.
  lemma WorkingKeepsTheRow(cfg: Config, env: Env, db0: Db, before: seq<Event>, log: seq<Event>, j: nat)
    requires Clean(db0, log) && Runs(cfg, env, before, log) && Claims(before, log)
    requires InTime(cfg, env, log, |before| + 1) && |before| + 1 < j < |log|
    requires !log[j].Saved? && !log[j].SaveFailed?
    ensures !Claimable(Stored(db0, log[..j]).row.life, env.clock(j))
  {
    var k := LastSave(db0, log, |before| + 1, j);
    DeadlineIsWritten(cfg, env, before, log, k);
    CleanStep(db0, log, j);
    JudgeStored(db0, log[..j]);
  }
}
