/**
 How the tasks of a project act on its import state: each is made of transactions on
 the locked row, the ones whose runs have their theorems in `ImportStates`.
 */
module TaskTransactions {
  import opened Common
  import opened ActivationWorld
  import opened ProjectSync
  import opened ProjectMonitor
  import I = ImportStates

  /** Somebody's transaction, from the lock to its commit; a sync has imported before it commits. */
  function Whole(actor: I.Actor): seq<I.Step> {
    if actor == I.SyncService then [I.Lock(actor), I.ImportDone, I.Commit] else [I.Lock(actor), I.Commit]
  }

  lemma ExecTwo(p: I.Record, x: I.Step, y: I.Step)
    ensures I.Exec(p, [x, y]) == I.Apply(I.Apply(p, x), y)
  {
    hide I.Apply;
    assert [x, y][..1] == [x] && [x][..0] == [];
    assert I.Exec(p, []) == p;
  }

  lemma ExecThree(p: I.Record, x: I.Step, y: I.Step, z: I.Step)
    ensures I.Exec(p, [x, y, z]) == I.Apply(I.Apply(I.Apply(p, x), y), z)
  {
    hide I.Apply;
    assert [x, y, z][..2] == [x, y];
    ExecTwo(p, x, y);
  }

  lemma {:induction false} ExecConcat(p: I.Record, first: seq<I.Step>, rest: seq<I.Step>)
    ensures I.Exec(p, first + rest) == I.Exec(I.Exec(p, first), rest)
  {
    hide I.Apply;
    if rest == [] {
      assert first + rest == first;
    } else {
      var n := |rest| - 1;
      assert (first + rest)[..|first + rest| - 1] == first + rest[..n];
      ExecConcat(p, first, rest[..n]);
    }
  }

  /** An unlocked row in some state; whatever was committed before is in the log. */
  ghost predicate Free(p: I.Record, state: ImportState) { p.committed == state && p.lock == None && !p.gone }

  /** What a whole transaction commits: nothing, or one change, which is logged. */
  ghost predicate Commits(p: I.Record, t: I.Record, actor: I.Actor, to: Option<ImportState>) {
    if to.None? then t == p
    else t == p.(committed := to.value, log := p.log + [I.Change(actor, p.committed, to.value)])
  }

  lemma SyncCommits(p: I.Record)
    requires Free(p, p.committed)
    ensures Commits(p, I.Exec(p, Whole(I.SyncService)), I.SyncService, Some(ImportCompleted))
  {
    ExecThree(p, I.Lock(I.SyncService), I.ImportDone, I.Commit);
  }

  /** A sync that has not finished importing cannot commit; rolling back leaves no trace. */
  lemma UnfinishedIsNotCommitted(p: I.Record)
    requires Free(p, p.committed)
    ensures var begun := I.Apply(p, I.Lock(I.SyncService));
      && begun.lock == Some(I.Transaction(I.SyncService, Some(ImportRunning))) && begun.committed == p.committed
      && I.Apply(begun, I.Commit) == begun
    ensures I.Exec(p, [I.Lock(I.SyncService), I.Rollback]) == p
  {
    ExecTwo(p, I.Lock(I.SyncService), I.Rollback);
  }

  lemma RecoveryCommits(p: I.Record)
    requires Free(p, p.committed)
    ensures Commits(p, I.Exec(p, Whole(I.ErrorRecovery)), I.ErrorRecovery,
              if p.committed == ImportPending || p.committed == ImportRunning then Some(ImportFailed) else None)
  {
    ExecTwo(p, I.Lock(I.ErrorRecovery), I.Commit);
  }

  /** The monitor acts only on the state it has seen. */
  lemma MonitorCommits(p: I.Record, seen: ImportState)
    requires Free(p, p.committed)
    ensures Commits(p, I.Exec(p, Whole(I.MonitorTask(seen))), I.MonitorTask(seen),
              if p.committed == seen && (seen == ImportPending || seen == ImportRunning) then Some(ImportFailed)
              else None)
  {
    ExecTwo(p, I.Lock(I.MonitorTask(seen)), I.Commit);
  }

  /** While somebody holds the row, nobody else can lock or delete it; a deleted row stays as it was. */
  lemma LockedIsExclusive(p: I.Record, actor: I.Actor, step: I.Step)
    ensures p.lock.Some? && !p.gone ==> I.Apply(p, I.Lock(actor)) == p && I.Apply(p, I.Delete) == p
    ensures p.lock.Some? && !p.gone && p.lock.value.actor != I.SyncService ==> I.Apply(p, I.ImportDone) == p
    ensures p.gone ==> I.Apply(p, step) == p
    ensures p.lock.None? && !p.gone ==> I.Apply(p, I.Delete) == p.(gone := true)
  {
  }

  /** The transactions that a sync of a project consists of. */
  function SyncSteps(good: bool): seq<I.Step> {
    if good then Whole(I.SyncService) else [I.Lock(I.SyncService), I.Rollback] + Whole(I.ErrorRecovery)
  }

  /** A sync leaves the state of its project as those transactions do. */
  lemma {:induction false} SyncIsTransactions(w: World, pid: nat, outcome: SyncOutcome, broken: set<nat>, p: I.Record)
    requires Valid(w) && pid in w.projects && Free(p, w.projects[pid].importState)
    ensures var t := SyncProject(w, pid, outcome, broken);
      pid in t.projects && Free(I.Exec(p, SyncSteps(outcome.Synced?)), t.projects[pid].importState)
  {
    hide SyncProject, I.Exec;
    SyncEndsWaiting(w, pid, outcome, broken);
    if outcome.Synced? {
      SyncCommits(p);
    } else {
      UnfinishedIsNotCommitted(p);
      ExecConcat(p, [I.Lock(I.SyncService), I.Rollback], Whole(I.ErrorRecovery));
      RecoveryCommits(p);
    }
  }

  /** The transactions of the monitor on one project: one if it has been in that state too long. */
  function MonitorSteps(project: Project, threshold: int): seq<I.Step> {
    if project.modifiedAt < threshold then Whole(I.MonitorTask(project.importState)) else []
  }

  /** So does the monitor. */
  lemma MonitorIsTransactions(w: World, now: int, timeout: int, broken: set<nat>, pid: nat, p: I.Record)
    requires Valid(w) && pid in w.projects && Free(p, w.projects[pid].importState)
    ensures var t := Monitor(w, now, timeout, broken);
      && pid in t.projects
      && Free(I.Exec(p, MonitorSteps(w.projects[pid], now - 2 * timeout)), t.projects[pid].importState)
  {
    hide Monitor, I.Exec, FailStuck;
    MonitorProjects(w, now, timeout, broken);
    StaleFail(w, now - 2 * timeout);
    if w.projects[pid].modifiedAt < now - 2 * timeout {
      MonitorCommits(p, w.projects[pid].importState);
    } else {
      ExecNothing(p);
    }
  }

  lemma ExecNothing(p: I.Record)
    ensures I.Exec(p, []) == p
  {
  }
}
