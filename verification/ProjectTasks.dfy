/**
 The project tasks as they are written: loops that change fields and save them.
 Each is proved to compute the function that the theorems are about.
 */
module ProjectTasks {
  import opened Common
  import opened Arbitration
  import opened ActivationWorld
  import opened ProjectImport
  import opened ProjectSync
  import opened ProjectMonitor

  /** The tables that the tasks and the views share. `broken` activations are those whose push fails. */
  class Database {
    var rows: map<nat, Activation>
    var order: seq<nat>
    var projects: map<nat, Project>
    var rulebooks: map<nat, Rulebook>
    var pushes: seq<Pushed>

    function W(): World
      reads this
    {
      World(rows, order, projects, rulebooks, pushes)
    }

    constructor (w: World)
      ensures W() == w
    {
      rows, order, projects, rulebooks, pushes := w.rows, w.order, w.projects, w.rulebooks, w.pushes;
    }

    /** Queues a request; the push is undone when its activation is gone. */
    method Push(id: nat, request: Request, broken: set<nat>) returns (ok: bool)
      modifies `pushes
      ensures ok == (id in rows && id !in broken)
      ensures W() == if ok then PushRequest(old(W()), id, request) else old(W())
    {
      ok := id in rows && id !in broken;
      if ok {
        pushes := pushes + [Pushed(id, request)];
      }
    }

    method Save(id: nat, row: Activation)
      requires id in rows
      modifies `rows
      ensures W() == SaveRow(old(W()), id, row) && id in rows
    {
      rows := rows[id := row];
    }

    /** Saves status and flag of an object after an error; a missing row is only logged. */
    method SaveError(id: nat)
      modifies `rows
      ensures W() == MarkError(old(W()), id)
    {
      if id in rows {
        rows := rows[id := rows[id].(status := Error, awaiting := false)];
      }
    }

    method RestartActivation(a: Activation, broken: set<nat>) returns (restarted: bool)
      modifies `rows, `pushes
      ensures restarted == (a.id in old(rows) && a.id !in broken)
      ensures W() == if restarted then PushRequest(old(W()), a.id, Restart)
                     else if a.id in old(rows) then SaveRow(old(W()), a.id, old(rows)[a.id].(status := Error))
                     else old(W())
    {
      restarted := Push(a.id, Restart, broken);
      if !restarted && a.id in rows {
        rows := rows[a.id := rows[a.id].(status := Error)];
      }
    }

    /** Returns whether a restart was triggered; an exception is caught by the caller's loop. */
    method CheckAndRestartActivation(a: Activation, project: Project, broken: set<nat>) returns (triggered: bool)
      modifies `rows, `pushes
      ensures W() == CheckAndRestart(old(W()), a, project, a.id !in broken)
      ensures triggered ==> a.rulebook.Some? && a.rulebook.value in rulebooks
      ensures triggered ==> if a.sha != rulebooks[a.rulebook.value].sha then !a.mapped else HasFailed(a.status)
    {
      if a.rulebook.None? || a.rulebook.value !in rulebooks {
        return false;
      }
      var current := rulebooks[a.rulebook.value];
      var contentChanged := a.sha != current.sha;
      var hashChanged := a.gitHash != project.gitHash;
      if contentChanged && a.mapped {
        return false;
      }
      if contentChanged || hashChanged {
        if a.id !in rows {
          return false;
        }
        rows := rows[a.id := rows[a.id].(rulesets := current.rulesets,
                                         sha := current.sha, gitHash := project.gitHash)];
      }
      var activationFailed := a.status in {Failed, Error};
      if !contentChanged && !activationFailed {
        return false;
      }
      var restarted := RestartActivation(a, broken);
      if activationFailed && restarted {
        rows := rows[a.id := rows[a.id].(failures := 0)];
      }
      return true;
    }

    method AutoRestartActivations(pid: nat, project: Project, broken: set<nat>)
      modifies `rows, `pushes
      ensures W() == RunPass(RestartJob, old(W()), Rows(old(W()), CheckedBy(pid)), project, broken)
    {
      var todo := Rows(W(), CheckedBy(pid));
      for i := 0 to |todo|
        invariant order == old(order) && projects == old(projects) && rulebooks == old(rulebooks)
        invariant W() == RunPass(RestartJob, old(W()), todo[..i], project, broken)
      {
        RunPassSnoc(RestartJob, old(W()), todo, i, project, broken);
        var triggered := CheckAndRestartActivation(todo[i], project, broken);
      }
      assert todo[..|todo|] == todo;
    }

    /** The object with the content its rulebook has now. */
    method UpdateActivationContent(a: Activation, project: Project) returns (b: Activation)
      ensures b == FreshContent(W(), a, project)
    {
      b := a;
      if a.rulebook.Some? && a.rulebook.value in rulebooks {
        var rulebook := rulebooks[a.rulebook.value];
        b := b.(rulesets := rulebook.rulesets);
        if !a.mapped {
          b := b.(sha := rulebook.sha);
        }
      }
      b := b.(gitHash := project.gitHash);
    }

    method ResumeOne(a: Activation, project: Project, broken: set<nat>)
      modifies `rows, `pushes
      ensures W() == Resume(old(W()), a, project, a.id !in broken)
    {
      var b := UpdateActivationContent(a, project);
      if a.id !in rows {
        return;
      }
      var row := rows[a.id].(awaiting := false, rulesets := b.rulesets, sha := b.sha, gitHash := b.gitHash);
      var pushed;
      if !a.enabled {
        rows := rows[a.id := row.(enabled := true, failures := 0, status := Pending)];
        pushed := Push(a.id, Start, broken);
      } else {
        rows := rows[a.id := row];
        pushed := Push(a.id, Restart, broken);
      }
      if !pushed {
        SaveError(a.id);
      }
    }

    method ResumeWaitingActivations(pid: nat, project: Project, broken: set<nat>)
      modifies `rows, `pushes
      ensures W() == RunPass(ResumeJob, old(W()), Rows(old(W()), WaitingFor(pid)), project, broken)
    {
      var todo := Rows(W(), WaitingFor(pid));
      for i := 0 to |todo|
        invariant order == old(order) && projects == old(projects) && rulebooks == old(rulebooks)
        invariant W() == RunPass(ResumeJob, old(W()), todo[..i], project, broken)
      {
        RunPassSnoc(ResumeJob, old(W()), todo, i, project, broken);
        ResumeOne(todo[i], project, broken);
      }
      assert todo[..|todo|] == todo;
    }

    method HandleSyncFailureActivations(pid: nat)
      modifies `rows
      ensures W() == FailWaiting(old(W()), pid)
    {
      var todo := Rows(W(), WaitingFor(pid));
      for i := 0 to |todo|
        invariant order == old(order) && projects == old(projects) && rulebooks == old(rulebooks)
        invariant pushes == old(pushes)
        invariant W() == RunPass(FailJob, old(W()), todo[..i], NO_PROJECT, {})
      {
        RunPassSnoc(FailJob, old(W()), todo, i, NO_PROJECT, {});
        SaveError(todo[i].id);
      }
      assert todo[..|todo|] == todo;
    }

    method HandleProjectErrorRecovery(pid: nat)
      modifies `projects
      ensures W() == Recover(old(W()), pid)
    {
      if pid in projects && projects[pid].importState in {ImportPending, ImportRunning} {
        projects := projects[pid := projects[pid].(importState := ImportFailed)];
      }
    }

    /** One file of the commit: its rulebook, and the activations that are updated in bulk. */
    method SyncRulebook(pid: nat, id: nat, file: File, gitHash: string)
      modifies `rows, `rulebooks
      ensures W() == Reread(old(W()), pid, map[id := file], gitHash)
    {
      hide Reread, RulebookAfter, RowAfter;
      OneFile(W(), pid, id, file, gitHash);
      if id !in rulebooks {
        rulebooks := rulebooks[id := Rulebook(Some(pid), file.text, file.sha)];
      } else if rulebooks[id].project != Some(pid) {
      } else if rulebooks[id].sha == file.sha {
        rows := PassOn(rows, id, gitHash);
      } else {
        rulebooks := rulebooks[id := rulebooks[id].(rulesets := file.text, sha := file.sha)];
        rows := CopyAll(rows, id, file, gitHash);
        rows := CopyText(rows, id, file, gitHash);
      }
    }

    /** All files, in any order, and then the rulebooks whose file is gone. */
    method SyncRulebooks(pid: nat, files: map<nat, File>, gitHash: string)
      modifies `rows, `rulebooks
      ensures W() == Pruned(Reread(old(W()), pid, files, gitHash), pid, files)
    {
      hide Reread, Pruned;
      var todo := files.Keys;
      NoFiles(old(W()), pid, files, gitHash);
      while todo != {}
        invariant todo <= files.Keys
        invariant W() == Reread(old(W()), pid, Only(files, files.Keys - todo), gitHash)
        decreases |todo|
      {
        var id :| id in todo;
        NextFile(old(W()), pid, files, files.Keys - todo, id, gitHash);
        SyncRulebook(pid, id, files[id], gitHash);
        assert files.Keys - (todo - {id}) == files.Keys - todo + {id};
        todo := todo - {id};
      }
      assert files.Keys - todo == files.Keys;
      assert Only(files, files.Keys) == files;
      RemoveUnseen(pid, files);
    }

    method RemoveUnseen(pid: nat, files: map<nat, File>)
      modifies `rows, `rulebooks
      ensures W() == Pruned(old(W()), pid, files)
    {
      var before := rulebooks;
      rulebooks := map id | id in rulebooks && !Unseen(before, pid, files, id) :: rulebooks[id];
      rows := map a | a in rows :: Detached(rows[a], before, pid, files);
    }

    /** The import service, when it raises nothing; a warning still completes the import. */
    method ServiceSyncProject(pid: nat, gitHash: string, files: Option<map<nat, File>>)
      requires pid in projects
      modifies `projects, `rows, `rulebooks
      ensures pid in projects && W() == Imported(old(W()), pid, gitHash, files)
    {
      hide Reread, Pruned;
      if projects[pid].gitHash == gitHash && exists id | id in rulebooks :: rulebooks[id].project == Some(pid) {
        projects := projects[pid := projects[pid].(importState := ImportCompleted)];
        return;
      }
      projects := projects[pid := projects[pid].(gitHash := gitHash)];
      if files.Some? {
        SyncRulebooks(pid, files.value, gitHash);
        TablesKept(old(W()), pid, gitHash, files.value);
      }
      projects := projects[pid := projects[pid].(importState := ImportCompleted)];
    }

    /** One sync task, once it holds its lock. `outcome` is what the import service did. */
    method SyncProjectNoLock(pid: nat, outcome: SyncOutcome, broken: set<nat>)
      modifies this
      ensures W() == SyncProject(old(W()), pid, outcome, broken)
    {
      if pid !in projects {
        HandleSyncFailureActivations(pid);
        return;
      }
      match outcome
      case SyncRaised =>
        HandleProjectErrorRecovery(pid);
        HandleSyncFailureActivations(pid);
      case Synced(gitHash, files) =>
        ServiceSyncProject(pid, gitHash, files);
        var project := projects[pid];
        AutoRestartActivations(pid, project, broken);
        ResumeWaitingActivations(pid, project, broken);
    }

    /** Fails the projects left too long in a state; each is looked at again before it is changed. */
    method RecoverStuckProjects(expected: ImportState, threshold: int) returns (recovered: nat)
      requires expected != ImportFailed
      modifies `projects
      ensures W() == RecoverStuck(old(W()), expected, threshold)
      ensures recovered == |StuckIds(old(projects), expected, threshold)|
    {
      hide PartlyFailed, RecoverStuck, StuckIds;
      var all := StuckIds(projects, expected, threshold);
      var todo := all;
      assert all - todo == {};
      NoneFailed(projects);
      recovered := 0;
      while todo != {}
        invariant todo <= all && recovered + |todo| == |all|
        invariant PartlyFailed(old(projects), projects, all - todo)
        decreases |todo|
      {
        var p :| p in todo;
        StillStuck(old(projects), projects, all, todo, p, expected, threshold);
        if projects[p].importState == expected {
          FailedNext(old(projects), projects, all - todo, p);
          projects := projects[p := projects[p].(importState := ImportFailed)];
          recovered := recovered + 1;
        }
        OneLess(all, todo, p);
        todo := todo - {p};
      }
      assert all - todo == all;
      AllStuckFailed(old(W()), expected, threshold, projects, all);
    }

    method RecoverOrphanedAwaitingActivations(broken: set<nat>)
      modifies `rows, `pushes
      ensures W() == RecoverOrphans(old(W()), Rows(old(W()), AnyWaiting), broken).w
    {
      var stuck := Rows(W(), AnyWaiting);
      var resumedProjects: set<nat> := {};
      for i := 0 to |stuck|
        invariant order == old(order) && projects == old(projects) && rulebooks == old(rulebooks)
        invariant Recovery(W(), resumedProjects) == RecoverOrphans(old(W()), stuck[..i], broken)
      {
        OrphansSnoc(old(W()), stuck, i, broken);
        var activation := stuck[i];
        var project := ProjectOf(projects, activation);
        if project.None? || project.value.importState !in {ImportPending, ImportRunning} {
          if project.Some? && project.value.importState == ImportCompleted
            && activation.project.value !in resumedProjects
          {
            ResumeWaitingActivations(activation.project.value, project.value, broken);
            resumedProjects := resumedProjects + {activation.project.value};
          } else {
            SaveError(activation.id);
          }
        }
      }
      assert stuck[..|stuck|] == stuck;
    }

    method MonitorProjectTasks(now: int, timeout: int, broken: set<nat>)
      modifies this
      ensures W() == Monitor(old(W()), now, timeout, broken)
    {
      var threshold := now - timeout * 2;
      var stuckCount := RecoverStuckProjects(ImportRunning, threshold);
      var pendingCount := RecoverStuckProjects(ImportPending, threshold);
      RecoverOrphanedAwaitingActivations(broken);
    }
  }

  // The bulk updates of the import service.

  function PassOn(rows: map<nat, Activation>, id: nat, gitHash: string): map<nat, Activation> {
    map a | a in rows :: if rows[a].rulebook == Some(id) then rows[a].(gitHash := gitHash) else rows[a]
  }

  /** An activation that the service itself brings up to date with a changed rulebook. */
  predicate Copies(row: Activation, id: nat) { row.rulebook == Some(id) && !row.restartOnUpdate }

  function CopyAll(rows: map<nat, Activation>, id: nat, file: File, gitHash: string): map<nat, Activation> {
    map a | a in rows :: if Copies(rows[a], id) && !rows[a].mapped
      then rows[a].(rulesets := file.text, sha := file.sha, gitHash := gitHash) else rows[a]
  }

  function CopyText(rows: map<nat, Activation>, id: nat, file: File, gitHash: string): map<nat, Activation> {
    map a | a in rows :: if Copies(rows[a], id) && rows[a].mapped
      then rows[a].(rulesets := file.text, gitHash := gitHash) else rows[a]
  }

  /** Some of the files. */
  function Only(files: map<nat, File>, some: set<nat>): map<nat, File> {
    map id | id in files && id in some :: files[id]
  }

  /** What the bulk updates for one file come to. */
  lemma OneFile(w: World, pid: nat, id: nat, file: File, gitHash: string)
    ensures Reread(w, pid, map[id := file], gitHash) ==
      if id !in w.rulebooks then w.(rulebooks := w.rulebooks[id := Rulebook(Some(pid), file.text, file.sha)])
      else if w.rulebooks[id].project != Some(pid) then w
      else if w.rulebooks[id].sha == file.sha then w.(rows := PassOn(w.rows, id, gitHash))
      else w.(rulebooks := w.rulebooks[id := w.rulebooks[id].(rulesets := file.text, sha := file.sha)],
              rows := CopyText(CopyAll(w.rows, id, file, gitHash), id, file, gitHash))
  {
    hide Reread, RulebooksAfter, RowsAfter;
    RereadIs(w, pid, map[id := file], gitHash);
    OneFileRulebooks(w.rulebooks, pid, id, file);
    OneFileRows(w, pid, id, file, gitHash);
  }

  lemma RereadIs(w: World, pid: nat, files: map<nat, File>, gitHash: string)
    ensures Reread(w, pid, files, gitHash)
         == w.(rulebooks := RulebooksAfter(w.rulebooks, pid, files),
             rows := RowsAfter(w.rows, w.rulebooks, pid, files, gitHash))
  {
  }

  lemma OneFileRulebooks(rulebooks: map<nat, Rulebook>, pid: nat, id: nat, file: File)
    ensures RulebooksAfter(rulebooks, pid, map[id := file]) ==
      if id !in rulebooks then rulebooks[id := Rulebook(Some(pid), file.text, file.sha)]
      else if rulebooks[id].project != Some(pid) || rulebooks[id].sha == file.sha then rulebooks
      else rulebooks[id := rulebooks[id].(rulesets := file.text, sha := file.sha)]
  {
  }

  lemma OneFileRows(w: World, pid: nat, id: nat, file: File, gitHash: string)
    ensures RowsAfter(w.rows, w.rulebooks, pid, map[id := file], gitHash) ==
      if id !in w.rulebooks || w.rulebooks[id].project != Some(pid) then w.rows
      else if w.rulebooks[id].sha == file.sha then PassOn(w.rows, id, gitHash)
      else CopyText(CopyAll(w.rows, id, file, gitHash), id, file, gitHash)
  {
  }

  lemma NoFiles(w: World, pid: nat, files: map<nat, File>, gitHash: string)
    ensures Reread(w, pid, Only(files, files.Keys - files.Keys), gitHash) == w
  {
    assert Only(files, files.Keys - files.Keys) == map[];
  }

  /** One more file on top of those read so far. */
  lemma NextFile(w: World, pid: nat, files: map<nat, File>, done: set<nat>, id: nat, gitHash: string)
    requires id in files && id !in done
    ensures Reread(Reread(w, pid, Only(files, done), gitHash), pid, map[id := files[id]], gitHash)
         == Reread(w, pid, Only(files, done + {id}), gitHash)
  {
    hide RowsAfter, RulebooksAfter;
    NextFileRows(w, pid, files, done, id, gitHash);
    NextFileRulebooks(w.rulebooks, pid, files, done, id);
  }

  lemma NextFileRows(w: World, pid: nat, files: map<nat, File>, done: set<nat>, id: nat, gitHash: string)
    requires id in files && id !in done
    ensures RowsAfter(RowsAfter(w.rows, w.rulebooks, pid, Only(files, done), gitHash),
                      RulebooksAfter(w.rulebooks, pid, Only(files, done)), pid, map[id := files[id]], gitHash)
         == RowsAfter(w.rows, w.rulebooks, pid, Only(files, done + {id}), gitHash)
  {
    hide RowAfter, RulebooksAfter, Only;
    forall a | a in w.rows
      ensures RowAfter(RowAfter(w.rows[a], w.rulebooks, pid, Only(files, done), gitHash),
                       RulebooksAfter(w.rulebooks, pid, Only(files, done)), pid, map[id := files[id]], gitHash)
           == RowAfter(w.rows[a], w.rulebooks, pid, Only(files, done + {id}), gitHash)
    {
      NextFileRow(w.rulebooks, pid, files, done, id, gitHash, w.rows[a]);
    }
  }

  lemma NextFileRow(rulebooks: map<nat, Rulebook>, pid: nat, files: map<nat, File>, done: set<nat>, id: nat,
                    gitHash: string,
                    row: Activation)
    requires id in files && id !in done
    ensures RowAfter(RowAfter(row, rulebooks, pid, Only(files, done), gitHash),
                     RulebooksAfter(rulebooks, pid, Only(files, done)), pid, map[id := files[id]], gitHash)
         == RowAfter(row, rulebooks, pid, Only(files, done + {id}), gitHash)
  {
    var mid := RowAfter(row, rulebooks, pid, Only(files, done), gitHash);
    assert mid.rulebook == row.rulebook;
    if row.rulebook == Some(id) {
      assert mid == row;
      KnownAlready(rulebooks, pid, Only(files, done), id);
    } else {
      hide RulebooksAfter;
      var known := RulebooksAfter(rulebooks, pid, Only(files, done));
      assert RowAfter(mid, known, pid, map[id := files[id]], gitHash) == mid;
    }
  }

  /** A rulebook without a file among these is as it was. */
  lemma KnownAlready(rulebooks: map<nat, Rulebook>, pid: nat, files: map<nat, File>, id: nat)
    requires id !in files
    ensures id in RulebooksAfter(rulebooks, pid, files) <==> id in rulebooks
    ensures id in rulebooks ==> RulebooksAfter(rulebooks, pid, files)[id] == rulebooks[id]
  {
  }

  lemma NextFileRulebooks(rulebooks: map<nat, Rulebook>, pid: nat, files: map<nat, File>, done: set<nat>, id: nat)
    requires id in files && id !in done
    ensures RulebooksAfter(RulebooksAfter(rulebooks, pid, Only(files, done)), pid, map[id := files[id]])
         == RulebooksAfter(rulebooks, pid, Only(files, done + {id}))
  {
    hide RulebookAfter;
    var mid, some := RulebooksAfter(rulebooks, pid, Only(files, done)), Only(files, done + {id});
    assert mid.Keys + {id} == rulebooks.Keys + some.Keys;
    forall r | r in mid || r == id
      ensures RulebookAfter(mid, pid, map[id := files[id]], r) == RulebookAfter(rulebooks, pid, some, r)
    {
      NextFileRulebook(rulebooks, pid, files, done, id, r);
    }
  }

  lemma NextFileRulebook(rulebooks: map<nat, Rulebook>, pid: nat, files: map<nat, File>, done: set<nat>, id: nat,
                         r: nat)
    requires id in files && id !in done && (r in RulebooksAfter(rulebooks, pid, Only(files, done)) || r == id)
    ensures var mid := RulebooksAfter(rulebooks, pid, Only(files, done));
      RulebookAfter(mid, pid, map[id := files[id]], r) == RulebookAfter(rulebooks, pid, Only(files, done + {id}), r)
  {
  }

  lemma TablesKept(w: World, pid: nat, gitHash: string, files: map<nat, File>)
    requires pid in w.projects
    ensures var moved := SetGitHash(w, pid, gitHash);
      Pruned(Reread(moved, pid, files, gitHash), pid, files).projects == moved.projects
  {
  }

  /** What the query for stuck projects returns. */
  function StuckIds(projects: map<nat, Project>, expected: ImportState, threshold: int): set<nat> {
    set p | p in projects && Stuck(projects[p], expected, threshold)
  }

  /** The projects of `done` are failed, the others as before. */
  ghost predicate PartlyFailed(before: map<nat, Project>, now: map<nat, Project>, done: set<nat>) {
    && now.Keys == before.Keys
    && forall p | p in before :: now[p] == if p in done then before[p].(importState := ImportFailed) else before[p]
  }

  lemma OneLess(all: set<nat>, todo: set<nat>, p: nat)
    requires p in todo && todo <= all
    ensures all - (todo - {p}) == all - todo + {p} && |todo - {p}| == |todo| - 1 && p !in all - todo
  {
  }

  lemma NoneFailed(before: map<nat, Project>)
    ensures PartlyFailed(before, before, {})
  {
  }

  lemma StillStuck(before: map<nat, Project>, now: map<nat, Project>, all: set<nat>, todo: set<nat>, p: nat,
                   expected: ImportState, threshold: int)
    requires all == StuckIds(before, expected, threshold)
    requires todo <= all && p in todo && PartlyFailed(before, now, all - todo)
    ensures p in now && now[p].importState == expected
  {
  }

  lemma FailedNext(before: map<nat, Project>, now: map<nat, Project>, done: set<nat>, p: nat)
    requires PartlyFailed(before, now, done) && p in now && p !in done
    ensures PartlyFailed(before, now[p := now[p].(importState := ImportFailed)], done + {p})
  {
  }

  lemma AllStuckFailed(w: World, expected: ImportState, threshold: int, now: map<nat, Project>, all: set<nat>)
    requires all == StuckIds(w.projects, expected, threshold)
    requires PartlyFailed(w.projects, now, all)
    ensures RecoverStuck(w, expected, threshold) == w.(projects := now)
  {
  }

  lemma RunPassSnoc(job: Job, w: World, todo: seq<Activation>, i: nat, project: Project, broken: set<nat>)
    requires i < |todo|
    ensures RunPass(job, w, todo[..i + 1], project, broken)
         == One(job, RunPass(job, w, todo[..i], project, broken), todo[i], project, todo[i].id !in broken)
  {
    assert todo[..i + 1][..i] == todo[..i];
  }

  lemma OrphansSnoc(w: World, todo: seq<Activation>, i: nat, broken: set<nat>)
    requires i < |todo|
    ensures RecoverOrphans(w, todo[..i + 1], broken)
        == RecoverOrphan(RecoverOrphans(w, todo[..i], broken), w.projects, todo[i], broken)
  {
    assert todo[..i + 1][..i] == todo[..i];
  }
}
