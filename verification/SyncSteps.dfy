/**
 A task that nobody interferes with: its single steps add up to what the functions
 on the tables say, so a sync is one of the runs in which tasks and users mix.
 */
module SyncSteps {
  import opened ActivationWorld
  import opened ProjectImport
  import opened ProjectSync
  import opened Interleaving

  /** A loop over activations seen from its first one. */
  lemma {:induction false} RunPassCons(job: Job, w: World, todo: seq<Activation>, project: Project, broken: set<nat>)
    requires todo != []
    ensures RunPass(job, w, todo, project, broken)
      == RunPass(job, One(job, w, todo[0], project, todo[0].id !in broken), todo[1..], project, broken)
  {
    hide One;
    var n := |todo| - 1;
    if n > 0 {
      RunPassCons(job, w, todo[..n], project, broken);
      assert todo[..n][1..] == todo[1..][..n - 1];
    } else {
      assert todo[..n] == [] == todo[1..];
      assert RunPass(job, w, [], project, broken) == w;
    }
  }

  /** The pass gets past its first activation, as the loop does in one go. */
  lemma {:induction false} HeadAlone(s: Sys, k: nat, broken: set<nat>) returns (run: seq<Step>)
    requires AtSave(s, k)
    ensures var p := s.passes[k];
      var o := p.todo[0];
      Exec(s, run) == Sys(One(p.job, s.w, o, p.project, o.id !in broken), s.passes[k := p.(todo := p.todo[1..])])
  {
    hide SaveFirst, ThenPush, One, Exec;
    var p := s.passes[k];
    var o := p.todo[0];
    TwoStepsAreOne(p.job, s.w, o, p.project, o.id !in broken);
    var t := SaveHead(s, k);
    if SaveFirst(p.job, s.w, o, p.project).push {
      run := [Save(k), Push(k, o.id !in broken)];
      ExecTwo(s, Save(k), Push(k, o.id !in broken));
      assert AtPush(t, k);
      assert t.passes[k].(todo := p.todo[1..], pushing := false) == p.(todo := p.todo[1..]);
      assert t.passes[k := p.(todo := p.todo[1..])] == s.passes[k := p.(todo := p.todo[1..])];
    } else {
      run := [Save(k)];
      ExecOne(s, Save(k));
    }
  }

  /** A pass that nobody interferes with ends as the loop of its task does. */
  lemma {:induction false} PassAlone(s: Sys, k: nat, broken: set<nat>) returns (run: seq<Step>)
    requires k in s.passes && !s.passes[k].pushing
    ensures var p := s.passes[k];
      Exec(s, run) == Sys(RunPass(p.job, s.w, p.todo, p.project, broken), s.passes[k := p.(todo := [])])
    decreases |s.passes[k].todo|
  {
    hide One, Apply, RunPass, Exec;
    var p := s.passes[k];
    if p.todo == [] {
      run := [];
      NothingDone(p.job, s.w, p.project, broken);
      ExecNothing(s);
      assert s.passes[k := p.(todo := [])] == s.passes;
    } else {
      var first := HeadAlone(s, k, broken);
      var t := Exec(s, first);
      var rest := PassAlone(t, k, broken);
      run := first + rest;
      ExecConcat(s, first, rest);
      RunPassCons(p.job, s.w, p.todo, p.project, broken);
      assert t.passes[k := p.(todo := [])] == s.passes[k := p.(todo := [])];
    }
  }

  lemma NothingDone(job: Job, w: World, project: Project, broken: set<nat>)
    ensures RunPass(job, w, [], project, broken) == w
  {
  }

  /** Read, and worked through to the end. */
  lemma {:induction false} TaskAlone(s: Sys, k: nat, job: Job, q: Query, project: Project, broken: set<nat>)
    returns (run: seq<Step>)
    requires MayOpen(s, k, job, q)
    ensures Exec(s, run) ==
      Sys(RunPass(job, s.w, Rows(s.w, q), project, broken), s.passes[k := Pass(job, q, [], project, false)])
  {
    hide RunPass, Rows, Exec, MayOpen;
    var open := Open(k, job, q, project);
    var p := Pass(job, q, Rows(s.w, q), project, false);
    var t := s.(passes := s.passes[k := p]);
    ExecOne(s, open);
    OpensPass(s, k, job, q, project);
    var rest := PassAlone(t, k, broken);
    run := [open] + rest;
    ExecConcat(s, [open], rest);
    assert t.passes[k := p.(todo := [])] == s.passes[k := p.(todo := [])];
  }

  lemma OpensPass(s: Sys, k: nat, job: Job, q: Query, project: Project)
    requires MayOpen(s, k, job, q)
    ensures Apply(s, Open(k, job, q, project))
      == s.(passes := s.passes[k := Pass(job, q, Rows(s.w, q), project, false)])
  {
  }

  /** What a sync needs to begin: for a good one, that no other has the project's lock. */
  ghost predicate MaySync(s: Sys, pid: nat, outcome: SyncOutcome) {
    pid in s.w.projects && outcome.Synced? ==> MayImport(s, pid, outcome.files)
  }

  /** Whatever else has been going on, a sync that is let alone from here on does what `SyncProject` says. */
  lemma {:induction false} SyncIsRun(s: Sys, pid: nat, outcome: SyncOutcome, broken: set<nat>, k: nat, l: nat)
    returns (run: seq<Step>)
    requires MaySync(s, pid, outcome) && k !in s.passes && l !in s.passes && k != l
    ensures Exec(s, run).w == SyncProject(s.w, pid, outcome, broken)
  {
    hide RunPass, Rows, Exec, MayImport, Imported;
    if pid in s.w.projects && outcome.Synced? {
      var begin := Import(pid, outcome.gitHash, outcome.files);
      var t := s.(w := Imported(s.w, pid, outcome.gitHash, outcome.files));
      ExecOne(s, begin);
      Imports(s, pid, outcome);
      var checks := TaskAlone(t, k, RestartJob, CheckedBy(pid), t.w.projects[pid], broken);
      var u := Exec(t, checks);
      var resumes := TaskAlone(u, l, ResumeJob, WaitingFor(pid), t.w.projects[pid], broken);
      run := [begin] + (checks + resumes);
      ExecConcat(s, [begin], checks + resumes);
      ExecConcat(t, checks, resumes);
    } else {
      var recovery := SetProjects(Recover(s.w, pid).projects);
      var t := s.(w := Recover(s.w, pid));
      ExecOne(s, recovery);
      var failures := TaskAlone(t, k, FailJob, WaitingFor(pid), NO_PROJECT, {});
      run := [recovery] + failures;
      ExecConcat(s, [recovery], failures);
    }
  }

  lemma Imports(s: Sys, pid: nat, outcome: SyncOutcome)
    requires outcome.Synced? && MayImport(s, pid, outcome.files)
    ensures var t := s.(w := Imported(s.w, pid, outcome.gitHash, outcome.files));
      && Apply(s, Import(pid, outcome.gitHash, outcome.files)) == t
      && pid in t.w.projects && !Restarting(t, pid)
  {
  }
}
