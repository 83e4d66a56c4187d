/**
 An activation that waits for its project, while syncs, the monitor and users of other
 activations are at work. As long as the tasks that read it come one after the other
 it is resolved once; when two have read it, it can be started twice.
 */
module WaitRace {
  import opened Arbitration
  import opened ActivationWorld
  import opened ProjectImport
  import opened Interleaving
  import opened DisableRace
  import opened RequestBounds

  /** Owed: saved as enabled, its request still to be pushed. */
  datatype Stage = Waiting | Owed | Started | InError

  /** Nobody has read it and is still to deal with it. */
  ghost predicate NoReader(s: Sys, a: nat) { forall k | k in s.passes :: !Holds(s.passes[k].todo, a) }

  ghost predicate OneReader(s: Sys, a: nat) {
    forall k, l | k in s.passes && l in s.passes && Holds(s.passes[k].todo, a) && Holds(s.passes[l].todo, a) :: k == l
  }

  /**
   A task reads it only when no other is at it, and none checks it for a restart. The
   monitor, which reads all that wait and then those of a project it resumes, counts twice.
   */
  ghost predicate ReadsAlone(s: Sys, step: Step, a: nat) {
    step.Open? && MayOpen(s, step.k, step.job, step.query) && Holds(Rows(s.w, step.query), a) ==>
      step.job != RestartJob && NoReader(s, a)
  }

  ghost predicate OneByOne(s: Sys, run: seq<Step>, a: nat)
    decreases |run|
  {
    run == [] || (ReadsAlone(s, run[0], a) && OneByOne(Apply(s, run[0]), run[1..], a))
  }

  /** A pass that has read it while it waited, and has not saved it. */
  ghost predicate ReadWaiting(p: Pass, a: nat, enabled: bool) {
    forall i | 0 <= i < |p.todo| && p.todo[i].id == a ::
      p.todo[i].enabled == enabled && p.job != RestartJob && !(p.pushing && i == 0)
  }

  ghost predicate AllWaiting(s: Sys, a: nat, enabled: bool) {
    forall k | k in s.passes :: ReadWaiting(s.passes[k], a, enabled)
  }

  /** Pass `k` is about to push for it. */
  ghost predicate Owes(s: Sys, k: nat, a: nat, enabled: bool) {
    && AtPush(s, k) && s.passes[k].job == ResumeJob
    && s.passes[k].todo[0].id == a && s.passes[k].todo[0].enabled == enabled
  }

  /** The stage of an activation that began to wait with switch `enabled` and requests `before`. */
  ghost predicate At(s: Sys, stage: Stage, a: nat, enabled: bool, before: seq<Request>)
    requires a in s.w.rows
  {
    var row, requests := s.w.rows[a], PushesOf(s.w.pushes, a);
    match stage
    case Waiting =>
      row.awaiting && row.enabled == enabled && requests == before && OneReader(s, a) && AllWaiting(s, a, enabled)
    case Owed =>
      !row.awaiting && row.enabled && requests == before && OneReader(s, a) && exists k :: Owes(s, k, a, enabled)
    case Started =>
      !row.awaiting && row.enabled && requests == before + [if enabled then Restart else Start] && NoReader(s, a)
    case InError =>
      !row.awaiting && (enabled ==> row.enabled) && requests == before && NoReader(s, a)
  }

  ghost predicate Next(stage: Stage, next: Stage) {
    next == stage || (stage == Waiting && next != Started) || (stage == Owed && next != Waiting)
  }

  // ------------------------------------- steps of others

  lemma {:induction false} OthersHold(s: Sys, step: Step, k: nat, a: nat)
    requires k in Apply(s, step).passes && Holds(Apply(s, step).passes[k].todo, a)
    ensures k in s.passes ==> Holds(s.passes[k].todo, a)
    ensures k !in s.passes ==> step.Open? && MayOpen(s, step.k, step.job, step.query) && Holds(Rows(s.w, step.query), a)
  {
    hide Apply, Rows, MayOpen;
    StepShrinks(s, step, k);
    if k in s.passes {
      var after := Apply(s, step).passes[k].todo;
      var i :| 0 <= i < |after| && after[i].id == a;
      assert after == s.passes[k].todo || after[i] == s.passes[k].todo[i + 1];
    }
  }

  lemma {:induction false} OthersKeepReader(s: Sys, step: Step, a: nat)
    requires ReadsAlone(s, step, a) && OneReader(s, a)
    ensures OneReader(Apply(s, step), a)
  {
    hide Apply, Rows, MayOpen, Holds;
    var t := Apply(s, step);
    forall k | k in t.passes && Holds(t.passes[k].todo, a)
      ensures k in s.passes ==> Holds(s.passes[k].todo, a)
      ensures k !in s.passes ==> step.Open? && step.k == k && NoReader(s, a) && Holds(Rows(s.w, step.query), a)
    {
      OthersHold(s, step, k, a);
      StepShrinks(s, step, k);
    }
  }

  /** What a pass reads of an activation that waits. */
  lemma {:induction false} OpenWaits(s: Sys, step: Step, a: nat, enabled: bool)
    requires Valid(s.w) && a in s.w.rows && s.w.rows[a].enabled == enabled && step.Open? && ReadsAlone(s, step, a)
    requires MayOpen(s, step.k, step.job, step.query)
    ensures ReadWaiting(Pass(step.job, step.query, Rows(s.w, step.query), step.project, false), a, enabled)
  {
    hide Rows, MayOpen;
    RowsOf(s.w, step.query, a);
  }

  /** An activation that does not wait is read by nobody but a check. */
  lemma {:induction false} OpenNot(s: Sys, step: Step, a: nat)
    requires Valid(s.w) && a in s.w.rows && !s.w.rows[a].awaiting && step.Open? && ReadsAlone(s, step, a)
    requires MayOpen(s, step.k, step.job, step.query)
    ensures !Holds(Rows(s.w, step.query), a)
  {
    hide Rows, Restarting;
    RowsOf(s.w, step.query, a);
  }

  lemma AdvancedWaits(before: Pass, after: Pass, a: nat, enabled: bool)
    requires ReadWaiting(before, a, enabled) && Advances(before, after, a)
    ensures ReadWaiting(after, a, enabled)
  {
  }

  lemma {:induction false} OthersWait(s: Sys, step: Step, a: nat, enabled: bool)
    requires Orderly(s) && ByOthers(s, step, a) && ReadsAlone(s, step, a) && AllWaiting(s, a, enabled)
    requires a in s.w.rows && s.w.rows[a].enabled == enabled
    ensures AllWaiting(Apply(s, step), a, enabled)
  {
    hide Apply, ReadWaiting, Rows, MayOpen, Reads, ByOthers, Advances, Valid, AllTidy,
      DistinctTodos, ReadsAlone;
    var t := Apply(s, step);
    forall k | k in t.passes ensures ReadWaiting(t.passes[k], a, enabled) {
      if k in s.passes {
        PassesAdvance(s, step, k, a);
        AdvancedWaits(s.passes[k], t.passes[k], a, enabled);
      } else {
        StepShrinks(s, step, k);
        OpenWaits(s, step, a, enabled);
      }
    }
  }

  lemma {:induction false} OthersOwe(s: Sys, step: Step, k: nat, a: nat, enabled: bool)
    requires ByOthers(s, step, a) && Owes(s, k, a, enabled)
    ensures Owes(Apply(s, step), k, a, enabled)
  {
    hide SaveFirst, ThenPush, Rows, User, RemoveRow, SaveRow, Imported, WithoutProject, Unknown, MayImport;
  }

  /** A step of others leaves it at its stage. */
  lemma {:induction false} StageByOthers(s: Sys, stage: Stage, step: Step, a: nat, enabled: bool, before: seq<Request>)
    requires Orderly(s) && a in s.w.rows && At(s, stage, a, enabled, before)
    requires ByOthers(s, step, a) && ReadsAlone(s, step, a) && a in Apply(s, step).w.rows
    ensures At(Apply(s, step), stage, a, enabled, before)
  {
    hide Apply, ReadsAlone, Rows, MayOpen, ByOthers, Owes, AllWaiting, PushesOf, Valid, AllTidy, AllReads,
      DistinctTodos, OneReader, NoReader;
    var t := Apply(s, step);
    StepLeaves(s, step, a);
    if stage == Waiting {
      OthersKeepReader(s, step, a);
      OthersWait(s, step, a, enabled);
    } else if stage == Owed {
      OthersKeepReader(s, step, a);
      var k :| Owes(s, k, a, enabled);
      OthersOwe(s, step, k, a, enabled);
    } else {
      if step.Open? && MayOpen(s, step.k, step.job, step.query) {
        OpenNot(s, step, a);
      }
      NotOpened(s, step, a);
    }
  }

  lemma {:induction false} NotOpened(s: Sys, step: Step, a: nat)
    requires NoReader(s, a)
    requires step.Open? && MayOpen(s, step.k, step.job, step.query) ==> !Holds(Rows(s.w, step.query), a)
    ensures NoReader(Apply(s, step), a)
  {
    hide Apply, Rows, MayOpen, Holds;
    forall k | k in Apply(s, step).passes ensures !Holds(Apply(s, step).passes[k].todo, a) {
      if Holds(Apply(s, step).passes[k].todo, a) {
        OthersHold(s, step, k, a);
      }
    }
  }

  // ------------------------------------- steps of the pass that has come to it

  /** Once the pass is past it, nobody holds it. */
  lemma {:induction false} PastIt(s: Sys, t: Sys, k: nat, a: nat)
    requires k in s.passes && Holds(s.passes[k].todo, a) && OneReader(s, a)
    requires t.passes.Keys == s.passes.Keys && forall l | l in s.passes && l != k :: t.passes[l] == s.passes[l]
    requires !Holds(t.passes[k].todo, a)
    ensures NoReader(t, a)
  {
  }

  lemma {:induction false} SaveOwes(job: Job, w: World, o: Activation, project: Project)
    requires o.id in w.rows && job != RestartJob && w.rows[o.id].awaiting && w.rows[o.id].enabled == o.enabled
    ensures var s := SaveFirst(job, w, o, project);
      && o.id in s.w.rows && !s.w.rows[o.id].awaiting && s.w.pushes == w.pushes && s.push == (job == ResumeJob)
      && (s.push ==> s.w.rows[o.id].enabled)
      && (!s.push ==> s.w.rows[o.id].enabled == o.enabled && s.w.rows[o.id].status == Error)
  {
  }

  lemma {:induction false} PushStarts(w: World, o: Activation, ok: bool)
    requires o.id in w.rows && !w.rows[o.id].awaiting
    ensures var t := ThenPush(ResumeJob, w, o, ok);
      && o.id in t.rows && !t.rows[o.id].awaiting && t.rows[o.id].enabled == w.rows[o.id].enabled
      && PushesOf(t.pushes, o.id)
        == PushesOf(w.pushes, o.id) + (if !ok then [] else [if o.enabled then Restart else Start])
      && (!ok ==> t.rows[o.id].status == Error)
  {
    hide PushesOf;
    PushesOfSnoc(w.pushes, Pushed(o.id, if o.enabled then Restart else Start), o.id);
    assert PushesOf(w.pushes, o.id) + [] == PushesOf(w.pushes, o.id);
  }

  lemma SameTwice(p: Pass, a: nat)
    requires p.todo != [] && p.todo[0].id == a
    ensures Holds(p.todo, a)
  {
  }

  lemma {:induction false} WaitingHead(s: Sys, step: Step, a: nat, enabled: bool, before: seq<Request>)
    returns (next: Stage)
    requires Orderly(s) && a in s.w.rows && At(s, Waiting, a, enabled, before)
    requires !ByOthers(s, step, a) && !step.UserActs?
    ensures var t := Apply(s, step);
      a in t.w.rows && At(t, next, a, enabled, before) && Next(Waiting, next) && next != Waiting
      && (next == InError ==> t.w.rows[a].status == Error)
  {
    hide SaveFirst, PushesOf, Valid, AllTidy, AllReads, Holds, ThenPush;
    var p := s.passes[step.k];
    assert ReadWaiting(p, a, enabled);
    var t := Apply(s, step);
    SameTwice(p, a);
    SaveOwes(p.job, s.w, p.todo[0], p.project);
    if p.job == ResumeJob {
      next := Owed;
      assert Owes(t, step.k, a, enabled);
    } else {
      next := InError;
      TailNotHeld(p, a);
      PastIt(s, t, step.k, a);
    }
  }

  lemma {:induction false} OwedHead(s: Sys, step: Step, a: nat, enabled: bool, before: seq<Request>)
    returns (next: Stage)
    requires Orderly(s) && a in s.w.rows && At(s, Owed, a, enabled, before)
    requires !ByOthers(s, step, a) && !step.UserActs?
    ensures var t := Apply(s, step);
      a in t.w.rows && At(t, next, a, enabled, before) && Next(Owed, next) && next != Owed
      && (next == InError ==> t.w.rows[a].status == Error)
  {
    hide SaveFirst, PushesOf, Valid, AllTidy, AllReads, Holds, ThenPush;
    var p := s.passes[step.k];
    var t := Apply(s, step);
    var k :| Owes(s, k, a, enabled);
    SameTwice(p, a);
    SameTwice(s.passes[k], a);
    PushStarts(s.w, p.todo[0], step.ok);
    next := if step.ok then Started else InError;
    TailNotHeld(p, a);
    PastIt(s, t, step.k, a);
  }

  lemma HeadIsRead(s: Sys, step: Step, a: nat)
    requires !ByOthers(s, step, a) && !step.UserActs?
    ensures !NoReader(s, a)
  {
    SameTwice(s.passes[step.k], a);
  }

  /**
   One step of anybody: an activation that waits goes on to be resumed or to fail, once,
   and never back; when it comes to fail it is in error.
   */
  lemma {:induction false} StageStep(s: Sys, stage: Stage, step: Step, a: nat, enabled: bool, before: seq<Request>)
    returns (next: Stage)
    requires Orderly(s) && a in s.w.rows && At(s, stage, a, enabled, before) && a in Apply(s, step).w.rows
    requires (step.UserActs? ==> step.id != a) && ReadsAlone(s, step, a)
    ensures At(Apply(s, step), next, a, enabled, before) && Next(stage, next)
    ensures next == InError && stage != InError ==> Apply(s, step).w.rows[a].status == Error
    ensures (step.Save? || step.Push?) && !ByOthers(s, step, a) ==> next != stage
  {
    hide Apply, Orderly, ReadsAlone, OneReader, NoReader, AllWaiting, Owes, PushesOf;
    next := stage;
    if ByOthers(s, step, a) {
      StageByOthers(s, stage, step, a, enabled, before);
    } else {
      HeadIsRead(s, step, a);
      if stage == Waiting {
        next := WaitingHead(s, step, a, enabled, before);
      } else {
        next := OwedHead(s, step, a, enabled, before);
      }
    }
  }

  lemma {:induction false} RemovedStays(s: Sys, run: seq<Step>, a: nat)
    requires Orderly(s) && a in Exec(s, run).w.rows
    ensures a in s.w.rows
    decreases |run|
  {
    hide Apply, AllTidy, AllReads, DistinctTodos, Valid;
    if run != [] {
      StepOrderly(s, run[0]);
      RemovedStays(Apply(s, run[0]), run[1..], a);
      NoneAppears(s, run[0], a);
    }
  }

  lemma {:induction false} NoneAppears(s: Sys, step: Step, a: nat)
    requires Valid(s.w) && a in Apply(s, step).w.rows
    ensures a in s.w.rows
  {
    hide SaveFirst, ThenPush, Rows, User, Imported, MayOpen, Unknown, OnlyTouches;
    match step
    case Save(k) =>
      if AtSave(s, k) {
        SaveFirstIsLocal(s.passes[k].job, s.w, s.passes[k].todo[0], s.passes[k].project);
        LocalTables(s.w, SaveHead(s, k).w, s.passes[k].todo[0].id);
      }
    case Push(k, ok) =>
      if AtPush(s, k) {
        ThenPushIsLocal(s.passes[k].job, s.w, s.passes[k].todo[0], ok);
        LocalTables(s.w, PushHead(s, k, ok).w, s.passes[k].todo[0].id);
      }
    case Import(pid, gitHash, files) =>
      if MayImport(s, pid, files) {
        ImportedIs(s.w, pid, gitHash, files);
      }
    case UserActs(id, row, requests) =>
      UserIsLocal(s.w, id, row, requests);
      LocalTables(s.w, User(s.w, id, row, requests), id);
    case _ =>
  }

  lemma {:induction false} StageOfRun(s: Sys, stage: Stage, run: seq<Step>, a: nat, enabled: bool, before: seq<Request>)
    returns (last: Stage)
    requires Orderly(s) && a in s.w.rows && At(s, stage, a, enabled, before)
    requires NoUser(run, a) && OneByOne(s, run, a) && a in Exec(s, run).w.rows
    ensures At(Exec(s, run), last, a, enabled, before)
    decreases |run|
  {
    hide Apply, Orderly, At, ReadsAlone;
    last := stage;
    if run != [] {
      StepOrderly(s, run[0]);
      RemovedStays(Apply(s, run[0]), run[1..], a);
      var next := StageStep(s, stage, run[0], a, enabled, before);
      last := StageOfRun(Apply(s, run[0]), next, run[1..], a, enabled, before);
    }
  }

  /**
   From any moment at which an activation waits and no task has read it, for whoever acts
   and as long as it exists: it waits still, or it has been resumed or failed once. It
   has one request when its resumption could push, of the kind its switch asked for, and
   none otherwise.
   */
  lemma {:induction false} WaitingEndsOnce(start: Sys, past: seq<Step>, run: seq<Step>, a: nat) returns (stage: Stage)
    requires Valid(start.w) && AllTidy(start.w.rows, start.w.rulebooks) && start.passes == map[]
    requires var s := Exec(start, past);
      a in s.w.rows && s.w.rows[a].awaiting && NoReader(s, a) && NoUser(run, a) && OneByOne(s, run, a)
    requires a in Exec(Exec(start, past), run).w.rows
    ensures var s := Exec(start, past);
      At(Exec(s, run), stage, a, s.w.rows[a].enabled, PushesOf(s.w.pushes, a))
  {
    hide Exec, Valid, AllTidy, PushesOf, OneByOne, NoUser;
    RunOrderly(start, past);
    var s := Exec(start, past);
    stage := StageOfRun(s, Waiting, run, a, s.w.rows[a].enabled, PushesOf(s.w.pushes, a));
  }

  // ------------------------------------- two readers

  /**
   A sync that has completed is about to resume those that wait, when the monitor finds
   them waiting for a completed project and resumes them too: each gets two requests.
   */
  lemma {:induction false} TwoReadersPushTwice(start: Sys, pid: nat, project: Project, a: nat)
    returns (run: seq<Step>)
    requires Valid(start.w) && AllTidy(start.w.rows, start.w.rulebooks) && start.passes == map[]
    requires a in start.w.rows && WaitsFor(start.w.rows[a], pid)
    ensures NoUser(run, a)
    ensures |PushesOf(Exec(start, run).w.pushes, a)| == |PushesOf(start.w.pushes, a)| + 2
  {
    hide Exec, Rows, Valid, AllTidy, PushesOf;
    var sync, monitor := Open(0, ResumeJob, WaitingFor(pid), project), Open(1, ResumeJob, WaitingFor(pid), project);
    var pass := Pass(ResumeJob, WaitingFor(pid), Rows(start.w, WaitingFor(pid)), project, false);
    var s := Exec(start, [sync, monitor]);
    ExecTwo(start, sync, monitor);
    RunOrderly(start, [sync, monitor]);
    assert s == start.(passes := map[0 := pass, 1 := pass]);
    RowsOf(start.w, WaitingFor(pid), a);
    ResumerPushes(pass, a, start.w.rulebooks);
    assert Pushers(s, a) == {0, 1};
    var rest := AllPush(s, a);
    run := [sync, monitor] + rest;
    ExecConcat(start, [sync, monitor], rest);
  }

  lemma ResumerPushes(p: Pass, a: nat, rulebooks: map<nat, Rulebook>)
    requires p.job == ResumeJob && Holds(p.todo, a)
    ensures !PassSafe(p, a, rulebooks)
  {
    var i :| 0 <= i < |p.todo| && p.todo[i].id == a;
    assert !SafeAt(p, i, rulebooks);
  }
}
