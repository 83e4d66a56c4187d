/**
 One pass of the project monitor: stuck projects are failed, then activations
 whose project no longer syncs are resumed or put in error.
 */
module ProjectMonitor {
  import opened Common
  import opened Arbitration
  import opened ActivationWorld
  import opened ProjectSync

  predicate Stuck(p: Project, expected: ImportState, threshold: int) {
    p.importState == expected && p.modifiedAt < threshold
  }

  function RecoverStuck(w: World, expected: ImportState, threshold: int): World {
    w.(projects := map p | p in w.projects ::
        if Stuck(w.projects[p], expected, threshold) then w.projects[p].(importState := ImportFailed)
        else w.projects[p])
  }

  /** The project an activation object carries, if it still exists. */
  function ProjectOf(projects: map<nat, Project>, a: Activation): Option<Project> {
    if a.project.Some? && a.project.value in projects then Some(projects[a.project.value]) else None
  }

  datatype Recovery = Recovery(w: World, resumed: set<nat>)

  /** One orphan: the first of a completed project resumes them all, any other is put in error. */
  function RecoverOrphan(r: Recovery, projects: map<nat, Project>, a: Activation, broken: set<nat>): Recovery {
    var p := ProjectOf(projects, a);
    if p.Some? && p.value.importState in {ImportPending, ImportRunning} then r
    else if p.Some? && p.value.importState == ImportCompleted && a.project.value !in r.resumed then
      var pid := a.project.value;
      Recovery(RunPass(ResumeJob, r.w, Rows(r.w, WaitingFor(pid)), p.value, broken), r.resumed + {pid})
    else r.(w := MarkError(r.w, a.id))
  }

  /** The loop over the orphans read at its start, each with its project as read then. */
  function RecoverOrphans(w: World, todo: seq<Activation>, broken: set<nat>): Recovery {
    if todo == [] then Recovery(w, {})
    else RecoverOrphan(RecoverOrphans(w, todo[..|todo| - 1], broken), w.projects, todo[|todo| - 1], broken)
  }

  function FailStuck(w: World, threshold: int): World {
    RecoverStuck(RecoverStuck(w, ImportRunning, threshold), ImportPending, threshold)
  }

  function Monitor(w: World, now: int, timeout: int, broken: set<nat>): World {
    var recovered := FailStuck(w, now - 2 * timeout);
    RecoverOrphans(recovered, Rows(recovered, AnyWaiting), broken).w
  }

  // ---------------------------------------------------- one orphan, seen over the loop

  ghost predicate Completed(projects: map<nat, Project>, a: Activation) {
    ProjectOf(projects, a).Some? && ProjectOf(projects, a).value.importState == ImportCompleted
  }

  ghost predicate StillSyncing(projects: map<nat, Project>, a: Activation) {
    ProjectOf(projects, a).Some? && Busy(ProjectOf(projects, a).value.importState)
  }

  /** No earlier orphan of `todo` has the same project. */
  ghost predicate FirstOfProject(todo: seq<Activation>, id: nat) {
    exists i :: 0 <= i < |todo| && todo[i].id == id && forall j | 0 <= j < i :: todo[j].project != todo[i].project
  }

  ghost predicate SomeOf(todo: seq<Activation>, pid: nat) {
    exists i :: 0 <= i < |todo| && todo[i].project == Some(pid)
  }

  ghost function ErrorAfter(e: Effect): Effect { e.(row := e.row.(status := Error, awaiting := false)) }

  /** What the orphans handled so far have made of activation `a`. */
  ghost predicate OrphanResult(w: World, todo: seq<Activation>, broken: set<nat>, a: nat, t: World)
    requires Valid(w) && a in w.rows
  {
    var row := w.rows[a];
    if !row.awaiting || StillSyncing(w.projects, row) then Untouched(w, t, a)
    else if Completed(w.projects, row) then
      if !SomeOf(todo, row.project.value) then Untouched(w, t, a)
      else
        var e := ResumeEffect(w, row, w.projects[row.project.value], a !in broken);
        HasEffect(w, t, a, if Holds(todo, a) && !FirstOfProject(todo, a) then ErrorAfter(e) else e)
    else if Holds(todo, a) then HasEffect(w, t, a, Effect(row.(status := Error, awaiting := false), []))
    else Untouched(w, t, a)
  }

  /** The completed projects met so far are those whose activations were resumed. */
  ghost predicate ResumedAre(w: World, todo: seq<Activation>, resumed: set<nat>) {
    forall p: nat :: p in resumed <==>
      (p in w.projects && w.projects[p].importState == ImportCompleted && SomeOf(todo, p))
  }

  lemma SomeOfSnoc(todo: seq<Activation>, o: Activation, pid: nat)
    ensures SomeOf(todo + [o], pid) <==> SomeOf(todo, pid) || o.project == Some(pid)
  {
    var all := todo + [o];
    if SomeOf(todo, pid) {
      var i :| 0 <= i < |todo| && todo[i].project == Some(pid);
      assert all[i].project == Some(pid);
    }
    assert all[|todo|] == o;
  }

  lemma HoldsSnoc(todo: seq<Activation>, o: Activation, id: nat)
    requires DistinctIds(todo + [o])
    ensures Holds(todo + [o], id) <==> Holds(todo, id) || o.id == id
    ensures Holds(todo, id) ==> o.id != id
    ensures DistinctIds(todo)
  {
    HoldsConcat(todo, [o], id);
    var all := todo + [o];
    assert forall i | 0 <= i < |todo| :: all[i] == todo[i];
    assert all[|todo|] == o && [o][0] == o;
  }

  lemma FirstKept(todo: seq<Activation>, o: Activation, id: nat)
    requires DistinctIds(todo + [o]) && Holds(todo, id)
    ensures FirstOfProject(todo + [o], id) <==> FirstOfProject(todo, id)
  {
    var all := todo + [o];
    assert forall i | 0 <= i < |todo| :: all[i] == todo[i];
    var k :| 0 <= k < |todo| && todo[k].id == id;
    assert forall i | 0 <= i < |all| && all[i].id == id :: i == k;
    if FirstOfProject(todo, id) {
      assert forall j | 0 <= j < k :: all[j].project != all[k].project;
    }
    if FirstOfProject(all, id) {
      assert forall j | 0 <= j < k :: todo[j].project != todo[k].project;
    }
  }

  lemma FirstOfLast(todo: seq<Activation>, o: Activation)
    requires DistinctIds(todo + [o]) && o.project.Some?
    ensures FirstOfProject(todo + [o], o.id) <==> !SomeOf(todo, o.project.value)
  {
    var all := todo + [o];
    assert forall i | 0 <= i < |todo| :: all[i] == todo[i];
    assert all[|todo|] == o;
    assert forall i | 0 <= i < |all| && all[i].id == o.id :: i == |todo|;
    if FirstOfProject(all, o.id) {
      assert forall j | 0 <= j < |todo| :: todo[j].project != o.project;
    } else {
      assert !(forall j | 0 <= j < |todo| :: all[j].project != o.project);
    }
  }

  ghost predicate Known(w: World, o: Activation) { o.id in w.rows && w.rows[o.id] == o && o.awaiting }

  /** An orphan that is skipped leaves the result of every activation as it was. */
  lemma OrphanSkipped(w: World, todo: seq<Activation>, o: Activation, broken: set<nat>, a: nat, t: World)
    requires Valid(w) && a in w.rows && Known(w, o) && DistinctIds(todo + [o]) && OrphanResult(w, todo, broken, a, t)
    requires StillSyncing(w.projects, o)
    ensures OrphanResult(w, todo + [o], broken, a, t)
  {
    hide Holds, FirstOfProject, SomeOf, DistinctIds, HasEffect, Untouched, ResumeEffect, Valid;
    HoldsSnoc(todo, o, a);
    if Completed(w.projects, w.rows[a]) {
      SomeOfSnoc(todo, o, w.rows[a].project.value);
    }
    if Holds(todo, a) {
      FirstKept(todo, o, a);
    }
  }

  /** An activation of another project does not notice that this one is resumed. */
  lemma ResumedElsewhere(w: World, todo: seq<Activation>, o: Activation, broken: set<nat>, a: nat, mid: World, t: World)
    requires Valid(w) && a in w.rows && Known(w, o) && DistinctIds(todo + [o]) && OrphanResult(w, todo, broken, a, mid)
    requires Completed(w.projects, o) && (w.rows[a].project != o.project || !w.rows[a].awaiting)
    requires Untouched(mid, t, a)
    ensures OrphanResult(w, todo + [o], broken, a, t)
  {
    hide Holds, FirstOfProject, SomeOf, DistinctIds, ResumeEffect, Valid, PushesOf;
    HoldsSnoc(todo, o, a);
    if Completed(w.projects, w.rows[a]) {
      SomeOfSnoc(todo, o, w.rows[a].project.value);
    }
    if Holds(todo, a) {
      FirstKept(todo, o, a);
    }
  }

  /** An activation of the project being resumed, which nothing has touched so far. */
  lemma ResumedHere(w: World, todo: seq<Activation>, o: Activation, broken: set<nat>, a: nat, mid: World, t: World)
    requires Valid(w) && a in w.rows && Known(w, o) && DistinctIds(todo + [o]) && Snapshot(w, todo)
    requires Completed(w.projects, o) && w.rows[a].project == o.project && w.rows[a].awaiting
    requires !SomeOf(todo, o.project.value)
    requires Untouched(w, mid, a)
    requires HasEffect(mid, t, a, ResumeEffect(w, w.rows[a], w.projects[o.project.value], a !in broken))
    ensures OrphanResult(w, todo + [o], broken, a, t)
  {
    hide FirstOfProject, DistinctIds, ResumeEffect, PushesOf;
    var e := ResumeEffect(w, w.rows[a], w.projects[o.project.value], a !in broken);
    EffectAfter(w, mid, t, a, e);
    SomeOfSnoc(todo, o, o.project.value);
    FirstOfLast(todo, o);
    HoldsSnoc(todo, o, a);
    assert !Holds(todo, a) by { NotHeld(w, todo, o.project.value, a); }
  }

  lemma NotHeld(w: World, todo: seq<Activation>, pid: nat, a: nat)
    requires !SomeOf(todo, pid) && a in w.rows && w.rows[a].project == Some(pid) && Snapshot(w, todo)
    ensures !Holds(todo, a)
  {
  }

  lemma OrphanFailed(w: World, todo: seq<Activation>, o: Activation, broken: set<nat>, a: nat, mid: World)
    requires Valid(w) && a in w.rows && Known(w, o) && DistinctIds(todo + [o]) && OrphanResult(w, todo, broken, a, mid)
    requires !StillSyncing(w.projects, o) && (Completed(w.projects, o) ==> SomeOf(todo, o.project.value))
    ensures OrphanResult(w, todo + [o], broken, a, MarkError(mid, o.id))
  {
    hide Holds, FirstOfProject, SomeOf, DistinctIds, ResumeEffect, PushesOf;
    HoldsSnoc(todo, o, a);
    if Completed(w.projects, w.rows[a]) {
      SomeOfSnoc(todo, o, w.rows[a].project.value);
    }
    if Holds(todo, a) {
      FirstKept(todo, o, a);
    }
    if a == o.id {
      if Completed(w.projects, o) {
        FirstOfLast(todo, o);
      } else {
        assert PushesOf(w.pushes, a) + [] == PushesOf(w.pushes, a);
      }
    }
  }

  lemma ResultKeepsProject(w: World, todo: seq<Activation>, broken: set<nat>, a: nat, mid: World)
    requires Valid(w) && a in w.rows && OrphanResult(w, todo, broken, a, mid)
    ensures a in mid.rows && mid.rows[a].project == w.rows[a].project && (mid.rows[a].awaiting ==> w.rows[a].awaiting)
  {
    hide Holds, FirstOfProject, SomeOf, PushesOf;
  }

  /** The orphan that resumes its whole project. */
  lemma {:induction false} OrphanResumed(w: World, todo: seq<Activation>, o: Activation, broken: set<nat>, a: nat,
                                         mid: World)
    requires Valid(w) && Valid(mid) && SameTables(w, mid) && a in w.rows && Known(w, o) && DistinctIds(todo + [o])
    requires Snapshot(w, todo)
    requires OrphanResult(w, todo, broken, a, mid) && Completed(w.projects, o) && !SomeOf(todo, o.project.value)
    ensures var t := RunPass(ResumeJob, mid, Rows(mid, WaitingFor(o.project.value)), w.projects[o.project.value],
        broken);
      Valid(t) && SameTables(w, t) && OrphanResult(w, todo + [o], broken, a, t)
  {
    hide RunPass, Rows, ResumeEffect, Valid, DistinctIds, Snapshot, SomeOf, HasEffect, Untouched, FirstOfProject, Holds;
    var pid := o.project.value;
    ResumePass(mid, pid, w.projects[pid], broken, a);
    var t := RunPass(ResumeJob, mid, Rows(mid, WaitingFor(pid)), w.projects[pid], broken);
    ResultKeepsProject(w, todo, broken, a, mid);
    if w.rows[a].project == o.project && w.rows[a].awaiting {
      assert Untouched(w, mid, a);
      UntouchedRow(w, mid, a);
      assert w.rows[a].id == a by { IdsAgree(w, a); }
      ResumeEffectAgrees(w, mid, w.rows[a], w.projects[pid], a !in broken);
      ResumedHere(w, todo, o, broken, a, mid, t);
    } else {
      ResumedElsewhere(w, todo, o, broken, a, mid, t);
    }
  }

  lemma IdsAgree(w: World, a: nat)
    requires Valid(w) && a in w.rows
    ensures w.rows[a].id == a
  {
  }

  lemma ResumedSetKept(w: World, todo: seq<Activation>, o: Activation, resumed: set<nat>)
    requires ResumedAre(w, todo, resumed)
    ensures Completed(w.projects, o) ==> ResumedAre(w, todo + [o], resumed + {o.project.value})
    ensures !Completed(w.projects, o) ==> ResumedAre(w, todo + [o], resumed)
  {
    forall p: nat ensures SomeOf(todo + [o], p) <==> SomeOf(todo, p) || o.project == Some(p) {
      SomeOfSnoc(todo, o, p);
    }
  }

  lemma AlreadyIn(resumed: set<nat>, pid: nat)
    requires pid in resumed
    ensures resumed + {pid} == resumed
  {
  }

  lemma {:induction false} OrphanStep(w: World, todo: seq<Activation>, o: Activation, broken: set<nat>, a: nat,
                                      r: Recovery)
    requires Valid(w) && Valid(r.w) && SameTables(w, r.w) && a in w.rows && Known(w, o) && DistinctIds(todo + [o])
    requires Snapshot(w, todo)
    requires OrphanResult(w, todo, broken, a, r.w) && ResumedAre(w, todo, r.resumed)
    ensures var u := RecoverOrphan(r, w.projects, o, broken);
      Valid(u.w) && SameTables(w, u.w) && OrphanResult(w, todo + [o], broken, a, u.w)
          && ResumedAre(w, todo + [o], u.resumed)
  {
    hide OrphanResult, RunPass, Rows, Valid, DistinctIds, Snapshot, SomeOf, FirstOfProject, Holds, OnlyTouches;
    ResumedSetKept(w, todo, o, r.resumed);
    if StillSyncing(w.projects, o) {
      OrphanSkipped(w, todo, o, broken, a, r.w);
    } else if Completed(w.projects, o) && o.project.value !in r.resumed {
      OrphanResumed(w, todo, o, broken, a, r.w);
    } else {
      if Completed(w.projects, o) {
        AlreadyIn(r.resumed, o.project.value);
      }
      OrphanFailed(w, todo, o, broken, a, r.w);
      MarkErrorIsLocal(r.w, o.id);
      LocalFrame(w, r.w, MarkError(r.w, o.id), o.id);
    }
  }

  ghost predicate AllAwaiting(todo: seq<Activation>) { forall i | 0 <= i < |todo| :: todo[i].awaiting }

  /** The loop of the monitor, for every activation, whatever the order of the orphans. */
  lemma {:induction false} OrphansRecovered(w: World, todo: seq<Activation>, broken: set<nat>, a: nat)
    requires Valid(w) && a in w.rows && DistinctIds(todo) && Snapshot(w, todo) && AllAwaiting(todo)
    ensures var r := RecoverOrphans(w, todo, broken);
      Valid(r.w) && SameTables(w, r.w) && OrphanResult(w, todo, broken, a, r.w) && ResumedAre(w, todo, r.resumed)
  {
    if todo == [] {
      NothingTouched(w, a);
    } else {
      hide OrphanResult, RecoverOrphan, Valid, ResumedAre;
      var n := |todo| - 1;
      assert todo == todo[..n] + [todo[n]];
      OrphansRecovered(w, todo[..n], broken, a);
      OrphanStep(w, todo[..n], todo[n], broken, a, RecoverOrphans(w, todo[..n], broken));
    }
  }

  // ---------------------------------------------------- a whole pass of the monitor

  /** Every project is idle, or has been pending or running past the threshold. */
  ghost predicate AllIdleOrStale(w: World, now: int, timeout: int) {
    forall p | p in w.projects :: Busy(w.projects[p].importState) ==> w.projects[p].modifiedAt < now - 2 * timeout
  }

  /** The monitor fails exactly the stale projects, and touches neither rows nor queues in doing so. */
  lemma StaleFail(w: World, threshold: int)
    requires Valid(w)
    ensures var u := FailStuck(w, threshold);
      && Valid(u) && u == w.(projects := u.projects) && u.projects.Keys == w.projects.Keys
      && forall p | p in w.projects :: u.projects[p] ==
           if Busy(w.projects[p].importState) && w.projects[p].modifiedAt < threshold then
             w.projects[p].(importState := ImportFailed)
           else w.projects[p]
  {
  }

  /** The completed project of an orphan. */
  ghost predicate Resumable(w: World, a: Activation) {
    a.project.Some? && a.project.value in w.projects && w.projects[a.project.value].importState == ImportCompleted
  }

  /**
   What a pass makes of one waiting activation, when no project is still at work.
   With a completed project it is resumed, with one request unless the push fails;
   it then keeps the status of a resumed activation only if it is the first orphan
   of its project. Without one it is put in error and nothing is pushed.
   */
  lemma {:induction false} MonitorOrphan(w: World, now: int, timeout: int, broken: set<nat>, a: nat)
    returns (requests: seq<Request>)
    requires Valid(w) && a in w.rows && w.rows[a].awaiting && AllIdleOrStale(w, now, timeout)
    ensures var t, orphans := Monitor(w, now, timeout, broken), Rows(FailStuck(w, now - 2 * timeout), AnyWaiting);
      && a in t.rows && NewRequests(w, t, a, requests) && |requests| <= 1 && !t.rows[a].awaiting
      && (!Resumable(w, w.rows[a]) ==> FailedWaiting(w.rows[a], t.rows[a], requests))
      && (Resumable(w, w.rows[a]) ==>
            && t.rows[a].enabled && t.rows[a].gitHash == w.projects[w.rows[a].project.value].gitHash
            && requests == (if a in broken then [] else if w.rows[a].enabled then [Restart] else [Start])
            && t.rows[a].status == if a in broken || !FirstOfProject(orphans, a) then Error
                                   else if w.rows[a].enabled then w.rows[a].status else Pending)
  {
    hide Rows, RecoverOrphans, FailStuck, PushesOf, AllAwaiting, Valid, ResumeEffect, Snapshot, DistinctIds;
    hide Holds, FirstOfProject, SomeOf, OrphanResult;
    var threshold := now - 2 * timeout;
    var u := FailStuck(w, threshold);
    StaleFail(w, threshold);
    var todo := Rows(u, AnyWaiting);
    RowsOf(u, AnyWaiting, a);
    MonitorTables(u, broken);
    OrphansRecovered(u, todo, broken, a);
    SettledOrphan(u, todo, broken, a, RecoverOrphans(u, todo, broken).w);
    var row := w.rows[a];
    if Resumable(w, row) {
      requests := ResumeEffect(u, row, u.projects[row.project.value], a !in broken).requests;
      ResumeMeans(u, row, u.projects[row.project.value], a !in broken);
    } else {
      requests := [];
    }
  }

  /** The result of a listed orphan, once no project is at work. */
  lemma {:induction false} SettledOrphan(w: World, todo: seq<Activation>, broken: set<nat>, a: nat, t: World)
    requires Valid(w) && a in w.rows && w.rows[a].awaiting && !StillSyncing(w.projects, w.rows[a])
    requires Holds(todo, a) && Snapshot(w, todo) && OrphanResult(w, todo, broken, a, t)
    ensures var row := w.rows[a];
      if Resumable(w, row) then
        var e := ResumeEffect(w, row, w.projects[row.project.value], a !in broken);
        HasEffect(w, t, a, if FirstOfProject(todo, a) then e else ErrorAfter(e))
      else HasEffect(w, t, a, Effect(row.(status := Error, awaiting := false), []))
  {
    hide PushesOf, Holds, FirstOfProject, SomeOf, ResumeEffect;
    if Resumable(w, w.rows[a]) {
      HeldIsSome(w, todo, a);
    }
  }

  lemma HeldIsSome(w: World, todo: seq<Activation>, a: nat)
    requires Holds(todo, a) && Snapshot(w, todo) && a in w.rows && w.rows[a].project.Some?
    ensures SomeOf(todo, w.rows[a].project.value)
  {
  }

  ghost predicate NobodyWaitsAtAll(w: World) { forall a | a in w.rows :: !w.rows[a].awaiting }

  /**
   The monitor as a safety net: after one pass no project is pending or running and
   no activation waits; those that did not wait are as they were.
   */
  lemma {:induction false} MonitorSettles(w: World, now: int, timeout: int, broken: set<nat>)
    requires Valid(w) && AllIdleOrStale(w, now, timeout)
    ensures var t := Monitor(w, now, timeout, broken);
      && t.projects.Keys == w.projects.Keys && t.rows.Keys == w.rows.Keys
      && (forall p | p in w.projects :: t.projects[p] ==
            if Busy(w.projects[p].importState) then w.projects[p].(importState := ImportFailed) else w.projects[p])
      && NobodyWaitsAtAll(t)
      && (forall a | a in w.rows :: !w.rows[a].awaiting ==> Untouched(w, t, a))
      && (forall a | a in w.rows :: |PushesOf(t.pushes, a)| <= |PushesOf(w.pushes, a)| + 1)
  {
    hide Monitor, FailStuck, PushesOf, Untouched;
    MonitorProjects(w, now, timeout, broken);
    StaleFail(w, now - 2 * timeout);
    var t := Monitor(w, now, timeout, broken);
    forall a | a in w.rows
      ensures !t.rows[a].awaiting && (!w.rows[a].awaiting ==> Untouched(w, t, a))
      ensures |PushesOf(t.pushes, a)| <= |PushesOf(w.pushes, a)| + 1
    {
      MonitorRow(w, now, timeout, broken, a);
    }
  }

  lemma {:induction false} MonitorRow(w: World, now: int, timeout: int, broken: set<nat>, a: nat)
    requires Valid(w) && a in w.rows && AllIdleOrStale(w, now, timeout)
    ensures var t := Monitor(w, now, timeout, broken);
      && a in t.rows && !t.rows[a].awaiting && (!w.rows[a].awaiting ==> Untouched(w, t, a))
      && |PushesOf(t.pushes, a)| <= |PushesOf(w.pushes, a)| + 1
  {
    hide Monitor, PushesOf, Rows, FailStuck, Resumable, FirstOfProject;
    if w.rows[a].awaiting {
      var requests := MonitorOrphan(w, now, timeout, broken, a);
    } else {
      MonitorLeaves(w, now, timeout, broken, a);
    }
  }

  lemma {:induction false} MonitorProjects(w: World, now: int, timeout: int, broken: set<nat>)
    requires Valid(w)
    ensures var t := Monitor(w, now, timeout, broken);
      t.projects == FailStuck(w, now - 2 * timeout).projects && t.rows.Keys == w.rows.Keys
  {
    hide Rows, RecoverOrphans, FailStuck, AllAwaiting;
    StaleFail(w, now - 2 * timeout);
    MonitorTables(FailStuck(w, now - 2 * timeout), broken);
  }

  lemma {:induction false} MonitorLeaves(w: World, now: int, timeout: int, broken: set<nat>, a: nat)
    requires Valid(w) && a in w.rows && !w.rows[a].awaiting
    ensures Untouched(w, Monitor(w, now, timeout, broken), a)
  {
    hide Rows, RecoverOrphans, PushesOf, AllAwaiting, Snapshot, DistinctIds, OrphanResult, FailStuck, Valid;
    var u := FailStuck(w, now - 2 * timeout);
    StaleFail(w, now - 2 * timeout);
    RowsOf(u, AnyWaiting, a);
    MonitorTables(u, broken);
    OrphansRecovered(u, Rows(u, AnyWaiting), broken, a);
    LeftAlone(u, Rows(u, AnyWaiting), broken, a, RecoverOrphans(u, Rows(u, AnyWaiting), broken).w);
  }

  lemma LeftAlone(w: World, todo: seq<Activation>, broken: set<nat>, a: nat, t: World)
    requires Valid(w) && a in w.rows && !w.rows[a].awaiting && OrphanResult(w, todo, broken, a, t)
    ensures Untouched(w, t, a)
  {
  }

  lemma {:induction false} MonitorTables(w: World, broken: set<nat>)
    requires Valid(w)
    ensures AllAwaiting(Rows(w, AnyWaiting))
    ensures var r := RecoverOrphans(w, Rows(w, AnyWaiting), broken); Valid(r.w) && SameTables(w, r.w)
  {
    hide RecoverOrphan, RunPass, Valid, SameTables;
    OrphansFrame(w, Rows(w, AnyWaiting), broken);
  }

  lemma {:induction false} OrphansFrame(w: World, todo: seq<Activation>, broken: set<nat>)
    requires Valid(w)
    ensures var r := RecoverOrphans(w, todo, broken); Valid(r.w) && SameTables(w, r.w)
  {
    hide RunPass, Valid, Rows, OnlyTouches;
    if todo != [] {
      var n := |todo| - 1;
      OrphansFrame(w, todo[..n], broken);
      var r, o := RecoverOrphans(w, todo[..n], broken), todo[n];
      MarkErrorIsLocal(r.w, o.id);
      LocalFrame(w, r.w, MarkError(r.w, o.id), o.id);
      if ProjectOf(w.projects, o).Some? {
        RunPassFrame(ResumeJob, r.w, Rows(r.w, WaitingFor(o.project.value)), w.projects[o.project.value], broken);
      }
    }
  }

  /** An activation that waits, disabled, for project 7. */
  function WaitingOne(id: nat): Activation {
    Activation(id, Some(7), None, false, false, true, false, Pending, 0, "", "", "")
  }

  /** Two activations wait for a project that is already completed. */
  function TwoOrphans(): World {
    World(map[1 := WaitingOne(1), 2 := WaitingOne(2)], [1, 2], map[7 := Project(ImportCompleted, 0, "h")], map[], [])
  }

  /** Where recovery falls short: both are enabled and a Start is queued for each, but the second one shows ERROR. */
  lemma {:induction false} SecondOrphanInError() returns (first: seq<Request>, second: seq<Request>)
    ensures var w := TwoOrphans();
      var t := Monitor(w, 0, 0, {});
      && 1 in t.rows && 2 in t.rows && NewRequests(w, t, 1, first) && NewRequests(w, t, 2, second)
      && first == second == [Start] && t.rows[1].enabled && t.rows[2].enabled
      && t.rows[1].status == Pending && t.rows[2].status == Error
  {
    hide Monitor, PushesOf, FirstOfProject, Rows, FailStuck;
    var w := TwoOrphans();
    OrphansInOrder();
    first := MonitorOrphan(w, 0, 0, {}, 1);
    second := MonitorOrphan(w, 0, 0, {}, 2);
  }

  lemma OrphansInOrder()
    ensures var orphans := Rows(FailStuck(TwoOrphans(), 0), AnyWaiting);
      FirstOfProject(orphans, 1) && !FirstOfProject(orphans, 2)
  {
    var u := FailStuck(TwoOrphans(), 0);
    StaleFail(TwoOrphans(), 0);
    var orphans := Rows(u, AnyWaiting);
    assert u.order[1..] == [2] && u.order[1..][1..] == [];
    assert Select(u, [2], AnyWaiting) == [WaitingOne(2)] + Select(u, [], AnyWaiting);
    assert orphans == [WaitingOne(1), WaitingOne(2)];
    assert orphans[0].project == orphans[1].project;
  }
}
