/**
 Disabling an activation while project tasks are at work: which of them can still
 push a request for it, whoever acts in between, and how many requests that can be.
 */
module DisableRace {
  import opened Arbitration
  import opened ActivationWorld
  import opened ProjectImport
  import opened ProjectSync
  import opened Interleaving

  ghost predicate Disabled(w: World, a: nat) { a in w.rows ==> !w.rows[a].enabled && !w.rows[a].awaiting }

  /** A pass with this object pushes nothing for it. */
  ghost predicate Harmless(job: Job, o: Activation, rulebooks: map<nat, Rulebook>) {
    match job
    case FailJob => true
    case ResumeJob => false
    case RestartJob => !WantsRestart(o, rulebooks)
  }

  ghost predicate SafeAt(p: Pass, i: nat, rulebooks: map<nat, Rulebook>)
    requires i < |p.todo|
  {
    if p.pushing && i == 0 then p.job == FailJob else Harmless(p.job, p.todo[i], rulebooks)
  }

  ghost predicate PassSafe(p: Pass, a: nat, rulebooks: map<nat, Rulebook>) {
    forall i | 0 <= i < |p.todo| && p.todo[i].id == a :: SafeAt(p, i, rulebooks)
  }

  ghost predicate AllSafe(s: Sys, a: nat) { forall k | k in s.passes :: PassSafe(s.passes[k], a, s.w.rulebooks) }

  ghost predicate OutOfReach(s: Sys, a: nat) { Orderly(s) && Disabled(s.w, a) && AllSafe(s, a) }

  lemma {:induction false} SavedSafely(job: Job, w: World, o: Activation, project: Project, a: nat)
    requires Disabled(w, a) && o.id == a && Harmless(job, o, w.rulebooks)
    ensures var s := SaveFirst(job, w, o, project);
      Disabled(s.w, a) && s.w.pushes == w.pushes && s.w.rulebooks == w.rulebooks && !s.push
  {
  }

  /** A safe pass that has come to the activation leaves it alone. */
  lemma {:induction false} HeadSafe(s: Sys, step: Step, a: nat)
    requires Disabled(s.w, a) && AllSafe(s, a) && !ByOthers(s, step, a) && !step.UserActs?
    ensures var t := Apply(s, step);
      && Disabled(t.w, a) && PushesOf(t.w.pushes, a) == PushesOf(s.w.pushes, a)
      && step.k in t.passes
      && t.passes[step.k] == s.passes[step.k].(todo := s.passes[step.k].todo[1..], pushing := false)
  {
    hide SaveFirst, PushesOf;
    var p := s.passes[step.k];
    assert SafeAt(p, 0, s.w.rulebooks);
    if step.Save? {
      SavedSafely(p.job, s.w, p.todo[0], p.project, a);
    }
  }

  lemma TailSafe(p: Pass, a: nat, rulebooks: map<nat, Rulebook>)
    requires PassSafe(p, a, rulebooks) && p.todo != []
    ensures PassSafe(p.(todo := p.todo[1..], pushing := false), a, rulebooks)
    ensures !p.pushing && p.todo[0].id != a ==> PassSafe(p.(pushing := true), a, rulebooks)
  {
  }

  /** A restart that was not wanted is not wanted later. */
  lemma {:induction false} SafeLater(s: Sys, k: nat, a: nat, after: map<nat, Rulebook>)
    requires k in s.passes && Reads(s.passes[k], s.w.rulebooks) && Evolves(s, after)
    requires PassSafe(s.passes[k], a, s.w.rulebooks)
    ensures PassSafe(s.passes[k], a, after)
  {
    hide WantsRestart, Evolves, Reads;
    ReadsKept(s, k, after);
  }

  /** How a pass moves on. */
  ghost predicate Advances(before: Pass, after: Pass, a: nat) {
    || after == before
    || (before.todo != [] && after == before.(todo := before.todo[1..], pushing := false))
    || (before.todo != [] && !before.pushing && before.todo[0].id != a && after == before.(pushing := true))
  }

  lemma {:induction false} PassesAdvance(s: Sys, step: Step, k: nat, a: nat)
    requires k in s.passes && ByOthers(s, step, a)
    ensures k in Apply(s, step).passes && Advances(s.passes[k], Apply(s, step).passes[k], a)
  {
    hide SaveFirst, ThenPush, Rows, User, RemoveRow, SaveRow, Imported, WithoutProject, Unknown, MayImport;
  }

  lemma {:induction false} AdvancedSafe(before: Pass, after: Pass, a: nat, rulebooks: map<nat, Rulebook>)
    requires PassSafe(before, a, rulebooks) && Advances(before, after, a)
    ensures PassSafe(after, a, rulebooks)
  {
    hide PassSafe;
    if before.todo != [] {
      TailSafe(before, a, rulebooks);
    }
  }

  lemma {:induction false} OpenSafe(s: Sys, step: Step, a: nat)
    requires Valid(s.w) && Disabled(s.w, a) && step.Open? && MayOpen(s, step.k, step.job, step.query)
    ensures PassSafe(Pass(step.job, step.query, Rows(s.w, step.query), step.project, false), a, s.w.rulebooks)
  {
    hide Rows;
    RowsOf(s.w, step.query, a);
  }

  lemma LeavesDisabled(w: World, t: World, a: nat)
    requires Disabled(w, a) && Leaves(w, t, a)
    ensures Disabled(t, a)
  {
  }

  lemma {:induction false} PassesStaySafe(s: Sys, step: Step, a: nat)
    requires OutOfReach(s, a) && ByOthers(s, step, a)
    ensures AllSafe(Apply(s, step), a)
  {
    hide Apply, PassSafe, Reads, Evolves, Rows, Disabled, ByOthers, AllTidy, DistinctTodos, Advances, MayOpen, Valid;
    var t := Apply(s, step);
    StepEvolves(s, step);
    forall k | k in t.passes ensures PassSafe(t.passes[k], a, t.w.rulebooks) {
      if k in s.passes {
        SafeLater(s, k, a, t.w.rulebooks);
        PassesAdvance(s, step, k, a);
        AdvancedSafe(s.passes[k], t.passes[k], a, t.w.rulebooks);
      } else {
        StepShrinks(s, step, k);
        OpenSafe(s, step, a);
        OpenKeepsRulebooks(s, step);
      }
    }
  }

  lemma {:induction false} HeadStaysSafe(s: Sys, step: Step, a: nat)
    requires OutOfReach(s, a) && !ByOthers(s, step, a) && !step.UserActs?
    ensures AllSafe(Apply(s, step), a)
  {
    hide PassSafe, Reads, AllTidy, DistinctTodos, Valid, SaveFirst, Disabled, ThenPush, SafeAt;
    var t := Apply(s, step);
    HeadSafe(s, step, a);
    HeadKeepsRulebooks(s, step);
    TailSafe(s.passes[step.k], a, s.w.rulebooks);
  }

  lemma {:induction false} HeadKeepsRulebooks(s: Sys, step: Step)
    requires (step.Save? && AtSave(s, step.k)) || (step.Push? && AtPush(s, step.k))
    ensures Apply(s, step).w.rulebooks == s.w.rulebooks && Apply(s, step).w.rows.Keys == s.w.rows.Keys
    ensures forall k | k in Apply(s, step).passes && k != step.k ::
      k in s.passes && Apply(s, step).passes[k] == s.passes[k]
  {
    hide SaveFirst, ThenPush;
    var p := s.passes[step.k];
    if step.Save? {
      SaveFirstIsLocal(p.job, s.w, p.todo[0], p.project);
    } else {
      ThenPushIsLocal(p.job, s.w, p.todo[0], step.ok);
    }
  }

  lemma {:induction false} StepSafe(s: Sys, step: Step, a: nat)
    requires OutOfReach(s, a) && (step.UserActs? ==> step.id != a)
    ensures OutOfReach(Apply(s, step), a) && PushesOf(Apply(s, step).w.pushes, a) == PushesOf(s.w.pushes, a)
  {
    hide Apply, PushesOf, AllSafe, Disabled, AllReads, AllTidy, DistinctTodos, Valid;
    StepOrderly(s, step);
    if ByOthers(s, step, a) {
      StepLeaves(s, step, a);
      LeavesDisabled(s.w, Apply(s, step).w, a);
      PassesStaySafe(s, step, a);
    } else {
      HeadSafe(s, step, a);
      HeadStaysSafe(s, step, a);
    }
  }

  /** Nothing pushes for a disabled activation that is out of reach, and it stays disabled, in every run. */
  lemma {:induction false} DisableSticks(s: Sys, run: seq<Step>, a: nat)
    requires OutOfReach(s, a) && NoUser(run, a)
    ensures OutOfReach(Exec(s, run), a) && PushesOf(Exec(s, run).w.pushes, a) == PushesOf(s.w.pushes, a)
    decreases |run|
  {
    hide Apply, OutOfReach, PushesOf;
    if run != [] {
      StepSafe(s, run[0], a);
      DisableSticks(Apply(s, run[0]), run[1..], a);
    }
  }

  // ------------------------------------- the passes that can still reach it

  ghost predicate Grown(s: Sys, t: Sys, a: nat) { |PushesOf(t.w.pushes, a)| > |PushesOf(s.w.pushes, a)| }

  /** Nothing but pass `k` has moved; `done` activations of it are dealt with. */
  ghost predicate Worked(s: Sys, t: Sys, k: nat, done: nat) {
    && k in s.passes && done <= |s.passes[k].todo|
    && t.passes == s.passes[k := s.passes[k].(todo := s.passes[k].todo[done..], pushing := false)]
    && t.w.rulebooks == s.w.rulebooks && t.w.rows.Keys == s.w.rows.Keys
  }

  ghost predicate TasksOnly(run: seq<Step>) { forall i | 0 <= i < |run| :: run[i].Save? || run[i].Push? }

  /** Pass `k` gets past its first activation, which is not `a`. */
  lemma {:induction false} PassHead(s: Sys, k: nat, a: nat) returns (run: seq<Step>)
    requires k in s.passes && s.passes[k].todo != [] && s.passes[k].todo[0].id != a
    ensures TasksOnly(run) && Worked(s, Exec(s, run), k, 1)
    ensures PushesOf(Exec(s, run).w.pushes, a) == PushesOf(s.w.pushes, a)
  {
    hide SaveFirst, ThenPush, PushesOf;
    var p := s.passes[k];
    var o := p.todo[0];
    var last := Push(k, true);
    if p.pushing {
      run := [last];
      ThenPushIsLocal(p.job, s.w, o, true);
      assert Exec(s, run) == PushHead(s, k, true) by { ExecOne(s, last); }
    } else {
      SaveFirstIsLocal(p.job, s.w, o, p.project);
      var t := SaveHead(s, k);
      if t.passes[k].pushing {
        run := [Save(k), last];
        ThenPushIsLocal(p.job, t.w, o, true);
        assert Exec(s, run) == PushHead(t, k, true) by { ExecTwo(s, Save(k), last); }
      } else {
        run := [Save(k)];
        assert Exec(s, run) == t by { ExecOne(s, Save(k)); }
      }
    }
  }

  lemma PushGrows(job: Job, w: World, o: Activation)
    requires o.id in w.rows && job != FailJob
    ensures |PushesOf(ThenPush(job, w, o, true).pushes, o.id)| == |PushesOf(w.pushes, o.id)| + 1
  {
    hide PushesOf;
    PushesOfSnoc(w.pushes, Pushed(o.id, if job.ResumeJob? && !o.enabled then Start else Restart), o.id);
  }

  lemma Provoked(job: Job, w: World, o: Activation, project: Project)
    requires o.id in w.rows && !Harmless(job, o, w.rulebooks)
    ensures SaveFirst(job, w, o, project).push
  {
  }

  lemma {:induction false} HeadPushes(s: Sys, k: nat) returns (run: seq<Step>)
    requires k in s.passes && s.passes[k].todo != [] && s.passes[k].todo[0].id in s.w.rows
    requires !SafeAt(s.passes[k], 0, s.w.rulebooks)
    ensures TasksOnly(run) && Worked(s, Exec(s, run), k, 1)
    ensures var a := s.passes[k].todo[0].id;
      |PushesOf(Exec(s, run).w.pushes, a)| == |PushesOf(s.w.pushes, a)| + 1
  {
    hide SaveFirst, ThenPush, PushesOf, WantsRestart;
    var p := s.passes[k];
    var o := p.todo[0];
    var last := Push(k, true);
    if p.pushing {
      run := [last];
      ThenPushIsLocal(p.job, s.w, o, true);
      PushGrows(p.job, s.w, o);
      assert Exec(s, run) == PushHead(s, k, true) by { ExecOne(s, last); }
    } else {
      SaveFirstIsLocal(p.job, s.w, o, p.project);
      Provoked(p.job, s.w, o, p.project);
      var t := SaveHead(s, k);
      run := [Save(k), last];
      ThenPushIsLocal(p.job, t.w, o, true);
      PushGrows(p.job, t.w, o);
      assert Exec(s, run) == PushHead(t, k, true) by { ExecTwo(s, Save(k), last); }
    }
  }

  /** Any pass that is not safe for `a` has a run in which it alone works, and pushes for it. */
  lemma {:induction false} UnsafePushes(s: Sys, k: nat, a: nat) returns (run: seq<Step>, done: nat)
    requires k in s.passes && a in s.w.rows && DistinctIds(s.passes[k].todo)
    requires !PassSafe(s.passes[k], a, s.w.rulebooks)
    ensures TasksOnly(run) && Worked(s, Exec(s, run), k, done) && !Holds(s.passes[k].todo[done..], a)
    ensures |PushesOf(Exec(s, run).w.pushes, a)| == |PushesOf(s.w.pushes, a)| + 1
    decreases |s.passes[k].todo|
  {
    hide PushesOf, Exec, Apply, SafeAt;
    var p := s.passes[k];
    UnsafeWhere(p, a, s.w.rulebooks);
    if p.todo[0].id != a {
      var first := PassHead(s, k, a);
      var t := Exec(s, first);
      var rest, more := UnsafePushes(t, k, a);
      run, done := first + rest, more + 1;
      ExecConcat(s, first, rest);
      assert p.todo[1..][more..] == p.todo[done..];
    } else {
      run := HeadPushes(s, k);
      done := 1;
    }
  }

  lemma UnsafeWhere(p: Pass, a: nat, rulebooks: map<nat, Rulebook>)
    requires !PassSafe(p, a, rulebooks) && DistinctIds(p.todo)
    ensures p.todo != []
    ensures p.todo[0].id == a ==> !SafeAt(p, 0, rulebooks) && !Holds(p.todo[1..], a)
    ensures p.todo[0].id != a ==>
      !PassSafe(p.(todo := p.todo[1..], pushing := false), a, rulebooks) && DistinctIds(p.todo[1..])
  {
    hide Harmless;
    var i :| 0 <= i < |p.todo| && p.todo[i].id == a && !SafeAt(p, i, rulebooks);
    if p.todo[0].id != a {
      assert p.todo[1..][i - 1] == p.todo[i];
    }
  }

  lemma {:induction false} PushableIff(s: Sys, a: nat)
    requires Orderly(s) && Disabled(s.w, a) && a in s.w.rows
    ensures AllSafe(s, a) <==> forall run :: NoUser(run, a) ==> !Grown(s, Exec(s, run), a)
  {
    hide PushesOf, Exec, PassSafe, Valid, Disabled, AllTidy, AllReads, Worked;
    if AllSafe(s, a) {
      forall run | NoUser(run, a) ensures !Grown(s, Exec(s, run), a) {
        DisableSticks(s, run, a);
      }
    } else {
      var k :| k in s.passes && !PassSafe(s.passes[k], a, s.w.rulebooks);
      var run, done := UnsafePushes(s, k, a);
      assert NoUser(run, a);
    }
  }

  /**
   Any run, from a moment at which no task was at work, that ends with the activation
   disabled. It then gets a request without its user doing anything exactly when some
   task has already read it and will still push for it: one that resumes it, one about
   to push its restart, or one whose check, made with the rulebook as it is now, wants
   the restart.
   */
  lemma {:induction false} DisableSticksIff(start: Sys, past: seq<Step>, a: nat)
    requires Valid(start.w) && AllTidy(start.w.rows, start.w.rulebooks) && start.passes == map[]
    requires var s := Exec(start, past); Disabled(s.w, a) && a in s.w.rows
    ensures var s := Exec(start, past);
      AllSafe(s, a) <==> forall run :: NoUser(run, a) ==> !Grown(s, Exec(s, run), a)
  {
    hide Exec, AllSafe, Valid, Disabled, Grown, AllTidy;
    RunOrderly(start, past);
    PushableIff(Exec(start, past), a);
  }
}
