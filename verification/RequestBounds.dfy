/**
 How many requests an activation can get from the tasks that have read it, whoever
 else acts: one for each task that will still push for it, and no fewer.
 */
module RequestBounds {
  import opened Arbitration
  import opened ActivationWorld
  import opened ProjectSync
  import opened Interleaving
  import opened DisableRace

  /** The passes that will push for `a` if nobody removes it. */
  ghost function Pushers(s: Sys, a: nat): set<nat> {
    set k | k in s.passes && !PassSafe(s.passes[k], a, s.w.rulebooks)
  }

  /** No task reads the activation anew. */
  ghost predicate Unread(s: Sys, run: seq<Step>, a: nat)
    decreases |run|
  {
    run == [] || (UnreadBy(s, run[0], a) && Unread(Apply(s, run[0]), run[1..], a))
  }

  ghost predicate UnreadBy(s: Sys, step: Step, a: nat) {
    step.Open? && MayOpen(s, step.k, step.job, step.query) ==> !Holds(Rows(s.w, step.query), a)
  }

  // ------------------------------------- no more

  lemma {:induction false} OthersPush(s: Sys, step: Step, a: nat)
    requires Orderly(s) && ByOthers(s, step, a) && UnreadBy(s, step, a)
    ensures Pushers(Apply(s, step), a) <= Pushers(s, a)
  {
    hide Apply, PassSafe, Reads, Evolves, Rows, ByOthers, AllTidy, DistinctTodos, Advances, MayOpen, Valid, Holds;
    var t := Apply(s, step);
    StepEvolves(s, step);
    forall k | k in t.passes && (k in s.passes ==> PassSafe(s.passes[k], a, s.w.rulebooks))
      ensures PassSafe(t.passes[k], a, t.w.rulebooks)
    {
      if k in s.passes {
        SafeLater(s, k, a, t.w.rulebooks);
        PassesAdvance(s, step, k, a);
        AdvancedSafe(s.passes[k], t.passes[k], a, t.w.rulebooks);
      } else {
        StepShrinks(s, step, k);
        NotHeldSafe(t.passes[k], a, t.w.rulebooks);
      }
    }
  }

  lemma NotHeldSafe(p: Pass, a: nat, rulebooks: map<nat, Rulebook>)
    requires !Holds(p.todo, a)
    ensures PassSafe(p, a, rulebooks)
  {
  }

  /** What one push or save for the activation itself makes of the bound. */
  lemma {:induction false} HeadCounts(s: Sys, step: Step, a: nat)
    requires DistinctTodos(s) && !ByOthers(s, step, a) && !step.UserActs?
    ensures var t := Apply(s, step);
      && step.k in s.passes && step.k in t.passes
      && |PushesOf(t.w.pushes, a)| <= |PushesOf(s.w.pushes, a)| + 1
      && (PassSafe(s.passes[step.k], a, s.w.rulebooks) || step.Save? ==> t.w.pushes == s.w.pushes)
      && (PassSafe(s.passes[step.k], a, s.w.rulebooks) || step.Push? ==>
            PassSafe(t.passes[step.k], a, t.w.rulebooks))
  {
    hide SaveFirst, ThenPush, PushesOf, WantsRestart;
    var p := s.passes[step.k];
    var rest := p.(todo := p.todo[1..], pushing := false);
    HeadKeepsRulebooks(s, step);
    TailNotHeld(p, a);
    NotHeldSafe(rest, a, s.w.rulebooks);
    assert PassSafe(p, a, s.w.rulebooks) ==> SafeAt(p, 0, s.w.rulebooks);
    if step.Save? {
      SaveCounts(p.job, s.w, p.todo[0], p.project);
    } else {
      PushCounts(p.job, s.w, p.todo[0], step.ok);
    }
  }

  lemma TailNotHeld(p: Pass, a: nat)
    requires DistinctIds(p.todo) && p.todo != [] && p.todo[0].id == a
    ensures !Holds(p.todo[1..], a)
  {
  }

  lemma SaveCounts(job: Job, w: World, o: Activation, project: Project)
    ensures var s := SaveFirst(job, w, o, project);
      s.w.pushes == w.pushes && (s.push ==> !Harmless(job, o, w.rulebooks))
  {
  }

  lemma PushCounts(job: Job, w: World, o: Activation, ok: bool)
    ensures |PushesOf(ThenPush(job, w, o, ok).pushes, o.id)| <= |PushesOf(w.pushes, o.id)| + 1
    ensures job == FailJob ==> ThenPush(job, w, o, ok) == w
  {
    hide PushesOf;
    PushesOfSnoc(w.pushes, Pushed(o.id, if job.ResumeJob? && !o.enabled then Start else Restart), o.id);
  }

  lemma {:induction false} SmallerBy(large: set<nat>, small: set<nat>, k: nat)
    requires small <= large
    ensures |small| <= |large| && (k in large && k !in small ==> |small| < |large|)
  {
    Subsets(small, large);
    if k in large && k !in small {
      Subsets(small, large - {k});
    }
  }

  lemma {:induction false} Subsets(small: set<nat>, large: set<nat>)
    requires small <= large
    ensures |small| <= |large|
  {
    assert large == small + (large - small);
  }

  /** Requests there are and requests still to come never grow together. */
  lemma {:induction false} StepBound(s: Sys, step: Step, a: nat)
    requires Orderly(s) && (step.UserActs? ==> step.id != a) && UnreadBy(s, step, a)
    ensures var t := Apply(s, step);
      |PushesOf(t.w.pushes, a)| + |Pushers(t, a)| <= |PushesOf(s.w.pushes, a)| + |Pushers(s, a)|
  {
    hide Apply, PushesOf, PassSafe, AllReads, AllTidy, DistinctTodos, Valid, UnreadBy;
    var t := Apply(s, step);
    if ByOthers(s, step, a) {
      StepLeaves(s, step, a);
      OthersPush(s, step, a);
      Subsets(Pushers(t, a), Pushers(s, a));
    } else {
      HeadCounts(s, step, a);
      HeadKeepsRulebooks(s, step);
      SmallerBy(Pushers(s, a), Pushers(t, a), step.k);
    }
  }

  lemma {:induction false} RunBound(s: Sys, run: seq<Step>, a: nat)
    requires Orderly(s) && NoUser(run, a) && Unread(s, run, a)
    ensures |PushesOf(Exec(s, run).w.pushes, a)| <= |PushesOf(s.w.pushes, a)| + |Pushers(s, a)|
    decreases |run|
  {
    hide Apply, Orderly, PushesOf, Pushers, UnreadBy;
    if run != [] {
      StepOrderly(s, run[0]);
      StepBound(s, run[0], a);
      RunBound(Apply(s, run[0]), run[1..], a);
    }
  }

  // ------------------------------------- and no fewer

  lemma {:induction false} WorkedPushers(s: Sys, t: Sys, k: nat, done: nat, a: nat)
    requires Worked(s, t, k, done) && !Holds(s.passes[k].todo[done..], a) && k in Pushers(s, a)
    ensures Pushers(t, a) == Pushers(s, a) - {k} && |Pushers(t, a)| == |Pushers(s, a)| - 1
  {
    hide PassSafe;
    NotHeldSafe(t.passes[k], a, t.w.rulebooks);
    assert Pushers(t, a) == Pushers(s, a) - {k};
  }

  lemma {:induction false} TasksOnlyUnread(s: Sys, run: seq<Step>, a: nat)
    requires TasksOnly(run)
    ensures Unread(s, run, a)
    decreases |run|
  {
    hide Apply;
    if run != [] {
      TasksOnlyUnread(Apply(s, run[0]), run[1..], a);
    }
  }

  /** A run of the tasks alone in which every one of them pushes. */
  lemma {:induction false} AllPush(s: Sys, a: nat) returns (run: seq<Step>)
    requires Orderly(s) && a in s.w.rows
    ensures TasksOnly(run)
    ensures |PushesOf(Exec(s, run).w.pushes, a)| == |PushesOf(s.w.pushes, a)| + |Pushers(s, a)|
    decreases |Pushers(s, a)|
  {
    hide Apply, Exec, PushesOf, PassSafe, AllReads, AllTidy, Valid;
    if Pushers(s, a) == {} {
      run := [];
      ExecNothing(s);
    } else {
      var k :| k in Pushers(s, a);
      var first, done := UnsafePushes(s, k, a);
      var t := Exec(s, first);
      WorkedPushers(s, t, k, done, a);
      RunOrderly(s, first);
      var rest := AllPush(t, a);
      run := first + rest;
      ExecConcat(s, first, rest);
    }
  }


  /**
   After any run, from a moment at which no task was at work: as long as no task reads
   the activation anew and its user does nothing, it gets at most `n` more requests,
   exactly when at most `n` tasks will push for it.
   */
  lemma {:induction false} MostRequestsIff(start: Sys, past: seq<Step>, a: nat, n: nat)
    requires Valid(start.w) && AllTidy(start.w.rows, start.w.rulebooks) && start.passes == map[]
    requires a in Exec(start, past).w.rows
    ensures var s := Exec(start, past);
      |Pushers(s, a)| <= n <==>
      forall run | NoUser(run, a) && Unread(s, run, a) ::
        |PushesOf(Exec(s, run).w.pushes, a)| <= |PushesOf(s.w.pushes, a)| + n
  {
    hide Exec, Valid, AllTidy, PushesOf, Pushers, Unread;
    RunOrderly(start, past);
    var s := Exec(start, past);
    forall run | NoUser(run, a) && Unread(s, run, a)
      ensures |PushesOf(Exec(s, run).w.pushes, a)| <= |PushesOf(s.w.pushes, a)| + |Pushers(s, a)|
    {
      RunBound(s, run, a);
    }
    var run := AllPush(s, a);
    TasksOnlyUnread(s, run, a);
    assert NoUser(run, a);
  }
}
