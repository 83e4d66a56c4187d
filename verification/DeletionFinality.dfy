/**
 Whether a queued deletion is the last thing that happens to an activation: what
 may still be started after it, and exactly when nothing is.
 */
module DeletionFinality {
  import opened Common
  import opened Arbitration
  import opened DrainProtocol
  import opened BoundedBypass

  predicate Early(r: Row, d: Row) { r.id <= d.id }

  ghost predicate AllEarly(rows: seq<Row>, d: Row) { forall r | r in rows :: Early(r, d) }

  /** A Delete no younger than `d`, other than `except`, is queued. */
  ghost predicate DeleteQueued(rows: seq<Row>, d: Row) {
    exists r :: r in rows && r.request == Delete && Early(r, d)
  }

  ghost predicate InWindow(s: State) { forall r | r in s.queue :: r in s.window }

  /** The deletion is still to come: its row is queued, and no younger row is fetched ahead of it. */
  ghost predicate Pending(s: State, d: Row) {
    && s.parentExists && DeleteQueued(s.queue, d)
    && match Holder(s)
      case Serving(_, todo) => AllEarly(todo, d)
      case Running(_, req, todo) => AllEarly([req] + todo, d)
      case Popping(_, req, todo) =>
        AllEarly(todo, d) && exists r :: r in s.queue && r != req && r.request == Delete && Early(r, d)
      case Purged(_, _, _) => false
      case _ => true
  }

  /** The queue was emptied for the deletion, or the activation is gone: only what was pushed in between is left. */
  ghost predicate Passed(s: State) { (Holder(s).Purged? || !s.parentExists) && InWindow(s) }

  ghost predicate LogFinal(s: State, n: nat, d: Row) {
    n <= |s.log| && forall i | n <= i < |s.log| :: Early(s.log[i], d) || s.log[i] in s.window
  }

  ghost predicate Final(s: State, n: nat, d: Row) { LogFinal(s, n, d) && (Pending(s, d) || Passed(s)) }

  // ------------------------------------------------------------ arbitration

  lemma {:induction false} FoldMembers(rows: seq<Row>, r: Row)
    requires rows != [] && r in Output(FoldAll(rows))
    ensures r in rows
  {
    var n := |rows| - 1;
    if n > 0 {
      assert rows == rows[..n] + [rows[n]];
      FoldAllSnoc(rows[..n], rows[n]);
      if r != rows[n] {
        FoldMembers(rows[..n], r);
      }
    }
  }

  /** Deleting a superseded row leaves a Delete that is early enough, if there was one. */
  lemma DeleteStays(queue: seq<Row>, left: seq<Row>, d: Row)
    requires Increasing(queue) && DeleteQueued(queue, d) && left != [] && Arbitrate(left) == Arbitrate(queue)
    ensures DeleteQueued(left, d)
  {
    var r :| r in queue && r.request == Delete && Early(r, d);
    var i :| 0 <= i < |queue| && queue[i] == r;
    DeleteTakesAll(queue, i);
    FoldMembers(left, Arbitrate(left)[0]);
  }

  /** What a fetch serves is early, given an early Delete in the queue. */
  lemma ServedEarly(queue: seq<Row>, pre: seq<Row>, mark: nat, fold: Fold, d: Row)
    requires Increasing(queue) && Upto(queue, pre, mark) && DeleteQueued(queue, d)
    requires pre == Output(fold) && Normal(fold)
    ensures AllEarly(pre, d)
  {
    var r :| r in queue && r.request == Delete && Early(r, d);
    var i :| 0 <= i < |queue| && queue[i] == r;
    if i < |pre| {
      assert pre[i] == r;
    } else {
      assert mark <= queue[i].id;
    }
  }

  // ------------------------------------------------------- preservation

  lemma PushFinal(s: State, request: Request, requestId: string, n: nat, d: Row)
    requires Inv(s) && Final(s, n, d)
    ensures Final(PushRow(s, request, requestId), n, d)
  {
    hide LockInv, TableInv, OrderInv, CountInv, FateInv, PhaseInv;
    var t := PushRow(s, request, requestId);
    assert Holder(t) == Holder(s);
    assert forall r | r in s.queue :: r in t.queue;
  }

  lemma DrawFinal(s: State, n: nat, d: Row)
    requires Final(s, n, d)
    ensures Final(NextId(s), n, d)
  {
    assert Holder(NextId(s)) == Holder(s);
  }

  /** Nothing starts, nothing leaves the queue, and nobody serves afterwards. */
  lemma IdleFinal(s: State, t: State, n: nat, d: Row)
    requires Inv(s) && Final(s, n, d) && t.log == s.log && t.window == s.window && t.parentExists == s.parentExists
    requires t.queue == s.queue && !Holder(s).Purged?
    requires !Serves(Holder(t)) && !Holder(t).Serving?
    ensures Final(t, n, d)
  {
    hide LockInv, TableInv, OrderInv, CountInv, FateInv, PhaseInv;
  }

  lemma FetchFinal(s: State, a: nat, n: nat, d: Row)
    requires Inv(s) && Final(s, n, d) && PhaseOf(s, a).Head?
    ensures Final(FetchRows(s, a), n, d)
  {
    hide OrderInv, CountInv, FateInv, PhaseInv;
    HolderIs(s, a);
    var t := FetchRows(s, a);
    assert s.queue != [] ==> Holder(t) == PhaseOf(t, a);
  }

  lemma DiscardFinal(s: State, a: nat, n: nat, d: Row)
    requires Inv(s) && Final(s, n, d) && PhaseOf(s, a).Arbitrating? && PhaseOf(s, a).victims != []
    ensures Final(DiscardVictim(s, a), n, d)
  {
    hide OrderInv, CountInv, FateInv;
    var p := PhaseOf(s, a);
    var t := DiscardVictim(s, a);
    HolderMoves(s, t, a, p.(victims := p.victims[1..]));
    forall r | r in t.queue ensures r in s.queue {
      FilterIn(s.queue, IdIsNot(p.victims[0].id), r);
    }
    if Pending(s, d) {
      SameOutcome(s, p, p.victims);
      DiscardPhase(s, t, p);
      FilterIncreasing(s.queue, IdIsNot(p.victims[0].id));
      SameOutcome(t, Holder(t), p.victims[1..]);
      DiscardKeepsLater(s.queue, p.fold, p.victims, p.rest);
      DeleteStays(s.queue, t.queue, d);
    }
  }

  lemma DiscardKeepsLater(queue: seq<Row>, fold: Fold, victims: seq<Row>, rest: seq<Row>)
    requires victims != [] && Increasing(queue) && Left(fold, victims) + rest <= queue
    ensures var pre := Left(fold, victims) + rest;
      Without(queue, victims[0].id) == Left(fold, victims[1..]) + rest + queue[|pre|..]
  {
    var later := queue[|Left(fold, victims) + rest|..];
    assert queue == Left(fold, victims) + (rest + later);
    DropVictim(fold, victims, rest + later);
  }

  lemma SameOutcome(s: State, p: Phase, victims: seq<Row>)
    requires p.Arbitrating? && p.victims == victims && PhaseInv(s, p)
    ensures var later := s.queue[|Left(p.fold, victims) + p.rest|..];
      Arbitrate(s.queue) == Output(FoldOn(p.fold, p.rest + later)) && s.queue != []
  {
    var later := s.queue[|Left(p.fold, victims) + p.rest|..];
    assert s.queue == Left(p.fold, victims) + (p.rest + later);
    FoldAllConcat(Left(p.fold, victims), p.rest + later);
  }

  lemma SettleFinal(s: State, a: nat, n: nat, d: Row)
    requires Inv(s) && Final(s, n, d)
    requires PhaseOf(s, a).Arbitrating? && PhaseOf(s, a).victims == [] && PhaseOf(s, a).rest == []
    ensures Final(EndFetch(s, a), n, d)
  {
    hide OrderInv, CountInv, FateInv;
    var p := PhaseOf(s, a);
    HolderMoves(s, EndFetch(s, a), a, PhaseOf(EndFetch(s, a), a));
    assert Left(p.fold, []) + [] == Output(p.fold);
    if Pending(s, d) {
      ServedEarly(s.queue, Output(p.fold), p.mark, p.fold, d);
    }
  }

  lemma BeginFinal(s: State, a: nat, n: nat, d: Row)
    requires Inv(s) && Final(s, n, d) && PhaseOf(s, a).Serving? && PhaseOf(s, a).todo != []
    ensures Final(BeginRequest(s, a), n, d)
  {
    hide OrderInv, CountInv, FateInv, TableInv;
    var p := PhaseOf(s, a);
    HolderMoves(s, BeginRequest(s, a), a, PhaseOf(BeginRequest(s, a), a));
    assert s.queue[0] == p.todo[0];
    assert p.todo == [p.todo[0]] + p.todo[1..];
  }

  lemma PurgeFinal(s: State, a: nat, n: nat, d: Row)
    requires Inv(s) && Final(s, n, d) && PhaseOf(s, a).Running? && PhaseOf(s, a).req.request == Delete
    ensures Final(PurgeQueue(s, a), n, d)
  {
    hide OrderInv, CountInv, FateInv, TableInv, PhaseInv;
    HolderMoves(s, PurgeQueue(s, a), a, PhaseOf(PurgeQueue(s, a), a));
  }

  lemma RemoveFinal(s: State, a: nat, n: nat, d: Row)
    requires Inv(s) && Final(s, n, d) && PhaseOf(s, a).Purged?
    ensures Final(RemoveActivation(s, a), n, d)
  {
    hide OrderInv, CountInv, FateInv, TableInv, PhaseInv;
    HolderMoves(s, RemoveActivation(s, a), a, PhaseOf(RemoveActivation(s, a), a));
  }

  lemma FinishFinal(s: State, a: nat, n: nat, d: Row)
    requires Inv(s) && Final(s, n, d) && PhaseOf(s, a).Running? && PhaseOf(s, a).req.request != Delete
    ensures Final(EndRequest(s, a), n, d)
  {
    hide OrderInv, CountInv, FateInv, TableInv, PhaseInv;
    var p := PhaseOf(s, a);
    HolderMoves(s, EndRequest(s, a), a, PhaseOf(EndRequest(s, a), a));
    if Pending(s, d) {
      assert AllEarly(p.todo, d) by { assert forall r | r in p.todo :: r in [p.req] + p.todo; }
    }
  }

  lemma PopFinal(s: State, a: nat, n: nat, d: Row)
    requires Inv(s) && Final(s, n, d) && PhaseOf(s, a).Popping?
    ensures Final(PopRows(s, a), n, d)
  {
    hide OrderInv, CountInv, FateInv, TableInv, PhaseInv;
    var p, t := PhaseOf(s, a), PopRows(s, a);
    HolderMoves(s, t, a, PhaseOf(t, a));
    PopKeepsOthers(s, p);
  }

  lemma LoopFinal(s: State, a: nat, n: nat, d: Row)
    requires Inv(s) && Final(s, n, d) && PhaseOf(s, a).Serving? && PhaseOf(s, a).todo == []
    ensures Final(LoopAgain(s, a), n, d)
  {
    hide OrderInv, CountInv, FateInv, TableInv, PhaseInv;
    HolderMoves(s, LoopAgain(s, a), a, Head);
    IdleFinal(s, LoopAgain(s, a), n, d);
  }

  lemma CrashFinal(s: State, a: nat, n: nat, d: Row)
    requires Inv(s) && Final(s, n, d) && !PhaseOf(s, a).Purged?
    ensures Final(CrashActor(s, a), n, d)
  {
    hide OrderInv, CountInv, FateInv, TableInv, PhaseInv;
    var t := CrashActor(s, a);
    if s.lock == Some(a) {
      assert Holder(t) == Gone;
      IdleFinal(s, t, n, d);
    } else {
      assert Holder(t) == Holder(s);
    }
  }

  lemma OutsideFinal(s: State, step: Step, n: nat, d: Row)
    requires Inv(s) && Final(s, n, d)
    requires step.Dispatch? || step.EndProbe? || step.Decline? || step.Submit? || step.Acquire? || step.Load?
    ensures Final(Apply(s, step), n, d)
  {
    hide OrderInv, CountInv, FateInv, TableInv, PhaseInv;
    var a, t := step.a, Apply(s, step);
    assert Holds(PhaseOf(s, a)) <==> s.lock == Some(a);
    if t == s {
    } else if t.lock == s.lock && s.lock != Some(a) {
      assert Holder(t) == Holder(s);
    } else {
      assert t.lock == Some(a) ==> Holder(t) == PhaseOf(t, a);
      IdleFinal(s, t, n, d);
    }
  }

  lemma ReadFinal(s: State, a: nat, n: nat, d: Row)
    requires Inv(s) && Final(s, n, d)
    requires PhaseOf(s, a).Arbitrating? && PhaseOf(s, a).victims == [] && PhaseOf(s, a).rest != []
    ensures Final(ReadRow(s, a), n, d)
  {
    hide OrderInv, CountInv, FateInv, TableInv, PhaseInv;
    HolderMoves(s, ReadRow(s, a), a, PhaseOf(ReadRow(s, a), a));
    IdleFinal(s, ReadRow(s, a), n, d);
  }

  lemma FinalStep(s: State, step: Step, n: nat, d: Row)
    requires Inv(s) && Final(s, n, d)
    ensures Final(Apply(s, step), n, d) || Apply(s, step).failedDeletes > s.failedDeletes
    ensures Apply(s, step).failedDeletes >= s.failedDeletes
  {
    hide Inv, Final;
    var t := Apply(s, step);
    if t != s && t.failedDeletes == s.failedDeletes {
      match step
      case Push(request, requestId) => PushFinal(s, request, requestId, n, d);
      case DrawId => DrawFinal(s, n, d);
      case Fetch(a) => FetchFinal(s, a, n, d);
      case Discard(a) => DiscardFinal(s, a, n, d);
      case ReadNext(a) => ReadFinal(s, a, n, d);
      case Settle(a) => SettleFinal(s, a, n, d);
      case Begin(a) => BeginFinal(s, a, n, d);
      case Purge(a) => PurgeFinal(s, a, n, d);
      case RemoveParent(a) => RemoveFinal(s, a, n, d);
      case Finish(a) =>
        PurgedIsDelete(s, a);
        FinishFinal(s, a, n, d);
      case Pop(a) => PopFinal(s, a, n, d);
      case Loop(a) => LoopFinal(s, a, n, d);
      case Crash(a) => CrashFinal(s, a, n, d);
      case _ => OutsideFinal(s, step, n, d);
    }
  }

  lemma PurgedIsDelete(s: State, a: nat)
    requires Inv(s)
    ensures PhaseOf(s, a).Purged? ==> PhaseOf(s, a).req.request == Delete
  {
    hide OrderInv, CountInv, FateInv, TableInv;
    if PhaseOf(s, a).Purged? {
      HolderIs(s, a);
    }
  }

  lemma {:induction false} FinalRun(s: State, steps: seq<Step>, n: nat, d: Row)
    requires Inv(s) && Final(s, n, d)
    ensures Final(Exec(s, steps), n, d) || Exec(s, steps).failedDeletes > s.failedDeletes
    ensures Exec(s, steps).failedDeletes >= s.failedDeletes
  {
    hide Inv, Final, Apply;
    if steps != [] {
      var last := |steps| - 1;
      var mid := Exec(s, steps[..last]);
      FinalRun(s, steps[..last], n, d);
      ExecInv(s, steps[..last]);
      NeverUnfails(mid, steps[last]);
      if Final(mid, n, d) {
        FinalStep(mid, steps[last], n, d);
      }
    }
  }

  lemma NeverUnfails(s: State, step: Step)
    ensures Apply(s, step).failedDeletes >= s.failedDeletes
  {
  }

  lemma FinalStarts(s: State, requestId: string)
    requires Inv(s) && s.parentExists
    ensures var d := Row(s.nextId, s.parentId, Delete, requestId);
      Final(PushRow(s, Delete, requestId), |s.log|, d)
  {
    hide CountInv, FateInv;
    var t, d := PushRow(s, Delete, requestId), Row(s.nextId, s.parentId, Delete, requestId);
    var p := Holder(s);
    assert Holder(t) == p;
    assert t.queue[|s.queue|] == d;
    if p.Purged? {
      assert Passed(t);
    } else {
      assert d in t.queue && d.request == Delete && Early(d, d);
      assert forall r | r in s.queue :: Early(r, d);
      if Serves(p) {
        assert d != p.req;
      }
      assert Pending(t, d);
    }
  }

  /**
   Deletion is final, whatever happens and whoever crashes: once a Delete `d` is
   committed, every later start is of a row no younger than `d`, or of one pushed
   in the window in which a deletion had emptied the queue but not yet removed the
   activation; unless a deletion ended without removing it.
   */
  lemma {:induction false} DeletionIsFinal(s: State, requestId: string, steps: seq<Step>)
    requires Inv(s) && s.parentExists
    ensures var d := Row(s.nextId, s.parentId, Delete, requestId);
      var t := Exec(PushRow(s, Delete, requestId), steps);
      t.failedDeletes > s.failedDeletes || LogFinal(t, |s.log|, d)
  {
    var d := Row(s.nextId, s.parentId, Delete, requestId);
    FinalStarts(s, requestId);
    PushInv(s, Delete, requestId);
    FinalRun(PushRow(s, Delete, requestId), steps, |s.log|, d);
  }

  // --------------------------------------------------- exactly when

  ghost predicate Quiet(s: State) { Inv(s) && !s.parentExists && s.queue == [] }

  lemma QuietStep(s: State, step: Step)
    requires Quiet(s)
    ensures Quiet(Apply(s, step)) && Apply(s, step).log == s.log
  {
    hide LockInv, TableInv, OrderInv, CountInv, FateInv;
    StepInv(s, step);
    if ByActor(step) && Holds(PhaseOf(s, step.a)) {
      HolderIs(s, step.a);
    }
  }

  lemma {:induction false} QuietRun(s: State, steps: seq<Step>)
    requires Quiet(s)
    ensures Quiet(Exec(s, steps)) && Exec(s, steps).log == s.log
  {
    hide Quiet, Apply;
    if steps != [] {
      QuietRun(s, steps[..|steps| - 1]);
      QuietStep(Exec(s, steps[..|steps| - 1]), steps[|steps| - 1]);
    }
  }

  /** Left alone, a worker gets from its fetch to serving. */
  lemma {:induction false} FetchCompletes(s: State, steps: seq<Step>, a: nat) returns (more: seq<Step>)
    requires PhaseOf(Exec(s, steps), a).Arbitrating?
    ensures PhaseOf(Exec(s, more), a).Serving? && PhaseOf(Exec(s, more), a).todo != []
    ensures Exec(s, more).log == Exec(s, steps).log
    decreases |PhaseOf(Exec(s, steps), a).rest|, |PhaseOf(Exec(s, steps), a).victims|
  {
    var p := PhaseOf(Exec(s, steps), a);
    var step := if p.victims != [] then Discard(a) else if p.rest != [] then ReadNext(a) else Settle(a);
    ExecSnoc(s, steps, step);
    if step.Settle? {
      more := steps + [step];
    } else {
      more := FetchCompletes(s, steps + [step], a);
    }
  }

  /** A worker at the top of its loop serves something if anything is queued. */
  lemma QueuedIsServed(s: State, steps: seq<Step>, a: nat) returns (more: seq<Step>)
    requires PhaseOf(Exec(s, steps), a).Head? && Exec(s, steps).queue != []
    ensures |Exec(s, more).log| > |Exec(s, steps).log|
  {
    ExecSnoc(s, steps, Fetch(a));
    more := steps + [Fetch(a)];
    if PhaseOf(Exec(s, more), a).Arbitrating? {
      more := FetchCompletes(s, more, a);
    }
    ExecSnoc(s, more, Begin(a));
    more := more + [Begin(a)];
  }

  /**
   Once the activation is removed, nothing is ever started again if and only if
   nothing was pushed in the window: the queue is empty at the removal.
   */
  lemma NothingAfterDeletionIff(s: State, a: nat)
    requires Inv(s) && PhaseOf(s, a).Purged?
    ensures var t := RemoveActivation(s, a);
      (forall steps :: Exec(t, steps).log == t.log) <==> s.queue == []
  {
    hide LockInv, TableInv, OrderInv, CountInv, FateInv;
    var t := RemoveActivation(s, a);
    RemoveInv(s, a);
    HolderIs(s, a);
    if s.queue == [] {
      forall steps ensures Exec(t, steps).log == t.log {
        QuietRun(t, steps);
      }
    } else {
      WindowIsServed(s, t, a);
    }
  }

  lemma WindowIsServed(s: State, t: State, a: nat)
    requires Inv(s) && PhaseOf(s, a).Purged? && s.queue != [] && t == RemoveActivation(s, a)
    ensures exists steps :: Exec(t, steps).log != t.log
  {
    hide LockInv, TableInv, OrderInv, CountInv, FateInv, PhaseInv, FetchRows, PopRows, Exec;
    ReachesHead(s, t, a);
    ExecSnoc(t, [], Pop(a));
    ExecSnoc(t, [Pop(a)], Loop(a));
    assert [] + [Pop(a)] == [Pop(a)] && [Pop(a)] + [Loop(a)] == [Pop(a), Loop(a)];
    assert Exec(t, []) == t by { NoSteps(t); }
    var more := QueuedIsServed(t, [Pop(a), Loop(a)], a);
    assert Exec(t, more).log != t.log;
  }

  lemma ReachesHead(s: State, t: State, a: nat)
    requires Inv(s) && PhaseOf(s, a).Purged? && s.queue != [] && t == RemoveActivation(s, a)
    ensures var u := LoopAgain(PopRows(t, a), a);
      PhaseOf(u, a).Head? && u.queue != [] && u.log == t.log
  {
    hide LockInv, OrderInv, CountInv, FateInv;
    HolderIs(s, a);
    RemoveInv(s, a);
    var p := PhaseOf(t, a);
    HolderIs(t, a);
    assert p.req !in t.queue by { assert p.req == PhaseOf(s, a).req; }
    PopExact(t, p);
  }

  /** From a purge with an empty queue: a Restart pushed there is started next. */
  lemma WindowPushRuns(s: State, a: nat) returns (s1: State, s2: State, s3: State, s4: State, s5: State)
    requires PhaseOf(s, a).Purged? && PhaseOf(s, a).todo == [] && PhaseOf(s, a).req.id < s.nextId
    requires s.parentExists && s.queue == []
    ensures s1 == PushRow(s, Restart, "") && s2 == RemoveActivation(s1, a) && s3 == PopRows(s2, a)
    ensures s4 == LoopAgain(s3, a) && s5 == FetchRows(s4, a)
    ensures BeginRequest(s5, a).log == s.log + [Row(s.nextId, s.parentId, Restart, "")]
    ensures BeginRequest(s5, a).marks == s.marks + [s.nextId + 1]
    ensures BeginRequest(s5, a).purged == s.purged && BeginRequest(s5, a).failedDeletes == s.failedDeletes
  {
    var x := Row(s.nextId, s.parentId, Restart, "");
    s1 := PushRow(s, Restart, "");
    s2 := RemoveActivation(s1, a);
    assert s2.queue == [x] && PhaseOf(s2, a).Popping? && PhaseOf(s2, a).todo == [];
    s3 := PopRows(s2, a);
    FilterOne(x, NotPopped(s2.parentId, PhaseOf(s2, a).req.id));
    assert s3.queue == [x] && PhaseOf(s3, a).Serving? && PhaseOf(s3, a).todo == [];
    s4 := LoopAgain(s3, a);
    s5 := FetchRows(s4, a);
    assert PhaseOf(s5, a) == Serving(s.nextId + 1, [x]);
  }

  lemma SevenSteps(s: State, steps: seq<Step>, s1: State, s2: State, s3: State, s4: State, s5: State, s6: State)
    requires |steps| == 7 && s1 == Apply(s, steps[0]) && s2 == Apply(s1, steps[1]) && s3 == Apply(s2, steps[2])
    requires s4 == Apply(s3, steps[3]) && s5 == Apply(s4, steps[4]) && s6 == Apply(s5, steps[5])
    ensures Exec(s, steps) == Apply(s6, steps[6])
  {
    hide Apply;
    assert steps[..0] == [];
    forall i | 0 <= i < 7 ensures Exec(s, steps[..i + 1]) == Apply(Exec(s, steps[..i]), steps[i]) {
      assert steps[..i + 1] == steps[..i] + [steps[i]];
      ExecSnoc(s, steps[..i], steps[i]);
    }
    assert steps[..7] == steps;
    assert Exec(s, steps[..0]) == s;
    assert Exec(s, steps[..0 + 1]) == s1;
    assert Exec(s, steps[..1 + 1]) == s2;
    assert Exec(s, steps[..2 + 1]) == s3;
    assert Exec(s, steps[..3 + 1]) == s4;
    assert Exec(s, steps[..4 + 1]) == s5;
    assert Exec(s, steps[..5 + 1]) == s6;
    assert Exec(s, steps[..6 + 1]) == Apply(s6, steps[6]);
  }
}
