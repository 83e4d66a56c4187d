/**
 When exactly a deletion is final, as far as deletions do not fail: only if another
 deletion had emptied the queue, but not yet removed the activation, when it was
 committed. From every other state a run leads to a younger request being started.
 */
module FinalityExactly {
  import opened Common
  import opened Arbitration
  import opened DrainProtocol
  import opened DeletionFinality
  import BypassExactly
  import DrainSafety

  /** Since start number `n` nothing younger than `d` was started. */
  ghost predicate OnlyEarly(s: State, n: nat, d: Row) {
    n <= |s.log| && forall i | n <= i < |s.log| :: Early(s.log[i], d)
  }

  // ------------------------------------------------- with the queue emptied before: final

  /** A Delete is still to be fetched, or is about to be, from a queue that nothing is added to. */
  ghost predicate Comes(s: State, d: Row) {
    DeleteQueued(s.queue, d) &&
    match Holder(s)
    case Arbitrating(_, fold, rest, victims) => s.queue == Left(fold, victims) + rest
    case Serving(_, todo) => todo == []
    case Popping(_, req, todo) => todo == [] && forall r | r in s.queue :: req.id < r.id
    case Running(_, _, _) => false
    case _ => true
  }

  /** The queue is closed, or will be before it is fetched, and its Delete keeps younger rows from being served. */
  ghost predicate Closed(s: State, d: Row) {
    if s.parentExists then Holder(s).Purged? && DeleteQueued(s.queue, d) else AllEarly(s.queue, d) || Comes(s, d)
  }

  lemma PushClosed(s: State, request: Request, requestId: string, d: Row)
    requires Closed(s, d)
    ensures Closed(PushRow(s, request, requestId), d)
  {
    var t := PushRow(s, request, requestId);
    assert Holder(t) == Holder(s);
    assert forall r | r in s.queue :: r in t.queue;
  }

  lemma DrawClosed(s: State, d: Row)
    requires Closed(s, d)
    ensures Closed(NextId(s), d)
  {
    assert Holder(NextId(s)) == Holder(s);
  }

  lemma FetchClosed(s: State, a: nat, d: Row)
    requires Inv(s) && Closed(s, d) && PhaseOf(s, a).Head?
    ensures Closed(FetchRows(s, a), d)
  {
    hide OrderInv, CountInv, FateInv, TableInv, PhaseInv;
    HolderIs(s, a);
    var t := FetchRows(s, a);
    assert s.queue != [] ==> Holder(t) == PhaseOf(t, a);
    if |s.queue| >= 2 {
      assert s.queue == [] + [s.queue[0]] + s.queue[1..];
    }
  }

  lemma DiscardClosed(s: State, a: nat, d: Row)
    requires Inv(s) && Closed(s, d) && PhaseOf(s, a).Arbitrating? && PhaseOf(s, a).victims != []
    ensures Closed(DiscardVictim(s, a), d)
  {
    hide OrderInv, CountInv, FateInv, PhaseInv, DeleteQueued, Left, Filter, Increasing;
    var p, t := PhaseOf(s, a), DiscardVictim(s, a);
    HolderMoves(s, t, a, p.(victims := p.victims[1..]));
    if AllEarly(s.queue, d) {
      forall r | r in t.queue ensures r in s.queue {
        FilterIn(s.queue, IdIsNot(p.victims[0].id), r);
      }
    } else {
      DiscardKeepsDelete(s, a, d);
    }
  }

  lemma DiscardKeepsDelete(s: State, a: nat, d: Row)
    requires Inv(s) && PhaseOf(s, a).Arbitrating? && PhaseOf(s, a).victims != [] && DeleteQueued(s.queue, d)
    requires var p := PhaseOf(s, a); s.queue == Left(p.fold, p.victims) + p.rest
    ensures var p, t := PhaseOf(s, a), DiscardVictim(s, a);
      DeleteQueued(t.queue, d) && t.queue == Left(p.fold, p.victims[1..]) + p.rest
  {
    hide OrderInv, CountInv, FateInv, DeleteQueued, Filter, Left;
    var p, t := PhaseOf(s, a), DiscardVictim(s, a);
    HolderIs(s, a);
    DropVictim(p.fold, p.victims, p.rest);
    DeletionStands(p.fold, p.victims, p.rest, d);
  }

  /** A superseded row may go without the outcome changing, so an early Delete is left. */
  lemma DeletionStands(fold: Fold, victims: seq<Row>, rest: seq<Row>, d: Row)
    requires VictimsNeutral(fold, victims) && victims != [] && Increasing(Left(fold, victims) + rest)
    requires DeleteQueued(Left(fold, victims) + rest, d)
    ensures DeleteQueued(Left(fold, victims[1..]) + rest, d)
  {
    hide DeleteQueued;
    var all, left := Left(fold, victims), Left(fold, victims[1..]);
    assert left != [] && all != [];
    FoldAllConcat(all, rest);
    FoldAllConcat(left, rest);
    DeleteStays(all + rest, left + rest, d);
  }

  lemma ReadClosed(s: State, a: nat, d: Row)
    requires Inv(s) && Closed(s, d)
    requires PhaseOf(s, a).Arbitrating? && PhaseOf(s, a).victims == [] && PhaseOf(s, a).rest != []
    ensures Closed(ReadRow(s, a), d)
  {
    hide OrderInv, CountInv, FateInv, DeleteQueued, Resolve, Discarded, VictimsNeutral;
    var p, t := PhaseOf(s, a), ReadRow(s, a);
    HolderMoves(s, t, a, PhaseOf(t, a));
    if !AllEarly(s.queue, d) {
      var out := Output(p.fold) + [p.rest[0]];
      assert p.rest == [p.rest[0]] + p.rest[1..];
      assert s.queue == out + p.rest[1..];
      assert out == s.queue[..|out|];
      PairStep(p.fold, p.rest[0]);
    }
  }

  lemma SettleClosed(s: State, a: nat, d: Row)
    requires Inv(s) && Closed(s, d)
    requires PhaseOf(s, a).Arbitrating? && PhaseOf(s, a).victims == [] && PhaseOf(s, a).rest == []
    ensures Closed(EndFetch(s, a), d)
  {
    hide OrderInv, CountInv, FateInv, TableInv;
    var p, t := PhaseOf(s, a), EndFetch(s, a);
    HolderMoves(s, t, a, PhaseOf(t, a));
  }

  lemma BeginClosed(s: State, a: nat, d: Row)
    requires Inv(s) && Closed(s, d) && PhaseOf(s, a).Serving? && PhaseOf(s, a).todo != []
    ensures Closed(BeginRequest(s, a), d) && Early(PhaseOf(s, a).todo[0], d)
  {
    hide OrderInv, CountInv, FateInv, TableInv;
    HolderMoves(s, BeginRequest(s, a), a, PhaseOf(BeginRequest(s, a), a));
    assert PhaseOf(s, a).todo[0] in s.queue;
  }

  lemma PurgeClosed(s: State, a: nat, d: Row)
    requires Inv(s) && Closed(s, d) && PhaseOf(s, a).Running? && PhaseOf(s, a).req.request == Delete
    ensures Closed(PurgeQueue(s, a), d)
  {
    hide OrderInv, CountInv, FateInv, TableInv, PhaseInv;
    HolderIs(s, a);
  }

  lemma RemoveClosed(s: State, a: nat, d: Row)
    requires Inv(s) && Closed(s, d) && PhaseOf(s, a).Purged?
    ensures Closed(RemoveActivation(s, a), d)
  {
    hide OrderInv, CountInv, FateInv, TableInv;
    HolderMoves(s, RemoveActivation(s, a), a, PhaseOf(RemoveActivation(s, a), a));
  }

  lemma FinishClosed(s: State, a: nat, d: Row)
    requires Inv(s) && Closed(s, d) && PhaseOf(s, a).Running?
    ensures Closed(EndRequest(s, a), d)
  {
    hide OrderInv, CountInv, FateInv, TableInv, PhaseInv;
    HolderMoves(s, EndRequest(s, a), a, PhaseOf(EndRequest(s, a), a));
  }

  lemma PopClosed(s: State, a: nat, d: Row)
    requires Inv(s) && Closed(s, d) && PhaseOf(s, a).Popping?
    ensures Closed(PopRows(s, a), d)
  {
    hide OrderInv, CountInv, FateInv, PhaseInv;
    var p, t := PhaseOf(s, a), PopRows(s, a);
    HolderMoves(s, t, a, PhaseOf(t, a));
    forall r: Row ensures r in t.queue <==> r in s.queue && !(r.parentId == s.parentId && r.id <= p.req.id) {
      FilterIn(s.queue, NotPopped(s.parentId, p.req.id), r);
    }
  }

  lemma LoopClosed(s: State, a: nat, d: Row)
    requires Inv(s) && Closed(s, d) && PhaseOf(s, a).Serving? && PhaseOf(s, a).todo == []
    ensures Closed(LoopAgain(s, a), d)
  {
    hide OrderInv, CountInv, FateInv, TableInv, PhaseInv;
    HolderMoves(s, LoopAgain(s, a), a, Head);
  }

  lemma CrashClosed(s: State, a: nat, d: Row)
    requires Inv(s) && Closed(s, d)
    ensures Closed(CrashActor(s, a), d) || CrashActor(s, a).failedDeletes > s.failedDeletes
  {
    hide OrderInv, CountInv, FateInv, TableInv, PhaseInv;
    if s.lock == Some(a) {
      assert Holder(s) == PhaseOf(s, a);
    } else {
      assert Holder(CrashActor(s, a)) == Holder(s);
    }
  }

  lemma OutsideClosed(s: State, step: Step, d: Row)
    requires Inv(s) && Closed(s, d)
    requires step.Dispatch? || step.EndProbe? || step.Decline? || step.Submit? || step.Acquire? || step.Load?
    ensures Closed(Apply(s, step), d)
  {
    hide OrderInv, CountInv, FateInv, TableInv, PhaseInv;
    var a, t := step.a, Apply(s, step);
    assert Holds(PhaseOf(s, a)) <==> s.lock == Some(a);
    if t == s {
    } else if t.lock == s.lock && s.lock != Some(a) {
      assert Holder(t) == Holder(s);
    } else {
      assert t.lock == Some(a) ==> Holder(t) == PhaseOf(t, a);
    }
  }

  lemma EarlySnoc(s: State, t: State, n: nat, d: Row, row: Row)
    requires OnlyEarly(s, n, d) && t.log == s.log + [row] && Early(row, d)
    ensures OnlyEarly(t, n, d)
  {
  }

  lemma ClosedStep(s: State, step: Step, n: nat, d: Row)
    requires Inv(s) && Closed(s, d) && OnlyEarly(s, n, d)
    ensures var t := Apply(s, step);
      t.failedDeletes > s.failedDeletes || (Closed(t, d) && OnlyEarly(t, n, d))
  {
    hide Inv, Closed, OnlyEarly;
    var t := Apply(s, step);
    if t != s && t.failedDeletes == s.failedDeletes {
      assert t.log == s.log ==> OnlyEarly(t, n, d) by { SameLog(s, t, n, d); }
      match step
      case Push(request, requestId) => PushClosed(s, request, requestId, d);
      case DrawId => DrawClosed(s, d);
      case Fetch(a) => FetchClosed(s, a, d);
      case Discard(a) => DiscardClosed(s, a, d);
      case ReadNext(a) => ReadClosed(s, a, d);
      case Settle(a) => SettleClosed(s, a, d);
      case Begin(a) =>
        BeginClosed(s, a, d);
        EarlySnoc(s, t, n, d, PhaseOf(s, a).todo[0]);
      case Purge(a) => PurgeClosed(s, a, d);
      case RemoveParent(a) => RemoveClosed(s, a, d);
      case Finish(a) =>
        PurgedIsDelete(s, a);
        FinishClosed(s, a, d);
      case Pop(a) => PopClosed(s, a, d);
      case Loop(a) => LoopClosed(s, a, d);
      case Crash(a) => CrashClosed(s, a, d);
      case _ => OutsideClosed(s, step, d);
    } else if t == s {
    }
  }

  lemma SameLog(s: State, t: State, n: nat, d: Row)
    requires OnlyEarly(s, n, d)
    ensures t.log == s.log ==> OnlyEarly(t, n, d)
  {
  }

  lemma {:induction false} ClosedRun(s: State, steps: seq<Step>, n: nat, d: Row)
    requires Inv(s) && Closed(s, d) && OnlyEarly(s, n, d)
    ensures var t := Exec(s, steps);
      t.failedDeletes > s.failedDeletes || (t.failedDeletes == s.failedDeletes && Closed(t, d) && OnlyEarly(t, n, d))
  {
    hide Inv, Closed, OnlyEarly, Apply;
    if steps != [] {
      var last := |steps| - 1;
      var mid := Exec(s, steps[..last]);
      ClosedRun(s, steps[..last], n, d);
      ExecInv(s, steps[..last]);
      NeverUnfails(mid, steps[last]);
      if mid.failedDeletes == s.failedDeletes {
        ClosedStep(mid, steps[last], n, d);
      }
    }
  }

  // ------------------------------------------------- in every other state: not final

  /** A free lock and a worker at the top of its loop, with everything else as it was. */
  ghost predicate Ready(s: State, t: State, a: nat) {
    t == s.(actors := t.actors, lock := Some(a), interrupted := t.interrupted) && PhaseOf(t, a).Head?
  }

  /** Whoever holds the lock may crash, and a worker may then come to the top of its loop. */
  lemma WorkerComes(s: State) returns (a: nat, steps: seq<Step>)
    requires LockInv(s) && s.parentExists && !Holder(s).Purged?
    ensures Ready(s, Exec(s, steps), a)
  {
    hide Exec, CrashActor, ProbeLock, ReleaseProbe, LeaveProbed, TakeLock, LoadParent, Holder, LockInv;
    a := if s.lock.Some? then s.lock.value else 0;
    CrashFrees(s, a);
    var s1 := CrashActor(s, a);
    var s3 := ReleaseProbe(ProbeLock(s1, a), a);
    ProbeThenLoad(s1, a);
    steps := [Crash(a), Dispatch(a), EndProbe(a)] + [Submit(a), Acquire(a), Load(a)];
    ExecConcat(s, [Crash(a), Dispatch(a), EndProbe(a)], [Submit(a), Acquire(a), Load(a)]);
    ThreeSteps(s, Crash(a), Dispatch(a), EndProbe(a));
    ThreeSteps(s3, Submit(a), Acquire(a), Load(a));
  }

  lemma CrashFrees(s: State, a: nat)
    requires LockInv(s) && !Holder(s).Purged? && (s.lock.Some? ==> a == s.lock.value)
    ensures var t := CrashActor(s, a);
      t == s.(actors := t.actors, lock := None, interrupted := t.interrupted) && PhaseOf(t, a).Gone?
  {
    assert s.lock == None ==> !Holds(PhaseOf(s, a));
  }

  lemma ProbeThenLoad(s: State, a: nat)
    requires s.parentExists && s.lock == None && PhaseOf(s, a).Gone?
    ensures var u := LoadParent(TakeLock(LeaveProbed(ReleaseProbe(ProbeLock(s, a), a), a, Submitted), a), a);
      u == s.(actors := u.actors, lock := Some(a)) && PhaseOf(u, a).Head?
  {
    var s2 := ProbeLock(s, a);
    assert s2 == Move(s, a, Probing).(lock := Some(a));
    var s3 := ReleaseProbe(s2, a);
    assert s3 == Move(s2, a, Probed).(lock := None);
    var s4 := LeaveProbed(s3, a, Submitted);
    assert s4 == Move(s3, a, Submitted);
    var s5 := TakeLock(s4, a);
    assert s5 == Move(s4, a, Acquired).(lock := Some(a));
  }

  lemma ThreeSteps(s: State, x: Step, y: Step, z: Step)
    ensures Exec(s, [x, y, z]) == Apply(Apply(Apply(s, x), y), z)
  {
    hide Apply;
    assert [x, y, z] == ([] + [x]) + [y] + [z];
    NoSteps(s);
    ExecSnoc(s, [], x);
    ExecSnoc(s, [] + [x], y);
    ExecSnoc(s, ([] + [x]) + [y], z);
  }

  /** A worker that fetches a queue with a Delete in it has a Delete to work off. */
  lemma FetchesTheDelete(s: State, a: nat, d: Row)
    requires PhaseOf(s, a).Head? && s.parentExists && d in s.queue && d.request == Delete && |s.log| == |s.marks|
    ensures var t := NextId(FetchRows(s, a));
      && BypassExactly.OnTheWay(t, a, Row(s.nextId, 0, Stop, ""), |s.log|)
      && t.log == s.log && t.failedDeletes == s.failedDeletes && t.nextId > s.nextId
  {
    var t := FetchRows(s, a);
    var i :| 0 <= i < |s.queue| && s.queue[i] == d;
    DeleteTakesAll(s.queue, i);
    if |s.queue| == 1 {
      assert d in BypassExactly.Batch(PhaseOf(NextId(t), a));
    } else {
      DrainSafety.FetchPlans(s, a);
      assert PhaseOf(NextId(t), a) == PhaseOf(t, a);
      assert Arbitrate(s.queue)[0] in BypassExactly.Batch(PhaseOf(NextId(t), a));
    }
  }

  /**
   From every state in which no queue has just been emptied: a run, with no failed deletion, that
   starts a younger Restart.
   */
  lemma YoungerIsStarted(s: State, requestId: string) returns (steps: seq<Step>)
    requires Inv(s) && s.parentExists && !Holder(s).Purged?
    ensures var d, t := Row(s.nextId, s.parentId, Delete, requestId), Exec(PushRow(s, Delete, requestId), steps);
      && t.failedDeletes == s.failedDeletes && |t.log| > |s.log|
      && t.log[|t.log| - 1].request == Restart && t.log[|t.log| - 1].id > d.id
  {
    hide LockInv, TableInv, PhaseInv, OrderInv, CountInv, FateInv, Exec, BypassExactly.OnTheWay;
    var s1, d := PushRow(s, Delete, requestId), Row(s.nextId, s.parentId, Delete, requestId);
    PushInv(s, Delete, requestId);
    assert Holder(s1) == Holder(s);
    assert s1.queue[|s.queue|] == d;
    var a, come := WorkerComes(s1);
    var u := Exec(s1, come);
    ExecInv(s1, come);
    SameLength(u);
    FetchesTheDelete(u, a, d);
    var fetch := come + [Fetch(a)] + [DrawId];
    ExecSnoc(s1, come, Fetch(a));
    ExecSnoc(s1, come + [Fetch(a)], DrawId);
    var c := Row(u.nextId, 0, Stop, "");
    var reach := BypassExactly.ComesToTheDelete(s1, fetch, a, c, |u.log|);
    var v := Exec(s1, reach);
    ExecInv(s1, reach);
    WayMeans(v, a, c, |u.log|);
    var last := BypassExactly.PurgeAndRestart(v, a);
    steps := reach + last;
    ExecConcat(s1, reach, last);
  }

  lemma SameLength(s: State)
    requires Inv(s)
    ensures |s.log| == |s.marks|
  {
  }

  lemma WayMeans(v: State, a: nat, c: Row, n: nat)
    requires BypassExactly.OnTheWay(v, a, c, n)
    ensures v.parentExists && n <= |v.log| && c.id < v.nextId
  {
  }

  /**
   A Delete is committed in any state, and no deletion fails after it. In every run
   nothing younger is ever started, exactly when at the commit another deletion had
   already emptied the queue and not yet removed the activation.
   */
  lemma FinalIff(s: State, requestId: string)
    requires Inv(s) && s.parentExists
    ensures var d, s1 := Row(s.nextId, s.parentId, Delete, requestId), PushRow(s, Delete, requestId);
      (forall steps :: Exec(s1, steps).failedDeletes == s.failedDeletes ==> OnlyEarly(Exec(s1, steps), |s.log|, d))
      <==> Holder(s).Purged?
  {
    hide LockInv, TableInv, PhaseInv, OrderInv, CountInv, FateInv, Exec;
    var d, s1 := Row(s.nextId, s.parentId, Delete, requestId), PushRow(s, Delete, requestId);
    PushInv(s, Delete, requestId);
    if Holder(s).Purged? {
      ClosedStarts(s, requestId);
      forall steps ensures Exec(s1, steps).failedDeletes == s.failedDeletes ==> OnlyEarly(Exec(s1, steps), |s.log|, d) {
        ClosedRun(s1, steps, |s.log|, d);
      }
    } else {
      var steps := YoungerIsStarted(s, requestId);
      var t := Exec(s1, steps);
      assert !Early(t.log[|t.log| - 1], d);
    }
  }

  lemma ClosedStarts(s: State, requestId: string)
    requires s.parentExists && Holder(s).Purged?
    ensures var d, s1 := Row(s.nextId, s.parentId, Delete, requestId), PushRow(s, Delete, requestId);
      Closed(s1, d) && OnlyEarly(s1, |s.log|, d)
  {
    var d, s1 := Row(s.nextId, s.parentId, Delete, requestId), PushRow(s, Delete, requestId);
    assert Holder(s1) == Holder(s);
    assert s1.queue[|s.queue|] == d;
  }
}
