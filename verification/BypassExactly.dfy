/**
 When exactly bounded bypass holds: it fails for a Stop or Delete that is committed
 while a worker has already fetched a Delete it has still to work off, because that
 deletion takes the queue with it; and it holds in every other case.
 */
module BypassExactly {
  import opened Common
  import opened Arbitration
  import opened DrainProtocol
  import opened BoundedBypass
  import DrainSafety
  import DeletionFinality

  ghost predicate HasDelete(rows: seq<Row>) { exists r :: r in rows && r.request == Delete }

  /** What a worker has fetched and not yet worked off. */
  function Batch(p: Phase): seq<Row> {
    match p
    case Arbitrating(_, fold, rest, _) => DrainSafety.Plan(p)
    case Serving(_, todo) => todo
    case Running(_, req, todo) => [req] + todo
    case Popping(_, _, todo) => todo
    case Purged(_, _, todo) => todo
    case _ => []
  }

  /** A Delete has been fetched, and its purge is still to come. */
  ghost predicate DeleteFetched(s: State) { HasDelete(Batch(Holder(s))) }

  ghost predicate Served(t: State, n: nat, c: Row) { exists k: nat | k <= 2 :: ServedAfter(t, n, c, k) }

  // ------------------------------------------------- no Delete fetched: it holds

  /** Whatever was fetched before `c` holds no Delete. */
  ghost predicate Spared(s: State, c: Row) {
    var p := Holder(s);
    Fetched(p) && p.mark <= c.id ==> !HasDelete(Batch(p))
  }

  /** The batch of the lock holder is, after the step, a part of what it was, or was fetched after `c`. */
  ghost predicate Shrinks(s: State, t: State, c: Row) {
    var p, q := Holder(s), Holder(t);
    Fetched(q) && q.mark <= c.id ==> Fetched(p) && p.mark == q.mark && forall r :: r in Batch(q) ==> r in Batch(p)
  }

  lemma SparedThen(s: State, t: State, c: Row)
    requires Spared(s, c) && Shrinks(s, t, c)
    ensures Spared(t, c)
  {
  }

  lemma SameHolder(s: State, t: State, c: Row)
    requires Holder(t) == Holder(s) || !Fetched(Holder(t))
    ensures Shrinks(s, t, c)
  {
    hide Batch;
  }

  /** The worker `a` moves on. */
  lemma WorkerShrinks(s: State, step: Step, a: nat, c: Row)
    requires LockInv(s) && Holds(PhaseOf(s, a)) && c.id < s.nextId
    requires step == Fetch(a) || step == Discard(a) || step == ReadNext(a) || step == Settle(a) || step == Begin(a)
      || step == Purge(a) || step == RemoveParent(a) || step == Finish(a) || step == Pop(a) || step == Loop(a)
    ensures Shrinks(s, Apply(s, step), c)
  {
    hide Resolve, FoldOn, Output, Discarded, Without, Filter, RowsOf;
    var p, t := PhaseOf(s, a), Apply(s, step);
    HolderIs(s, a);
    if p.Arbitrating? {
      DrainSafety.ReadKeepsPlan(p);
    }
    assert t.lock == Some(a) ==> Holder(t) == PhaseOf(t, a);
  }

  lemma NotHolder(s: State, step: Step, c: Row)
    requires LockInv(s) && ByActor(step) && !Holds(PhaseOf(s, step.a))
    ensures Shrinks(s, Apply(s, step), c)
  {
    hide Resolve, FoldOn, Output, Discarded, Without, Filter, RowsOf, Batch;
    var t := Apply(s, step);
    if t.lock == Some(step.a) {
      assert Holder(t) == PhaseOf(t, step.a);
    } else {
      assert s.lock != Some(step.a);
      assert Holder(t) == Holder(s);
    }
    SameHolder(s, t, c);
  }

  /** A step that takes or frees the lock, or leads up to that. */
  predicate LockStep(step: Step) {
    step.Crash? || step.Dispatch? || step.EndProbe? || step.Decline? || step.Submit? || step.Acquire? || step.Load?
  }

  lemma StepShrinks(s: State, step: Step, c: Row)
    requires LockInv(s) && c.id < s.nextId
    ensures Shrinks(s, Apply(s, step), c)
  {
    hide Apply, Shrinks, LockInv;
    if !ByActor(step) {
      PushShrinks(s, step, c);
    } else if !Holds(PhaseOf(s, step.a)) {
      NotHolder(s, step, c);
    } else if LockStep(step) {
      LockStepShrinks(s, step, c);
    } else {
      WorkerShrinks(s, step, step.a, c);
    }
  }

  lemma PushShrinks(s: State, step: Step, c: Row)
    requires !ByActor(step)
    ensures Shrinks(s, Apply(s, step), c)
  {
    SameHolder(s, Apply(s, step), c);
  }

  lemma LockStepShrinks(s: State, step: Step, c: Row)
    requires LockInv(s) && ByActor(step) && Holds(PhaseOf(s, step.a))
    requires LockStep(step)
    ensures Shrinks(s, Apply(s, step), c)
  {
    HolderIs(s, step.a);
    SameHolder(s, Apply(s, step), c);
  }

  /** Still waiting with no Delete ahead, or reached. */
  ghost predicate Clear(s: State, n: nat, c: Row) {
    c in s.committed && ((exists k | 0 <= k <= 2 :: Reached(s, n, c, k)) || (Waiting(s, n, c) && Spared(s, c)))
  }

  lemma ClearStep(s: State, step: Step, n: nat, c: Row)
    requires Inv(s) && Clear(s, n, c) && IsBarrier(c.request)
    ensures Clear(Apply(s, step), n, c)
  {
    hide LockInv, PhaseInv, TableInv, OrderInv, CountInv, FateInv, Waiting, Reached, Apply, Spared;
    var t := Apply(s, step);
    HistoryGrows(s, step);
    if exists k | 0 <= k <= 2 :: Reached(s, n, c, k) {
      SameHistory(s, t, n, c);
    } else {
      CommittedIds(s, c);
      StepShrinks(s, step, c);
      SparedThen(s, t, c);
      ClearWaits(s, step, n, c);
    }
  }

  lemma CommittedIds(s: State, c: Row)
    requires TableInv(s) && c in s.committed
    ensures c.id < s.nextId
  {
  }

  lemma ClearWaits(s: State, step: Step, n: nat, c: Row)
    requires Inv(s) && Waiting(s, n, c) && Spared(s, c) && c in s.committed && IsBarrier(c.request)
    ensures var t := Apply(s, step);
      (exists k | 0 <= k <= 2 :: Reached(t, n, c, k)) || Waiting(t, n, c)
  {
    hide LockInv, PhaseInv, OrderInv, CountInv, FateInv, Waiting, Reached, Spared;
    var t := Apply(s, step);
    if t != s {
      match step
      case Push(request, requestId) => PushWaits(s, request, requestId, n, c);
      case DrawId => WaitIdle(s, t, n, c);
      case Fetch(a) => WaitFetch(s, n, c, a);
      case Discard(a) => WaitDiscard(s, n, c, a);
      case ReadNext(a) => WaitRead(s, n, c, a);
      case Settle(a) => WaitSettle(s, n, c, a);
      case Begin(a) => WaitBegin(s, n, c, a);
      case Purge(a) => NoPurge(s, n, c, a);
      case RemoveParent(a) => WaitServe(s, t, n, c, a);
      case Finish(a) => WaitServe(s, t, n, c, a);
      case Pop(a) => WaitPop(s, n, c, a);
      case Loop(a) => WaitLoop(s, n, c, a);
      case Crash(a) => WaitCrash(s, n, c, a);
      case _ => WaitOutside(s, step, n, c);
    }
  }

  /** A purge cannot come while waiting: the Delete behind it would have been fetched before `c`. */
  lemma NoPurge(s: State, n: nat, c: Row, a: nat)
    requires Inv(s) && Waiting(s, n, c) && Spared(s, c)
    ensures !(PhaseOf(s, a).Running? && PhaseOf(s, a).req.request == Delete)
  {
    hide PhaseInv, TableInv, OrderInv, CountInv, FateInv;
    if PhaseOf(s, a).Running? {
      HolderIs(s, a);
      assert PhaseOf(s, a).req in Batch(PhaseOf(s, a));
    }
  }

  lemma {:induction false} ClearRun(s: State, steps: seq<Step>, n: nat, c: Row)
    requires Inv(s) && Clear(s, n, c) && IsBarrier(c.request)
    ensures Clear(Exec(s, steps), n, c)
  {
    hide Inv, Clear, Apply;
    if steps != [] {
      var last := |steps| - 1;
      ClearRun(s, steps[..last], n, c);
      ExecInv(s, steps[..last]);
      ClearStep(Exec(s, steps[..last]), steps[last], n, c);
    }
  }

  lemma ClearMeans(t: State, n: nat, c: Row)
    requires Inv(t) && Clear(t, n, c)
    ensures Served(t, n, c)
  {
    hide LockInv, PhaseInv, TableInv, OrderInv, CountInv, FateInv, Spared;
    if Waiting(t, n, c) {
      assert ServedAfter(t, n, c, |t.log| - n);
    } else {
      var k :| 0 <= k <= 2 && Reached(t, n, c, k);
      assert ServedAfter(t, n, c, k);
    }
  }

  lemma ClearStarts(s: State, request: Request, requestId: string)
    requires Inv(s) && s.parentExists && IsBarrier(request) && !DeleteFetched(s)
    ensures Clear(PushRow(s, request, requestId), |s.log|, Row(s.nextId, s.parentId, request, requestId))
  {
    hide CountInv, FateInv, Batch, HasDelete;
    var t := PushRow(s, request, requestId);
    var c := Row(s.nextId, s.parentId, request, requestId);
    assert Holder(t) == Holder(s);
    assert t.queue[|s.queue|] == c;
    assert t.committed[|s.committed|] == c;
    assert Waiting(t, |s.log|, c);
  }

  // ------------------------------------------------- a Delete fetched: it fails

  /** On the way to the fetched Delete: nothing but that fetch has been started from. */
  ghost predicate OnTheWay(u: State, a: nat, c: Row, n: nat) {
    var p := PhaseOf(u, a);
    && u.parentExists && Fetched(p) && p.mark <= c.id < u.nextId && HasDelete(Batch(p))
    && n <= |u.log| == |u.marks| && forall i | n <= i < |u.marks| :: u.marks[i] <= c.id
  }

  predicate AtDelete(p: Phase) { p.Running? && p.req.request == Delete }

  function NextStep(p: Phase, a: nat): Step {
    if p.Arbitrating? then (if p.victims != [] then Discard(a) else if p.rest != [] then ReadNext(a) else Settle(a))
    else if p.Serving? then Begin(a)
    else if p.Running? then Finish(a)
    else Pop(a)
  }

  function Rank(p: Phase): nat {
    match p
    case Arbitrating(_, _, _, _) => 100
    case Serving(_, todo) => 4 * |todo| + 2
    case Running(_, _, todo) => 4 * |todo| + 5
    case Popping(_, _, todo) => 4 * |todo| + 4
    case _ => 0
  }

  function RestOf(p: Phase): nat { if p.Arbitrating? then |p.rest| else 0 }

  function VictimsOf(p: Phase): nat { if p.Arbitrating? then |p.victims| else 0 }

  lemma MarksSnoc(marks: seq<nat>, mark: nat, n: nat, limit: nat)
    requires n <= |marks| && mark <= limit && forall i | n <= i < |marks| :: marks[i] <= limit
    ensures forall i | n <= i < |marks + [mark]| :: (marks + [mark])[i] <= limit
  {
  }

  /** While the rows are read nothing starts, and the plan stands. */
  lemma ReadingOnTheWay(u: State, a: nat, c: Row, n: nat)
    requires OnTheWay(u, a, c, n) && PhaseOf(u, a).Arbitrating?
    ensures var t := Apply(u, NextStep(PhaseOf(u, a), a));
      && OnTheWay(t, a, c, n) && t.failedDeletes == u.failedDeletes
      && (PhaseOf(t, a).Serving?
          || (PhaseOf(t, a).Arbitrating? && (RestOf(PhaseOf(t, a)) < RestOf(PhaseOf(u, a))
              || (RestOf(PhaseOf(t, a)) == RestOf(PhaseOf(u, a))
                  && VictimsOf(PhaseOf(t, a)) < VictimsOf(PhaseOf(u, a))))))
  {
    hide Resolve, FoldOn, Output, Discarded, Without, HasDelete;
    DrainSafety.ReadKeepsPlan(PhaseOf(u, a));
  }

  lemma ServingOnTheWay(u: State, a: nat, c: Row, n: nat)
    requires OnTheWay(u, a, c, n) && !PhaseOf(u, a).Arbitrating? && !AtDelete(PhaseOf(u, a)) && !PhaseOf(u, a).Purged?
    ensures var t := Apply(u, NextStep(PhaseOf(u, a), a));
      && OnTheWay(t, a, c, n) && !PhaseOf(t, a).Arbitrating? && !PhaseOf(t, a).Purged?
      && Rank(PhaseOf(t, a)) < Rank(PhaseOf(u, a)) && t.failedDeletes == u.failedDeletes
  {
    hide Filter;
    var p := PhaseOf(u, a);
    MarksSnoc(u.marks, p.mark, n, c.id);
    if p.Serving? {
      assert [p.todo[0]] + p.todo[1..] == p.todo;
    }
  }

  lemma PurgedHasNothing(u: State, a: nat)
    requires Inv(u) && PhaseOf(u, a).Purged?
    ensures Batch(PhaseOf(u, a)) == []
  {
    HolderIs(u, a);
  }

  /** Left alone, the worker comes to the Delete it has fetched. */
  lemma {:induction false} ComesToTheDelete(s: State, steps: seq<Step>, a: nat, c: Row, n: nat)
    returns (more: seq<Step>)
    requires Inv(s) && OnTheWay(Exec(s, steps), a, c, n)
    ensures OnTheWay(Exec(s, more), a, c, n) && AtDelete(PhaseOf(Exec(s, more), a))
    ensures Exec(s, more).failedDeletes == Exec(s, steps).failedDeletes
    decreases Rank(PhaseOf(Exec(s, steps), a)), RestOf(PhaseOf(Exec(s, steps), a)),
        VictimsOf(PhaseOf(Exec(s, steps), a))
  {
    hide Inv, Apply, NextStep, Exec, OnTheWay;
    var u := Exec(s, steps);
    var p := PhaseOf(u, a);
    ExecInv(s, steps);
    if AtDelete(p) {
      more := steps;
    } else {
      WhereItIs(u, a, c, n);
      ExecSnoc(s, steps, NextStep(p, a));
      if p.Arbitrating? {
        ReadingOnTheWay(u, a, c, n);
        TwoAtMost(s, steps, NextStep(p, a), a);
      } else {
        ServingOnTheWay(u, a, c, n);
      }
      more := ComesToTheDelete(s, steps + [NextStep(p, a)], a, c, n);
    }
  }

  lemma WhereItIs(u: State, a: nat, c: Row, n: nat)
    requires Inv(u) && OnTheWay(u, a, c, n)
    ensures !PhaseOf(u, a).Purged?
  {
    if PhaseOf(u, a).Purged? {
      PurgedHasNothing(u, a);
    }
  }

  lemma TwoAtMost(s: State, steps: seq<Step>, step: Step, a: nat)
    requires Inv(s)
    ensures var p := PhaseOf(Exec(s, steps + [step]), a);
      p.Serving? ==> Rank(p) < 100
  {
    hide Apply, Exec, OrderInv, CountInv, FateInv, TableInv;
    var t := Exec(s, steps + [step]);
    ExecInv(s, steps + [step]);
    if PhaseOf(t, a).Serving? {
      HolderIs(t, a);
    }
  }

  /** From a running Delete: the purge, a Restart pushed behind it, and that is what is started next. */
  lemma PurgeAndRestart(v: State, a: nat) returns (steps: seq<Step>)
    requires Inv(v) && v.parentExists && AtDelete(PhaseOf(v, a))
    ensures var t := Exec(v, steps);
      && t.log == v.log + [Row(v.nextId, v.parentId, Restart, "")] && t.marks == v.marks + [v.nextId + 1]
      && t.failedDeletes == v.failedDeletes
  {
    hide Inv, PushRow, PurgeQueue, RemoveActivation, PopRows, LoopAgain, FetchRows, BeginRequest, Exec;
    PurgeEmpties(v, a);
    var s1 := PurgeQueue(v, a);
    var s2, s3, s4, s5, s6 := DeletionFinality.WindowPushRuns(s1, a);
    steps := [Purge(a), Push(Restart, ""), RemoveParent(a), Pop(a), Loop(a), Fetch(a), Begin(a)];
    DeletionFinality.SevenSteps(v, steps, s1, s2, s3, s4, s5, s6);
  }

  lemma PurgeEmpties(v: State, a: nat)
    requires Inv(v) && v.parentExists && AtDelete(PhaseOf(v, a))
    ensures var t := PurgeQueue(v, a);
      && t.parentExists && t.queue == [] && t.log == v.log && t.marks == v.marks && t.nextId == v.nextId
      && t.parentId == v.parentId && t.failedDeletes == v.failedDeletes
      && PhaseOf(t, a).Purged? && PhaseOf(t, a).todo == [] && PhaseOf(t, a).req.id < t.nextId
  {
    hide CountInv, FateInv;
    HolderIs(v, a);
    var p := PhaseOf(v, a);
    assert p.req in [p.req] + p.todo && ([p.req] + p.todo)[0] == p.req;
  }

  /** A start that is no barrier came first among the later fetches. */
  lemma NotServed(v: State, t: State, n: nat, c: Row, row: Row, mark: nat)
    requires n <= |v.log| == |v.marks| && forall i | n <= i < |v.marks| :: v.marks[i] <= c.id
    requires t.log == v.log + [row] && t.marks == v.marks + [mark] && !IsBarrier(row.request) && c.id < mark
    ensures !Served(t, n, c)
  {
    assert t.marks[|v.log|] == mark && t.log[|v.log|] == row;
    forall k: nat | k <= 2 ensures !ServedAfter(t, n, c, k) {
      assert n + k < |v.log| ==> t.marks[n + k] <= c.id;
    }
  }

  lemma BypassFails(s: State, request: Request, requestId: string) returns (steps: seq<Step>)
    requires Inv(s) && s.parentExists && IsBarrier(request) && DeleteFetched(s)
    ensures !Served(Exec(PushRow(s, request, requestId), steps), |s.log|, Row(s.nextId, s.parentId, request, requestId))
  {
    hide LockInv, TableInv, PhaseInv, OrderInv, CountInv, FateInv, Exec, HasDelete, Served;
    var s1 := PushRow(s, request, requestId);
    var c := Row(s.nextId, s.parentId, request, requestId);
    PushInv(s, request, requestId);
    var a := DeleteHolder(s, request, requestId);
    NoSteps(s1);
    var first := ComesToTheDelete(s1, [], a, c, |s.log|);
    var v := Exec(s1, first);
    ExecInv(s1, first);
    var second := PurgeAndRestart(v, a);
    steps := first + second;
    ExecConcat(s1, first, second);
    NotServed(v, Exec(v, second), |s.log|, c, Row(v.nextId, v.parentId, Restart, ""), v.nextId + 1);
  }

  lemma DeleteHolder(s: State, request: Request, requestId: string) returns (a: nat)
    requires Inv(s) && s.parentExists && DeleteFetched(s)
    ensures OnTheWay(PushRow(s, request, requestId), a, Row(s.nextId, s.parentId, request, requestId), |s.log|)
  {
    hide CountInv, FateInv, Upto;
    var p := Holder(s);
    assert Fetched(p) by { assert Batch(p) != [] || !HasDelete([]); }
    a := s.lock.value;
    assert PhaseOf(PushRow(s, request, requestId), a) == p;
  }

  /**
   Bounded bypass holds in every run exactly when, at the commit, no worker has a fetched Delete
   still to work off.
   */
  lemma BoundedBypassIff(s: State, request: Request, requestId: string)
    requires Inv(s) && s.parentExists && IsBarrier(request)
    ensures var c, s1 := Row(s.nextId, s.parentId, request, requestId), PushRow(s, request, requestId);
      (forall steps :: Served(Exec(s1, steps), |s.log|, c)) <==> !DeleteFetched(s)
  {
    hide LockInv, TableInv, PhaseInv, OrderInv, CountInv, FateInv, DeleteFetched, Served, Clear, Exec;
    var c, s1 := Row(s.nextId, s.parentId, request, requestId), PushRow(s, request, requestId);
    PushInv(s, request, requestId);
    if DeleteFetched(s) {
      var steps := BypassFails(s, request, requestId);
    } else {
      ClearStarts(s, request, requestId);
      forall steps ensures Served(Exec(s1, steps), |s.log|, c) {
        ClearRun(s1, steps, |s.log|, c);
        ExecInv(s1, steps);
        ClearMeans(Exec(s1, steps), |s.log|, c);
      }
    }
  }
}
