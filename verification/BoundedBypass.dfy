/** How soon a Stop or Delete is served once it is committed, in every run. */
module BoundedBypass {
  import opened Common
  import opened Arbitration
  import opened DrainProtocol

  ghost predicate HasBarrier(rows: seq<Row>) { exists i :: 0 <= i < |rows| && IsBarrier(rows[i].request) }

  /** The fetch behind a phase, if there is one. */
  predicate Fetched(p: Phase) { p.Arbitrating? || p.Serving? || Serves(p) }

  /** How many requests of its fetch a phase may still start. */
  function Budget(p: Phase): nat {
    if p.Arbitrating? then 2 else if p.Serving? || Serves(p) then |p.todo| else 0
  }

  /** No start since the commit of `c` but from earlier fetches, and few enough of those. */
  ghost predicate Waiting(s: State, n: nat, c: Row) {
    && n <= |s.log| == |s.marks| && (forall i | n <= i < |s.log| :: s.marks[i] <= c.id)
    && var p := Holder(s);
      if Fetched(p) && p.mark <= c.id then c in s.queue && |s.log| - n + Budget(p) <= 2
      else |s.log| - n <= 2 && match p
        case Arbitrating(_, fold, rest, _) => HasBarrier(Output(fold) + rest)
        case Serving(_, todo) => todo != [] && IsBarrier(todo[0].request)
        case _ => !Serves(p) && HasBarrier(s.queue)
  }

  /** After `k` starts from earlier fetches came a Stop or Delete from a later one. */
  ghost predicate Reached(s: State, n: nat, c: Row, k: nat) {
    && n + k < |s.log| == |s.marks| && (forall i | n <= i < n + k :: s.marks[i] <= c.id)
    && c.id < s.marks[n + k] && IsBarrier(s.log[n + k].request)
  }

  ghost predicate Bypass(s: State, n: nat, c: Row) {
    c in s.committed && (c in s.purged || (exists k | 0 <= k <= 2 :: Reached(s, n, c, k)) || Waiting(s, n, c))
  }

  lemma BarrierStays(fold: Fold, row: Row, rest: seq<Row>)
    requires Normal(fold) && HasBarrier(Output(fold) + ([row] + rest))
    ensures HasBarrier(Output(Resolve(fold, row)) + rest)
  {
    var i :| 0 <= i < |Output(fold) + ([row] + rest)| && IsBarrier((Output(fold) + ([row] + rest))[i].request);
    var next := Resolve(fold, row);
    var k := |Output(fold)|;
    var all := Output(next) + rest;
    if i > k {
      assert IsBarrier(all[i - k - 1 + |Output(next)|].request);
    } else if IsBarrier(next.ref.request) {
      assert all[|next.qualified|] == next.ref;
    } else {
      assert next.qualified != [] && IsBarrier(all[0].request);
    }
  }

  lemma BarrierFirst(fold: Fold)
    requires Normal(fold) && HasBarrier(Output(fold))
    ensures IsBarrier(Output(fold)[0].request)
  {
  }

  lemma BarrierIn(part: seq<Row>, whole: seq<Row>)
    requires HasBarrier(part) && forall r | r in part :: r in whole
    ensures HasBarrier(whole)
  {
    var i :| 0 <= i < |part| && IsBarrier(part[i].request);
    assert part[i] in whole;
  }

  lemma SameHistory(s: State, t: State, n: nat, c: Row)
    requires (exists k | 0 <= k <= 2 :: Reached(s, n, c, k)) && s.log <= t.log && s.marks <= t.marks
    requires |t.log| == |t.marks|
    ensures exists k | 0 <= k <= 2 :: Reached(t, n, c, k)
  {
    var k :| 0 <= k <= 2 && Reached(s, n, c, k);
    assert Reached(t, n, c, k);
  }

  /** The log and the other histories only grow. */
  lemma HistoryGrows(s: State, step: Step)
    requires Inv(s)
    ensures var t := Apply(s, step);
      s.log <= t.log && s.marks <= t.marks && |t.log| == |t.marks| && s.purged <= t.purged && s.committed <= t.committed
  {
    hide TableInv, PhaseInv, CountInv, FateInv, LockInv;
  }

  // ----------------------------------------------- one step of whoever waits

  /** The queue still has a barrier when a worker lets go of an unfinished fetch. */
  lemma LetGo(s: State, n: nat, c: Row)
    requires Inv(s) && Waiting(s, n, c) && IsBarrier(c.request)
    ensures |s.log| - n <= 2 && HasBarrier(s.queue)
  {
    hide OrderInv, CountInv, FateInv, TableInv;
    var p := Holder(s);
    if Fetched(p) && p.mark <= c.id {
      BarrierIn([c], s.queue) by { assert [c][0] == c; }
    } else if p.Arbitrating? {
      BarrierIn(Output(p.fold) + p.rest, s.queue) by {
        assert forall r | r in Output(p.fold) + p.rest :: r in Left(p.fold, p.victims) + p.rest;
      }
    } else if p.Serving? {
      BarrierIn(p.todo, s.queue) by { assert IsBarrier(p.todo[0].request); }
    }
  }

  /** Nothing started, the lock free or in the hands of someone without a fetch, the queue as it was. */
  lemma WaitUnfetched(s: State, t: State, n: nat, c: Row)
    requires Inv(s) && Waiting(s, n, c) && IsBarrier(c.request)
    requires t.queue == s.queue && t.log == s.log && t.marks == s.marks && !Fetched(Holder(t))
    ensures Waiting(t, n, c)
  {
    LetGo(s, n, c);
  }

  lemma WaitIdle(s: State, t: State, n: nat, c: Row)
    requires Waiting(s, n, c) && t == NextId(s)
    ensures Waiting(t, n, c)
  {
    assert Holder(t) == Holder(s);
  }

  lemma WaitPush(s: State, t: State, n: nat, c: Row, row: Row)
    requires Waiting(s, n, c)
    requires t.queue == s.queue + [row] && t.log == s.log && t.marks == s.marks && Holder(t) == Holder(s)
    ensures Waiting(t, n, c)
  {
    if HasBarrier(s.queue) {
      BarrierIn(s.queue, t.queue);
    }
  }

  lemma WaitFetch(s: State, n: nat, c: Row, a: nat)
    requires Inv(s) && Waiting(s, n, c) && IsBarrier(c.request) && c.id < s.nextId && PhaseOf(s, a).Head?
    ensures Waiting(FetchRows(s, a), n, c)
  {
    hide OrderInv, CountInv, FateInv, TableInv;
    var t := FetchRows(s, a);
    HolderIs(s, a);
    assert HasBarrier(s.queue);
    assert s.queue == [] + [s.queue[0]] + s.queue[1..];
    assert Holder(t) == PhaseOf(t, a);
  }

  lemma WaitDiscard(s: State, n: nat, c: Row, a: nat)
    requires Inv(s) && Waiting(s, n, c) && PhaseOf(s, a).Arbitrating? && PhaseOf(s, a).victims != []
    ensures Waiting(DiscardVictim(s, a), n, c)
  {
    hide OrderInv, CountInv, FateInv, TableInv;
    var p := PhaseOf(s, a);
    HolderMoves(s, DiscardVictim(s, a), a, p.(victims := p.victims[1..]));
    if p.mark <= c.id {
      assert p.victims[0] in Left(p.fold, p.victims) + p.rest;
      FilterIn(s.queue, IdIsNot(p.victims[0].id), c);
    }
  }

  lemma WaitRead(s: State, n: nat, c: Row, a: nat)
    requires Inv(s) && Waiting(s, n, c)
    requires PhaseOf(s, a).Arbitrating? && PhaseOf(s, a).victims == [] && PhaseOf(s, a).rest != []
    ensures Waiting(ReadRow(s, a), n, c)
  {
    hide OrderInv, CountInv, FateInv, TableInv;
    var p := PhaseOf(s, a);
    HolderMoves(s, ReadRow(s, a), a, PhaseOf(ReadRow(s, a), a));
    if c.id < p.mark {
      assert p.rest == [p.rest[0]] + p.rest[1..];
      BarrierStays(p.fold, p.rest[0], p.rest[1..]);
    }
  }

  lemma WaitSettle(s: State, n: nat, c: Row, a: nat)
    requires Inv(s) && Waiting(s, n, c)
    requires PhaseOf(s, a).Arbitrating? && PhaseOf(s, a).victims == [] && PhaseOf(s, a).rest == []
    ensures Waiting(EndFetch(s, a), n, c)
  {
    hide OrderInv, CountInv, FateInv, TableInv;
    var p := PhaseOf(s, a);
    HolderMoves(s, EndFetch(s, a), a, PhaseOf(EndFetch(s, a), a));
    if c.id < p.mark {
      assert Output(p.fold) + p.rest == Output(p.fold);
      BarrierFirst(p.fold);
    }
  }

  lemma WaitBegin(s: State, n: nat, c: Row, a: nat)
    requires Inv(s) && Waiting(s, n, c) && PhaseOf(s, a).Serving? && PhaseOf(s, a).todo != []
    ensures Waiting(BeginRequest(s, a), n, c) || Reached(BeginRequest(s, a), n, c, |s.log| - n)
    ensures n <= |s.log| <= n + 2
  {
    hide CountInv, FateInv, TableInv, OrderInv, PhaseInv;
    HolderMoves(s, BeginRequest(s, a), a, PhaseOf(BeginRequest(s, a), a));
  }

  /** From the manager call to the end of the for loop. */
  lemma WaitServe(s: State, t: State, n: nat, c: Row, a: nat)
    requires Inv(s) && Waiting(s, n, c) && (PhaseOf(s, a).Running? || PhaseOf(s, a).Purged?)
    requires t == RemoveActivation(s, a) || t == EndRequest(s, a)
    ensures Waiting(t, n, c)
  {
    hide OrderInv, CountInv, FateInv, TableInv, PhaseInv;
    if t != s {
      HolderMoves(s, t, a, PhaseOf(t, a));
    }
  }

  lemma WaitPop(s: State, n: nat, c: Row, a: nat)
    requires Inv(s) && Waiting(s, n, c) && PhaseOf(s, a).Popping?
    ensures Waiting(PopRows(s, a), n, c)
  {
    hide OrderInv, CountInv, FateInv, TableInv, PhaseInv;
    var p, t := PhaseOf(s, a), PopRows(s, a);
    HolderMoves(s, t, a, PhaseOf(t, a));
    PopKeepsOthers(s, p);
    assert p.mark <= c.id ==> c in s.queue && p.req != c;
  }

  lemma PopKeepsOthers(s: State, p: Phase)
    requires TableInv(s) && p.Popping? && PhaseInv(s, p)
    ensures forall r: Row :: r in Filter(s.queue, NotPopped(s.parentId, p.req.id)) <==> r in s.queue && r != p.req
    ensures p.req.id < p.mark
  {
    PopExact(s, p);
    if p.req in s.queue {
      TailOf(s.queue, p.req);
    }
  }

  lemma WaitPurge(s: State, n: nat, c: Row, a: nat)
    requires Inv(s) && Waiting(s, n, c) && PhaseOf(s, a).Running? && PhaseOf(s, a).req.request == Delete
    ensures c in PurgeQueue(s, a).purged
  {
    hide OrderInv, CountInv, FateInv, TableInv;
    var p := PhaseOf(s, a);
    HolderIs(s, a);
    assert p.req in [p.req] + p.todo;
  }

  lemma WaitLoop(s: State, n: nat, c: Row, a: nat)
    requires Inv(s) && Waiting(s, n, c) && IsBarrier(c.request) && PhaseOf(s, a).Serving? && PhaseOf(s, a).todo == []
    ensures Waiting(LoopAgain(s, a), n, c)
  {
    hide OrderInv, CountInv, FateInv, TableInv, PhaseInv;
    HolderMoves(s, LoopAgain(s, a), a, Head);
    WaitUnfetched(s, LoopAgain(s, a), n, c);
  }

  lemma WaitCrash(s: State, n: nat, c: Row, a: nat)
    requires Inv(s) && Waiting(s, n, c) && IsBarrier(c.request)
    ensures Waiting(CrashActor(s, a), n, c)
  {
    hide OrderInv, CountInv, FateInv, TableInv, PhaseInv;
    var t := CrashActor(s, a);
    if s.lock == Some(a) {
      WaitUnfetched(s, t, n, c);
    } else {
      assert Holder(t) == Holder(s);
    }
  }

  lemma WaitOutside(s: State, step: Step, n: nat, c: Row)
    requires Inv(s) && Waiting(s, n, c) && IsBarrier(c.request)
    requires step.Dispatch? || step.EndProbe? || step.Decline? || step.Submit? || step.Acquire? || step.Load?
    ensures Waiting(Apply(s, step), n, c)
  {
    hide OrderInv, CountInv, FateInv, TableInv, PhaseInv;
    var a, t := step.a, Apply(s, step);
    assert Holds(PhaseOf(s, a)) <==> s.lock == Some(a);
    if t == s {
    } else if t.lock == s.lock && s.lock != Some(a) {
      assert Holder(t) == Holder(s);
    } else {
      assert t.lock == Some(a) ==> Holder(t) == PhaseOf(t, a);
      WaitUnfetched(s, t, n, c);
    }
  }

  lemma BypassStep(s: State, step: Step, n: nat, c: Row)
    requires Inv(s) && Bypass(s, n, c) && IsBarrier(c.request)
    ensures Bypass(Apply(s, step), n, c)
  {
    hide LockInv, PhaseInv, TableInv, OrderInv, CountInv, FateInv, Waiting, Reached, Apply;
    var t := Apply(s, step);
    HistoryGrows(s, step);
    if c in s.purged {
    } else if exists k | 0 <= k <= 2 :: Reached(s, n, c, k) {
      SameHistory(s, t, n, c);
    } else {
      WaitStep(s, step, n, c);
    }
  }

  lemma WaitStep(s: State, step: Step, n: nat, c: Row)
    requires Inv(s) && Waiting(s, n, c) && c in s.committed && IsBarrier(c.request)
    ensures var t := Apply(s, step);
      c in t.purged || (exists k | 0 <= k <= 2 :: Reached(t, n, c, k)) || Waiting(t, n, c)
  {
    hide LockInv, PhaseInv, OrderInv, CountInv, FateInv, Waiting, Reached;
    var t := Apply(s, step);
    if t != s {
      match step
      case Push(request, requestId) =>
        PushWaits(s, request, requestId, n, c);
      case DrawId => WaitIdle(s, t, n, c);
      case Fetch(a) => WaitFetch(s, n, c, a);
      case Discard(a) => WaitDiscard(s, n, c, a);
      case ReadNext(a) => WaitRead(s, n, c, a);
      case Settle(a) => WaitSettle(s, n, c, a);
      case Begin(a) => WaitBegin(s, n, c, a);
      case Purge(a) => WaitPurge(s, n, c, a);
      case RemoveParent(a) => WaitServe(s, t, n, c, a);
      case Finish(a) => WaitServe(s, t, n, c, a);
      case Pop(a) => WaitPop(s, n, c, a);
      case Loop(a) => WaitLoop(s, n, c, a);
      case Crash(a) => WaitCrash(s, n, c, a);
      case _ => WaitOutside(s, step, n, c);
    }
  }

  lemma PushWaits(s: State, request: Request, requestId: string, n: nat, c: Row)
    requires Waiting(s, n, c)
    ensures Waiting(PushRow(s, request, requestId), n, c)
  {
    var t := PushRow(s, request, requestId);
    assert Holder(t) == Holder(s);
    if s.parentExists {
      WaitPush(s, t, n, c, Row(s.nextId, s.parentId, request, requestId));
    }
  }

  lemma {:induction false} BypassRun(s: State, steps: seq<Step>, n: nat, c: Row)
    requires Inv(s) && Bypass(s, n, c) && IsBarrier(c.request)
    ensures Bypass(Exec(s, steps), n, c)
  {
    hide Inv, Bypass, Apply;
    if steps != [] {
      var last := |steps| - 1;
      BypassRun(s, steps[..last], n, c);
      ExecInv(s, steps[..last]);
      BypassStep(Exec(s, steps[..last]), steps[last], n, c);
    }
  }

  lemma BypassStarts(s: State, request: Request, requestId: string)
    requires Inv(s) && s.parentExists && IsBarrier(request)
    ensures var c := Row(s.nextId, s.parentId, request, requestId);
      Bypass(PushRow(s, request, requestId), |s.log|, c)
  {
    hide CountInv, FateInv;
    var t := PushRow(s, request, requestId);
    var c := Row(s.nextId, s.parentId, request, requestId);
    assert Holder(t) == Holder(s);
    assert t.queue[|s.queue|] == c;
    assert t.committed[|s.committed|] == c;
    assert Waiting(t, |s.log|, c);
  }

  /**
   Bounded bypass. A Stop or Delete `c` is committed in any state that satisfies the
   invariant, and then anything happens, crashes included. Unless a deletion already
   under way takes `c` with it, at most two requests are started from fetches made
   before the commit, and the next one started after them is a Stop or a Delete
   from a fetch made after it.
   */
  lemma BoundedBypass(s: State, request: Request, requestId: string, steps: seq<Step>)
    requires Inv(s) && s.parentExists && IsBarrier(request)
    ensures var c := Row(s.nextId, s.parentId, request, requestId);
      var t := Exec(PushRow(s, request, requestId), steps);
      c in t.purged || exists k: nat | k <= 2 :: ServedAfter(t, |s.log|, c, k)
  {
    var c := Row(s.nextId, s.parentId, request, requestId);
    var s1 := PushRow(s, request, requestId);
    var t := Exec(s1, steps);
    BypassStarts(s, request, requestId);
    PushInv(s, request, requestId);
    BypassRun(s1, steps, |s.log|, c);
    ExecInv(s1, steps);
    BypassMeans(t, |s.log|, c);
  }

  /**
   The first `k` starts since start number `n` come from fetches before `c`; then nothing yet, or
   a barrier from a later fetch.
   */
  ghost predicate ServedAfter(t: State, n: nat, c: Row, k: nat) {
    && n + k <= |t.log| == |t.marks|
    && (forall i | n <= i < n + k :: t.marks[i] <= c.id)
    && (n + k < |t.log| ==> c.id < t.marks[n + k] && IsBarrier(t.log[n + k].request))
  }

  lemma BypassMeans(t: State, n: nat, c: Row)
    requires Inv(t) && Bypass(t, n, c)
    ensures c in t.purged || exists k: nat | k <= 2 :: ServedAfter(t, n, c, k)
  {
    hide LockInv, PhaseInv, TableInv, OrderInv, CountInv, FateInv;
    if c !in t.purged {
      if Waiting(t, n, c) {
        assert ServedAfter(t, n, c, |t.log| - n);
      } else {
        var k :| 0 <= k <= 2 && Reached(t, n, c, k);
        assert ServedAfter(t, n, c, k);
      }
    }
  }
}
