/**
 How the steps of the worker's loop on the request table are steps of the protocol.
 A protocol state mirrors the table when it shows the rows of its activation, and the
 history of what was started.
 */
module LoopSteps {
  import opened Arbitration
  import opened DrainProtocol
  import DrainSafety

  ghost predicate Mirror(s: State, rows: seq<Row>, nextId: nat, alive: bool, parentId: nat, log: seq<Row>) {
    && Inv(s) && s.parentId == parentId && s.queue == Of(rows, parentId) && s.nextId == nextId
    && s.parentExists == alive && s.log == log
  }

  // ------------------------------------------------- pushes by others

  lemma OfSnoc(rows: seq<Row>, row: Row, parentId: nat)
    ensures Of(rows + [row], parentId) == Of(rows, parentId) + if row.parentId == parentId then [row] else []
  {
    FilterConcat(rows, [row], ParentIs(parentId));
    FilterOne(row, ParentIs(parentId));
  }

  /** A push for this activation; it is taken back when the activation is gone. */
  lemma MirrorOwnPush(s: State, rows: seq<Row>, nextId: nat, alive: bool, parentId: nat, log: seq<Row>,
                      request: Request)
    requires Mirror(s, rows, nextId, alive, parentId, log)
    ensures var row, t := Row(nextId, parentId, request, ""), Apply(s, Push(request, ""));
      && Mirror(t, if alive then rows + [row] else rows, nextId + 1, alive, parentId, log)
      && forall a: nat :: PhaseOf(t, a) == PhaseOf(s, a)
  {
    hide Inv;
    StepInv(s, Push(request, ""));
    OfSnoc(rows, Row(nextId, parentId, request, ""), parentId);
  }

  /** A push for another activation, whether it succeeds or not. */
  lemma MirrorOtherPush(s: State, rows: seq<Row>, nextId: nat, alive: bool, parentId: nat, log: seq<Row>, row: Row,
                        kept: bool)
    requires Mirror(s, rows, nextId, alive, parentId, log) && row.parentId != parentId
    ensures var t := Apply(s, DrawId);
      && Mirror(t, if kept then rows + [row] else rows, nextId + 1, alive, parentId, log)
      && forall a: nat :: PhaseOf(t, a) == PhaseOf(s, a)
  {
    hide Inv;
    StepInv(s, DrawId);
    OfSnoc(rows, row, parentId);
    assert Of(rows, parentId) + [] == Of(rows, parentId);
  }

  // ------------------------------------------------- a fetch in one go

  /** Nothing but the queue, the actors and the superseded rows changes. */
  ghost predicate FetchOnly(s: State, t: State) {
    t == s.(queue := t.queue, actors := t.actors, superseded := t.superseded)
  }

  function NextRead(p: Phase, a: nat): Step
    requires p.Arbitrating?
  {
    if p.victims != [] then Discard(a) else if p.rest != [] then ReadNext(a) else Settle(a)
  }

  lemma ReadStep(s: State, a: nat)
    requires PhaseOf(s, a).Arbitrating?
    ensures var p := PhaseOf(s, a);
      var t := Apply(s, NextRead(p, a));
      var q := PhaseOf(t, a);
      && FetchOnly(s, t)
      && (if p.victims != [] then q.Arbitrating? && q.rest == p.rest && |q.victims| < |p.victims| && q.mark == p.mark
                                  && DrainSafety.Plan(q) == DrainSafety.Plan(p)
          else if p.rest != [] then q.Arbitrating? && |q.rest| < |p.rest| && q.mark == p.mark
                                  && DrainSafety.Plan(q) == DrainSafety.Plan(p)
          else q == Serving(p.mark, DrainSafety.Plan(p)))
  {
    hide Resolve, FoldOn, Output, Discarded, Without;
    DrainSafety.ReadKeepsPlan(PhaseOf(s, a));
  }

  lemma {:induction false} ArbitrationRuns(s: State, steps: seq<Step>, a: nat) returns (more: seq<Step>)
    requires PhaseOf(Exec(s, steps), a).Arbitrating?
    ensures FetchOnly(Exec(s, steps), Exec(s, more))
    ensures PhaseOf(Exec(s, more), a)
         == Serving(PhaseOf(Exec(s, steps), a).mark, DrainSafety.Plan(PhaseOf(Exec(s, steps), a)))
    decreases |PhaseOf(Exec(s, steps), a).rest|, |PhaseOf(Exec(s, steps), a).victims|
  {
    hide Exec, Apply, DrainSafety.Plan;
    var p := PhaseOf(Exec(s, steps), a);
    ReadStep(Exec(s, steps), a);
    ExecSnoc(s, steps, NextRead(p, a));
    more := steps + [NextRead(p, a)];
    if PhaseOf(Exec(s, more), a).Arbitrating? {
      more := ArbitrationRuns(s, more, a);
    }
  }

  /** All that is queued was there at the fetch, so it is what the fetch serves. */
  lemma ServesAll(s: State, a: nat)
    requires Inv(s) && PhaseOf(s, a).Serving? && PhaseOf(s, a).mark == s.nextId
    ensures s.queue == PhaseOf(s, a).todo
  {
    hide OrderInv, CountInv, FateInv;
    HolderIs(s, a);
    var last := |s.queue| - 1;
    if last >= 0 {
      assert s.queue[last] in s.queue;
    }
  }

  /** A worker alone gets from the top of its loop to the fetched requests, or lets go of the lock if there are none. */
  lemma {:induction false} FetchRuns(s: State, a: nat) returns (more: seq<Step>)
    requires Inv(s) && PhaseOf(s, a).Head?
    ensures var t := Exec(s, more);
      && t.queue == Arbitrate(s.queue) && t.log == s.log && t.nextId == s.nextId
      && t.parentId == s.parentId && t.parentExists == s.parentExists
      && PhaseOf(t, a) == if s.queue == [] then Gone else Serving(s.nextId, Arbitrate(s.queue))
  {
    hide Inv, Exec, Apply;
    NoSteps(s);
    more := [] + [Fetch(a)];
    ExecSnoc(s, [], Fetch(a));
    FetchStep(s, a);
    if |s.queue| >= 2 {
      DrainSafety.FetchPlans(s, a);
      more := ArbitrationRuns(s, more, a);
    }
    if s.queue != [] {
      ExecInv(s, more);
      ServesAll(Exec(s, more), a);
    }
  }

  lemma FetchStep(s: State, a: nat)
    requires PhaseOf(s, a).Head?
    ensures var t := Apply(s, Fetch(a));
      && t == s.(actors := t.actors, lock := t.lock)
      && (s.queue == [] ==> PhaseOf(t, a) == Gone && Arbitrate(s.queue) == [])
      && (|s.queue| == 1 ==> PhaseOf(t, a) == Serving(s.nextId, s.queue) && Arbitrate(s.queue) == s.queue)
      && (|s.queue| >= 2 ==> PhaseOf(t, a).Arbitrating? && PhaseOf(t, a).mark == s.nextId && t == FetchRows(s, a))
  {
    if |s.queue| == 1 {
      assert s.queue[1..] == [] && [s.queue[0]] == s.queue;
    }
  }

  lemma MirrorFetch(s: State, rows: seq<Row>, now: seq<Row>, nextId: nat, alive: bool, parentId: nat, log: seq<Row>,
                    a: nat)
    returns (more: seq<Step>)
    requires Mirror(s, rows, nextId, alive, parentId, log) && PhaseOf(s, a).Head?
    requires Of(now, parentId) == Arbitrate(Of(rows, parentId))
    ensures var t := Exec(s, more);
      && Mirror(t, now, nextId, alive, parentId, log)
      && PhaseOf(t, a) == (if Of(rows, parentId) == [] then Gone else Serving(nextId, Of(now, parentId)))
  {
    hide Inv, Exec, Arbitrate;
    more := FetchRuns(s, a);
    ExecInv(s, more);
  }

  // ------------------------------------------------- one request

  lemma MirrorBegin(s: State, rows: seq<Row>, nextId: nat, alive: bool, parentId: nat, log: seq<Row>, a: nat)
    requires Mirror(s, rows, nextId, alive, parentId, log) && PhaseOf(s, a).Serving? && PhaseOf(s, a).todo != []
    ensures var p, t := PhaseOf(s, a), Apply(s, Begin(a));
      && Mirror(t, rows, nextId, alive, parentId, log + [p.todo[0]])
      && PhaseOf(t, a) == Running(p.mark, p.todo[0], p.todo[1..])
  {
    hide Inv;
    StepInv(s, Begin(a));
  }

  lemma MirrorFinish(s: State, rows: seq<Row>, nextId: nat, alive: bool, parentId: nat, log: seq<Row>, a: nat)
    requires Mirror(s, rows, nextId, alive, parentId, log) && (PhaseOf(s, a).Running? || PhaseOf(s, a).Purged?)
    ensures var p, t := PhaseOf(s, a), Apply(s, Finish(a));
      Mirror(t, rows, nextId, alive, parentId, log) && PhaseOf(t, a) == Popping(p.mark, p.req, p.todo)
  {
    hide Inv;
    StepInv(s, Finish(a));
  }

  lemma MirrorPurge(s: State, rows: seq<Row>, now: seq<Row>, nextId: nat, alive: bool, parentId: nat, log: seq<Row>,
                    a: nat)
    requires Mirror(s, rows, nextId, alive, parentId, log) && PhaseOf(s, a).Running?
    requires PhaseOf(s, a).req.request == Delete
    requires Of(now, parentId) == []
    ensures var p, t := PhaseOf(s, a), Apply(s, Purge(a));
      Mirror(t, now, nextId, alive, parentId, log) && PhaseOf(t, a) == Purged(p.mark, p.req, p.todo)
  {
    hide Inv, RowsOf;
    StepInv(s, Purge(a));
  }

  lemma MirrorRemove(s: State, rows: seq<Row>, nextId: nat, alive: bool, parentId: nat, log: seq<Row>, a: nat)
    requires Mirror(s, rows, nextId, alive, parentId, log) && PhaseOf(s, a).Purged?
    ensures var p, t := PhaseOf(s, a), Apply(s, RemoveParent(a));
      Mirror(t, rows, nextId, false, parentId, log) && PhaseOf(t, a) == Popping(p.mark, p.req, p.todo)
  {
    hide Inv;
    StepInv(s, RemoveParent(a));
  }

  lemma MirrorPop(s: State, rows: seq<Row>, nextId: nat, alive: bool, parentId: nat, log: seq<Row>, a: nat)
    requires Mirror(s, rows, nextId, alive, parentId, log) && PhaseOf(s, a).Popping?
    ensures var p, t := PhaseOf(s, a), Apply(s, Pop(a));
      Mirror(t, Filter(rows, NotPopped(parentId, p.req.id)), nextId, alive, parentId, log)
      && PhaseOf(t, a) == Serving(p.mark, p.todo)
  {
    hide Inv;
    StepInv(s, Pop(a));
    FilterCommutes(rows, NotPopped(parentId, PhaseOf(s, a).req.id), ParentIs(parentId));
  }

  lemma MirrorLoop(s: State, rows: seq<Row>, nextId: nat, alive: bool, parentId: nat, log: seq<Row>, a: nat)
    requires Mirror(s, rows, nextId, alive, parentId, log) && PhaseOf(s, a).Serving? && PhaseOf(s, a).todo == []
    ensures var t := Apply(s, Loop(a)); Mirror(t, rows, nextId, alive, parentId, log) && PhaseOf(t, a) == Head
  {
    hide Inv;
    StepInv(s, Loop(a));
  }

  lemma MirrorLoad(s: State, rows: seq<Row>, nextId: nat, alive: bool, parentId: nat, log: seq<Row>, a: nat)
    requires Mirror(s, rows, nextId, alive, parentId, log) && PhaseOf(s, a).Acquired?
    ensures var t := Apply(s, Load(a));
      Mirror(t, rows, nextId, alive, parentId, log) && PhaseOf(t, a) == if alive then Head else Gone
  {
    hide Inv;
    StepInv(s, Load(a));
  }
}
