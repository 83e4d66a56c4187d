/**
 The request protocol of one activation as a transition system: pushes by any
 actor, dispatchers that probe the advisory lock, and workers that take it and
 drain the queue. Every step is one committed transaction or one lock operation,
 and an actor may crash between any two of its steps.
 */
module DrainProtocol {
  import opened Common
  import opened Arbitration

  /** Where a dispatcher or a worker stands. */
  datatype Phase =
    | Gone                                             // not started, or finished
    | Probing                                          // dispatcher: holds the lock it only tests
    | Probed                                           // dispatcher: the lock is free again
    | Submitted                                        // job waiting for a worker
    | Acquired                                         // worker: lock taken, parent not looked up yet
    | Head                                             // worker: top of the while loop
    | Arbitrating(mark: nat, fold: Fold, rest: seq<Row>, victims: seq<Row>)
    | Serving(mark: nat, todo: seq<Row>)               // between two requests of one fetch
    | Running(mark: nat, req: Row, todo: seq<Row>)     // the manager works on a request
    | Purged(mark: nat, req: Row, todo: seq<Row>)      // manager.delete() emptied the queue, the parent is still there
    | Popping(mark: nat, req: Row, todo: seq<Row>)     // the manager returned or raised

  /**
   `mark` in a phase is the next id at the time of the fetch. The fields after
   `actors` are history: what was committed, which requests were started and
   from which fetch, which rows arbitration deleted, which went with the parent,
   which were cut short by a crash, which were pushed while a deletion had
   emptied the queue, and how many deletions ended without removing their parent.
   */
  datatype State = State(
    parentId: nat, queue: seq<Row>, nextId: nat, parentExists: bool, lock: Option<nat>, actors: map<nat, Phase>,
    committed: seq<Row>, log: seq<Row>, marks: seq<nat>, superseded: set<Row>, purged: set<Row>,
    interrupted: multiset<Row>, window: set<Row>, failedDeletes: nat)

  datatype Step =
    | Push(request: Request, requestId: string) | DrawId
    | Dispatch(a: nat) | EndProbe(a: nat) | Decline(a: nat) | Submit(a: nat)
    | Acquire(a: nat) | Load(a: nat) | Fetch(a: nat)
    | Discard(a: nat) | ReadNext(a: nat) | Settle(a: nat)
    | Begin(a: nat) | Purge(a: nat) | RemoveParent(a: nat) | Finish(a: nat) | Pop(a: nat) | Loop(a: nat)
    | Crash(a: nat)

  function PhaseOf(s: State, a: nat): Phase { if a in s.actors then s.actors[a] else Gone }

  function Move(s: State, a: nat, p: Phase): State { s.(actors := s.actors[a := p]) }

  function Release(s: State, a: nat): State { Move(s, a, Gone).(lock := None) }

  predicate Holds(p: Phase) { !p.Gone? && !p.Probed? && !p.Submitted? }

  ghost predicate Draining(p: Phase) {
    p.Acquired? || p.Head? || p.Arbitrating? || p.Serving? || p.Running? || p.Purged? || p.Popping?
  }

  /** The phase of whoever holds the lock. */
  function Holder(s: State): Phase { if s.lock.Some? then PhaseOf(s, s.lock.value) else Gone }

  predicate Serves(p: Phase) { p.Running? || p.Purged? || p.Popping? }

  predicate InFlight(s: State, r: Row) { Serves(Holder(s)) && Holder(s).req == r }

  // ------------------------------------------------------------------ steps
  // A step that is not enabled changes nothing.

  /** A push whose parent is gone is rolled back, but its id is used up. */
  function PushRow(s: State, request: Request, requestId: string): State {
    var row := Row(s.nextId, s.parentId, request, requestId);
    if !s.parentExists then s.(nextId := s.nextId + 1)
    else s.(queue := s.queue + [row], nextId := s.nextId + 1, committed := s.committed + [row],
            window := if Holder(s).Purged? then s.window + {row} else s.window)
  }

  /** Ids are drawn from one sequence: a push for another activation uses one up. */
  function NextId(s: State): State { s.(nextId := s.nextId + 1) }

  /** Every other step is one of a dispatcher or a worker. */
  predicate ByActor(step: Step) { !step.Push? && !step.DrawId? }

  /** queue_dispatch looks the parent up, then takes the lock only to see whether it is free. */
  function ProbeLock(s: State, a: nat): State {
    if PhaseOf(s, a).Gone? && s.parentExists && s.lock == None then Move(s, a, Probing).(lock := Some(a)) else s
  }

  function ReleaseProbe(s: State, a: nat): State {
    if PhaseOf(s, a).Probing? then Move(s, a, Probed).(lock := None) else s
  }

  function LeaveProbed(s: State, a: nat, p: Phase): State
    requires p.Gone? || p.Submitted?
  {
    if PhaseOf(s, a).Probed? then Move(s, a, p) else s
  }

  /** The lock is not waited for: a worker that does not get it exits. */
  function TakeLock(s: State, a: nat): State {
    if !PhaseOf(s, a).Submitted? then s
    else if s.lock == None then Move(s, a, Acquired).(lock := Some(a))
    else Move(s, a, Gone)
  }

  function LoadParent(s: State, a: nat): State {
    if !PhaseOf(s, a).Acquired? then s else if s.parentExists then Move(s, a, Head) else Release(s, a)
  }

  /** Fewer than two rows are taken as they are; an empty fetch ends the loop and frees the lock. */
  function FetchRows(s: State, a: nat): State {
    if !PhaseOf(s, a).Head? then s
    else if s.queue == [] then Release(s, a)
    else if |s.queue| == 1 then Move(s, a, Serving(s.nextId, s.queue))
    else Move(s, a, Arbitrating(s.nextId, Fold([], s.queue[0]), s.queue[1..], []))
  }

  function DiscardVictim(s: State, a: nat): State {
    var p := PhaseOf(s, a);
    if p.Arbitrating? && p.victims != [] then
      Move(s, a, p.(victims := p.victims[1..])).(
        queue := Without(s.queue, p.victims[0].id), superseded := s.superseded + {p.victims[0]})
    else s
  }

  function ReadRow(s: State, a: nat): State {
    var p := PhaseOf(s, a);
    if p.Arbitrating? && p.victims == [] && p.rest != [] then
      Move(s, a, Arbitrating(p.mark, Resolve(p.fold, p.rest[0]), p.rest[1..], Discarded(p.fold, p.rest[0])))
    else s
  }

  function EndFetch(s: State, a: nat): State {
    var p := PhaseOf(s, a);
    if p.Arbitrating? && p.victims == [] && p.rest == [] then Move(s, a, Serving(p.mark, Output(p.fold))) else s
  }

  function BeginRequest(s: State, a: nat): State {
    var p := PhaseOf(s, a);
    if p.Serving? && p.todo != [] then
      Move(s, a, Running(p.mark, p.todo[0], p.todo[1..])).(log := s.log + [p.todo[0]], marks := s.marks + [p.mark])
    else s
  }

  function RowsOf(rows: seq<Row>): set<Row> { set r | r in rows }

  /** Deleting an activation first deletes its queued requests, in a transaction of its own. */
  function PurgeQueue(s: State, a: nat): State {
    var p := PhaseOf(s, a);
    if p.Running? && p.req.request == Delete then
      Move(s, a, Purged(p.mark, p.req, p.todo)).(queue := [], purged := s.purged + (RowsOf(s.queue) - {p.req}))
    else s
  }

  function RemoveActivation(s: State, a: nat): State {
    var p := PhaseOf(s, a);
    if p.Purged? then Move(s, a, Popping(p.mark, p.req, p.todo)).(parentExists := false) else s
  }

  /** The manager returns or raises; either way the request counts as processed. */
  function EndRequest(s: State, a: nat): State {
    var p := PhaseOf(s, a);
    if p.Running? || p.Purged? then
      var failed := if p.req.request == Delete then 1 else 0;
      Move(s, a, Popping(p.mark, p.req, p.todo)).(failedDeletes := s.failedDeletes + failed)
    else s
  }

  function PopRows(s: State, a: nat): State {
    var p := PhaseOf(s, a);
    if p.Popping? then
      Move(s, a, Serving(p.mark, p.todo)).(queue := Filter(s.queue, NotPopped(s.parentId, p.req.id)))
    else s
  }

  function LoopAgain(s: State, a: nat): State {
    var p := PhaseOf(s, a);
    if p.Serving? && p.todo == [] then Move(s, a, Head) else s
  }

  /** The lock of a dead session is freed; nothing else is undone. */
  function CrashActor(s: State, a: nat): State {
    var p := PhaseOf(s, a);
    var t := if !Serves(p) then s
             else s.(interrupted := s.interrupted + multiset{p.req},
                     failedDeletes := s.failedDeletes + (if p.Purged? then 1 else 0));
    Move(t, a, Gone).(lock := if s.lock == Some(a) then None else s.lock)
  }

  function Apply(s: State, step: Step): State {
    match step
    case Push(request, requestId) => PushRow(s, request, requestId)
    case DrawId => NextId(s)
    case Dispatch(a) => ProbeLock(s, a)
    case EndProbe(a) => ReleaseProbe(s, a)
    case Decline(a) => LeaveProbed(s, a, Gone)
    case Submit(a) => LeaveProbed(s, a, Submitted)
    case Acquire(a) => TakeLock(s, a)
    case Load(a) => LoadParent(s, a)
    case Fetch(a) => FetchRows(s, a)
    case Discard(a) => DiscardVictim(s, a)
    case ReadNext(a) => ReadRow(s, a)
    case Settle(a) => EndFetch(s, a)
    case Begin(a) => BeginRequest(s, a)
    case Purge(a) => PurgeQueue(s, a)
    case RemoveParent(a) => RemoveActivation(s, a)
    case Finish(a) => EndRequest(s, a)
    case Pop(a) => PopRows(s, a)
    case Loop(a) => LoopAgain(s, a)
    case Crash(a) => CrashActor(s, a)
  }

  function Exec(s: State, steps: seq<Step>): State {
    if steps == [] then s else Apply(Exec(s, steps[..|steps| - 1]), steps[|steps| - 1])
  }

  lemma ExecSnoc(s: State, steps: seq<Step>, step: Step)
    ensures Exec(s, steps + [step]) == Apply(Exec(s, steps), step)
  {
    var all := steps + [step];
    assert all[..|all| - 1] == steps;
  }

  lemma {:induction false} ExecConcat(s: State, a: seq<Step>, b: seq<Step>)
    ensures Exec(s, a + b) == Exec(Exec(s, a), b)
  {
    hide Apply;
    if b == [] {
      assert a + b == a;
    } else {
      var n := |b| - 1;
      assert a + b == (a + b[..n]) + [b[n]];
      ExecSnoc(s, a + b[..n], b[n]);
      ExecConcat(s, a, b[..n]);
    }
  }

  lemma NoSteps(s: State)
    ensures Exec(s, []) == s
  {
  }

  ghost predicate Init(s: State) {
    && s.queue == [] && s.parentExists && s.lock == None && s.actors == map[]
    && s.committed == [] && s.log == [] && s.marks == [] && s.superseded == {} && s.purged == {}
    && s.interrupted == multiset{} && s.window == {} && s.failedDeletes == 0
  }

  // ------------------------------------------------------------- invariant

  /** The lock has one holder, and whoever is in a locked phase is it. */
  ghost predicate LockInv(s: State) {
    forall a: nat :: Holds(PhaseOf(s, a)) <==> s.lock == Some(a)
  }

  ghost predicate TableInv(s: State) {
    && Increasing(s.queue) && Increasing(s.committed)
    && (forall r | r in s.committed :: r.id < s.nextId && r.parentId == s.parentId)
    && (forall r | r in s.queue :: r in s.committed)
  }

  /** The queue starts with `pre`, and everything behind it was committed after the fetch. */
  ghost predicate Upto(queue: seq<Row>, pre: seq<Row>, mark: nat) {
    && pre <= queue
    && (forall r | r in pre :: r.id < mark)
    && (forall i | |pre| <= i < |queue| :: mark <= queue[i].id)
  }

  ghost predicate Behind(queue: seq<Row>, mark: nat) { forall r | r in queue :: mark <= r.id }

  /** A Delete is served alone or last. */
  ghost predicate DeleteLast(rows: seq<Row>) { forall i | 0 <= i < |rows| - 1 :: rows[i].request != Delete }

  ghost predicate PhaseInv(s: State, p: Phase) {
    match p
    case Arbitrating(mark, fold, rest, victims) =>
      && Normal(fold) && VictimsNeutral(fold, victims) && mark <= s.nextId
      && Upto(s.queue, Left(fold, victims) + rest, mark)
    case Serving(mark, todo) => mark <= s.nextId && |todo| <= 2 && Upto(s.queue, todo, mark) && DeleteLast(todo)
    case Running(mark, req, todo) =>
      && mark <= s.nextId && |todo| <= 1 && Upto(s.queue, [req] + todo, mark)
      && DeleteLast([req] + todo) && Last(s.log, req)
    case Purged(mark, req, todo) =>
      && mark <= s.nextId && req.id < mark && req.request == Delete && todo == [] && Last(s.log, req)
      && Behind(s.queue, mark) && (forall r | r in s.queue :: r in s.window)
    case Popping(mark, req, todo) =>
      && mark <= s.nextId && req.id < mark && |todo| <= 1 && DeleteLast([req] + todo) && Last(s.log, req)
      && (Upto(s.queue, [req] + todo, mark) || (todo == [] && Behind(s.queue, mark)))
    case _ => true
  }

  ghost predicate Last(log: seq<Row>, r: Row) { log != [] && log[|log| - 1] == r }

  /** The started requests never go back in id order, nor does what is still queued. */
  ghost predicate OrderInv(s: State) {
    && |s.marks| == |s.log|
    && (forall i, j | 0 <= i < j < |s.log| :: s.log[i].id <= s.log[j].id)
    && (forall r | r in s.log :: r in s.committed)
    && (s.log != [] ==> forall r | r in s.queue :: s.log[|s.log| - 1].id <= r.id)
  }

  /** A row that may yet be started, or never will be. */
  ghost predicate Idle(s: State, r: Row) {
    (r in s.queue && !InFlight(s, r)) || r in s.superseded || r in s.purged
  }

  /** Every start beyond the first is paid for by a crash in flight. */
  ghost predicate CountInv(s: State) {
    && (forall r :: multiset(s.log)[r] <= s.interrupted[r] + 1)
    && (forall r | Idle(s, r) :: multiset(s.log)[r] <= s.interrupted[r])
  }

  ghost predicate FateInv(s: State) {
    && (forall r | r in s.committed :: r in s.queue || r in s.log || r in s.superseded || r in s.purged)
    && (forall r | r in s.superseded :: r in s.committed && r !in s.queue && r !in s.purged)
    && (forall r | r in s.purged :: r in s.committed && r !in s.queue)
  }

  ghost predicate Inv(s: State) {
    && LockInv(s) && TableInv(s) && PhaseInv(s, Holder(s)) && OrderInv(s) && CountInv(s) && FateInv(s)
  }

  // ------------------------------------------------- preservation, by kind of step

  lemma HolderIs(s: State, a: nat)
    requires LockInv(s) && Holds(PhaseOf(s, a))
    ensures s.lock == Some(a) && Holder(s) == PhaseOf(s, a)
  {
  }

  lemma LockMove(s: State, t: State, a: nat)
    requires LockInv(s)
    requires t.actors == s.actors[a := PhaseOf(t, a)]
    requires Holds(PhaseOf(t, a)) <==> t.lock == Some(a)
    requires t.lock == s.lock || (s.lock == None && t.lock == Some(a)) || (s.lock == Some(a) && t.lock == None)
    ensures LockInv(t)
  {
    forall b: nat ensures Holds(PhaseOf(t, b)) <==> t.lock == Some(b) {
      assert b != a ==> PhaseOf(t, b) == PhaseOf(s, b);
    }
  }

  /** The holder goes on to another locked phase. */
  lemma HolderMoves(s: State, t: State, a: nat, p: Phase)
    requires LockInv(s) && Holds(PhaseOf(s, a)) && Holds(p)
    requires t.actors == s.actors[a := p] && t.lock == s.lock
    ensures LockInv(t) && Holder(s) == PhaseOf(s, a) && Holder(t) == p
  {
    HolderIs(s, a);
    LockMove(s, t, a);
  }

  /** A step that only moves the holder, or someone who holds nothing. */
  lemma MoveOnly(s: State, t: State, p: Phase)
    requires Inv(s) && LockInv(t) && p == Holder(t) && PhaseInv(t, p)
    requires t == s.(actors := t.actors, lock := t.lock)
    requires Serves(Holder(s)) ==> Serves(p) && p.req == Holder(s).req
    ensures Inv(t)
  {
    forall r | Idle(t, r) ensures Idle(s, r) {}
  }

  lemma PushPhase(s: State, t: State, row: Row, p: Phase)
    requires PhaseInv(s, p) && t.queue == s.queue + [row] && t.log == s.log
    requires row.id == s.nextId && t.nextId == s.nextId + 1
    requires s.window <= t.window && (p.Purged? ==> row in t.window)
    ensures PhaseInv(t, p)
  {
  }

  lemma PushInv(s: State, request: Request, requestId: string)
    requires Inv(s)
    ensures Inv(PushRow(s, request, requestId))
  {
    hide OrderInv, CountInv, FateInv, PhaseInv;
    var t := PushRow(s, request, requestId);
    var row := Row(s.nextId, s.parentId, request, requestId);
    forall a: nat ensures PhaseOf(t, a) == PhaseOf(s, a) {}
    if s.parentExists {
      PushPhase(s, t, row, Holder(s));
      PushTable(s, t, row);
      PushCounts(s, t, row);
    } else {
      SkipId(s, t);
    }
  }

  lemma SkipId(s: State, t: State)
    requires Inv(s) && t == s.(nextId := s.nextId + 1)
    ensures Inv(t)
  {
    assert Holder(t) == Holder(s);
    SkipIdPhase(s, t, Holder(s));
    forall r | Idle(t, r) ensures Idle(s, r) {}
  }

  lemma SkipIdPhase(s: State, t: State, p: Phase)
    requires PhaseInv(s, p) && t == s.(nextId := s.nextId + 1)
    ensures PhaseInv(t, p)
  {
  }

  lemma PushTable(s: State, t: State, row: Row)
    requires TableInv(s) && OrderInv(s) && FateInv(s) && row.id == s.nextId && row.parentId == s.parentId
    requires t == s.(queue := s.queue + [row], nextId := s.nextId + 1, committed := s.committed + [row],
                     window := t.window)
    ensures TableInv(t) && OrderInv(t) && FateInv(t)
  {
  }

  lemma PushCounts(s: State, t: State, row: Row)
    requires TableInv(s) && OrderInv(s) && CountInv(s) && row.id == s.nextId
    requires t == s.(queue := s.queue + [row], nextId := s.nextId + 1, committed := s.committed + [row],
                     window := t.window)
    ensures CountInv(t)
  {
    assert row !in s.log;
    assert Holder(t) == Holder(s);
    forall r | Idle(t, r) ensures multiset(t.log)[r] <= t.interrupted[r] {
      assert r == row || Idle(s, r);
    }
  }

  lemma ArbitrationStarts(queue: seq<Row>)
    requires |queue| >= 2
    ensures Left(Fold([], queue[0]), []) + queue[1..] == queue
    ensures VictimsNeutral(Fold([], queue[0]), [])
  {
    assert [queue[0]][1..] == [];
  }

  lemma FetchPhase(s: State, t: State, p: Phase)
    requires TableInv(s) && t.queue == s.queue && t.nextId == s.nextId
    requires |s.queue| == 1 ==> p == Serving(s.nextId, s.queue)
    requires |s.queue| >= 2 ==> p == Arbitrating(s.nextId, Fold([], s.queue[0]), s.queue[1..], [])
    requires s.queue == [] ==> p == Gone
    ensures PhaseInv(t, p)
  {
    if |s.queue| >= 2 {
      ArbitrationStarts(s.queue);
    }
  }

  lemma FetchInv(s: State, a: nat)
    requires Inv(s)
    ensures Inv(FetchRows(s, a))
  {
    hide OrderInv, CountInv, FateInv, PhaseInv;
    var t := FetchRows(s, a);
    if PhaseOf(s, a).Head? {
      FetchPhase(s, t, PhaseOf(t, a));
      if s.queue == [] {
        HolderIs(s, a);
        LockMove(s, t, a);
        MoveOnly(s, t, Gone);
      } else {
        HolderMoves(s, t, a, PhaseOf(t, a));
        MoveOnly(s, t, PhaseOf(t, a));
      }
    }
  }

  // --- deleting a superseded row

  lemma DiscardUpto(queue: seq<Row>, fold: Fold, victims: seq<Row>, rest: seq<Row>, mark: nat)
    requires victims != [] && Increasing(queue) && Upto(queue, Left(fold, victims) + rest, mark)
    ensures victims[0] in queue
    ensures Upto(Without(queue, victims[0].id), Left(fold, victims[1..]) + rest, mark)
  {
    var pre, next := Left(fold, victims) + rest, Left(fold, victims[1..]) + rest;
    var later := queue[|pre|..];
    assert queue == Left(fold, victims) + (rest + later);
    DropVictim(fold, victims, rest + later);
    assert Without(queue, victims[0].id) == next + later;
    forall i | 0 <= i < |later| ensures mark <= later[i].id {
      assert later[i] == queue[|pre| + i];
    }
    LeftMembers(fold, victims);
    forall r | r in next ensures r.id < mark {
      assert r in pre;
    }
    assert victims[0] in pre;
  }

  lemma LeftMembers(fold: Fold, victims: seq<Row>)
    requires victims != []
    ensures forall r | r in Left(fold, victims[1..]) :: r in Left(fold, victims)
  {
  }

  lemma DiscardPhase(s: State, t: State, p: Phase)
    requires Increasing(s.queue) && p.Arbitrating? && p.victims != [] && PhaseInv(s, p)
    requires t.queue == Without(s.queue, p.victims[0].id) && t.nextId == s.nextId
    ensures p.victims[0] in s.queue && PhaseInv(t, p.(victims := p.victims[1..]))
  {
    DiscardUpto(s.queue, p.fold, p.victims, p.rest, p.mark);
  }

  /** One row leaves the queue and is recorded in `superseded`. */
  lemma DiscardRecords(s: State, t: State, v: Row)
    requires TableInv(s) && OrderInv(s) && CountInv(s) && FateInv(s) && v in s.queue && !InFlight(s, v)
    requires t == s.(queue := Without(s.queue, v.id), superseded := s.superseded + {v}, actors := t.actors)
    requires !Serves(Holder(t)) && !Serves(Holder(s))
    ensures TableInv(t) && OrderInv(t) && CountInv(t) && FateInv(t)
  {
    FilterIncreasing(s.queue, IdIsNot(v.id));
    forall r: Row ensures r in t.queue <==> r in s.queue && r != v {
      FilterIn(s.queue, IdIsNot(v.id), r);
    }
    forall r | Idle(t, r) ensures multiset(t.log)[r] <= t.interrupted[r] {
      assert Idle(s, r);
    }
  }

  lemma DiscardInv(s: State, a: nat)
    requires Inv(s)
    ensures Inv(DiscardVictim(s, a))
  {
    hide OrderInv, CountInv, FateInv, PhaseInv;
    var p := PhaseOf(s, a);
    if p.Arbitrating? && p.victims != [] {
      var t := DiscardVictim(s, a);
      HolderMoves(s, t, a, p.(victims := p.victims[1..]));
      DiscardPhase(s, t, p);
      DiscardRecords(s, t, p.victims[0]);
    }
  }

  // --- the next row of the snapshot

  lemma ReadNextPhase(s: State, t: State, p: Phase, q: Phase)
    requires Increasing(s.queue) && p.Arbitrating? && p.victims == [] && p.rest != [] && PhaseInv(s, p)
    requires q == Arbitrating(p.mark, Resolve(p.fold, p.rest[0]), p.rest[1..], Discarded(p.fold, p.rest[0]))
    requires t.queue == s.queue && t.nextId == s.nextId
    ensures PhaseInv(t, q)
  {
    var row := p.rest[0];
    assert Left(p.fold, []) + p.rest == (Output(p.fold) + [row]) + p.rest[1..];
    assert Increasing(Output(p.fold) + [row]) by {
      assert Output(p.fold) + [row] == s.queue[..|Output(p.fold)| + 1];
    }
    PairStep(p.fold, row);
    ResolveHasShape(p.fold, row);
  }

  lemma ReadNextInv(s: State, a: nat)
    requires Inv(s)
    ensures Inv(ReadRow(s, a))
  {
    hide OrderInv, CountInv, FateInv, PhaseInv;
    var p := PhaseOf(s, a);
    if p.Arbitrating? && p.victims == [] && p.rest != [] {
      var t := ReadRow(s, a);
      HolderMoves(s, t, a, PhaseOf(t, a));
      ReadNextPhase(s, t, p, PhaseOf(t, a));
      MoveOnly(s, t, PhaseOf(t, a));
    }
  }

  lemma SettlePhase(s: State, t: State, p: Phase)
    requires p.Arbitrating? && p.victims == [] && p.rest == [] && PhaseInv(s, p)
    requires t.queue == s.queue && t.nextId == s.nextId
    ensures PhaseInv(t, Serving(p.mark, Output(p.fold)))
  {
    assert Left(p.fold, []) + [] == Output(p.fold);
  }

  lemma SettleInv(s: State, a: nat)
    requires Inv(s)
    ensures Inv(EndFetch(s, a))
  {
    hide OrderInv, CountInv, FateInv, PhaseInv;
    var p := PhaseOf(s, a);
    if p.Arbitrating? && p.victims == [] && p.rest == [] {
      var t := EndFetch(s, a);
      HolderMoves(s, t, a, PhaseOf(t, a));
      SettlePhase(s, t, p);
      MoveOnly(s, t, PhaseOf(t, a));
    }
  }

  // --- serving a request

  lemma BeginPhase(s: State, t: State, p: Phase)
    requires p.Serving? && p.todo != [] && PhaseInv(s, p)
    requires t.queue == s.queue && t.nextId == s.nextId && t.log == s.log + [p.todo[0]]
    ensures p.todo[0] in s.queue && s.queue[0] == p.todo[0]
    ensures PhaseInv(t, Running(p.mark, p.todo[0], p.todo[1..]))
  {
    assert p.todo == [p.todo[0]] + p.todo[1..];
  }

  lemma BeginOrder(s: State, t: State, r: Row)
    requires TableInv(s) && OrderInv(s) && s.queue != [] && s.queue[0] == r
    requires t.queue == s.queue && t.committed == s.committed && t.log == s.log + [r] && |t.marks| == |s.marks| + 1
    ensures OrderInv(t)
  {
    assert r in s.queue;
    forall i, j | 0 <= i < j < |t.log| ensures t.log[i].id <= t.log[j].id {
      if j == |s.log| {
        assert s.log[i].id <= s.log[|s.log| - 1].id;
      }
    }
  }

  lemma BeginCount(s: State, t: State, r: Row)
    requires CountInv(s) && Idle(s, r) && r in s.queue && FateInv(s)
    requires t.queue == s.queue && t.superseded == s.superseded && t.purged == s.purged
    requires t.interrupted == s.interrupted
    requires t.log == s.log + [r] && !Serves(Holder(s)) && Serves(Holder(t)) && Holder(t).req == r
    ensures CountInv(t)
  {
    forall x | Idle(t, x) ensures multiset(t.log)[x] <= t.interrupted[x] {
      assert x != r && Idle(s, x);
    }
  }

  lemma BeginFate(s: State, t: State)
    requires FateInv(s) && s.log <= t.log
    requires t.queue == s.queue && t.superseded == s.superseded && t.purged == s.purged && t.committed == s.committed
    ensures FateInv(t)
  {
  }

  lemma BeginInv(s: State, a: nat)
    requires Inv(s)
    ensures Inv(BeginRequest(s, a))
  {
    hide OrderInv, CountInv, FateInv, PhaseInv;
    var p := PhaseOf(s, a);
    if p.Serving? && p.todo != [] {
      var t := BeginRequest(s, a);
      HolderMoves(s, t, a, PhaseOf(t, a));
      BeginPhase(s, t, p);
      BeginOrder(s, t, p.todo[0]);
      BeginCount(s, t, p.todo[0]);
      BeginFate(s, t);
    }
  }

  /** The whole queue goes with the activation, except that the request in flight has been started. */
  lemma PurgeRecords(s: State, t: State, req: Row)
    requires TableInv(s) && OrderInv(s) && CountInv(s) && FateInv(s)
    requires t == s.(queue := [], purged := s.purged + (RowsOf(s.queue) - {req}), actors := t.actors)
    requires Serves(Holder(s)) && Holder(s).req == req && Last(s.log, req)
    ensures TableInv(t) && OrderInv(t) && CountInv(t) && FateInv(t)
  {
    forall r | Idle(t, r) ensures multiset(t.log)[r] <= t.interrupted[r] {
      assert Idle(s, r);
    }
    forall r | r in t.committed ensures r in t.queue || r in t.log || r in t.superseded || r in t.purged {
      assert r in s.queue ==> r == req || r in t.purged;
    }
  }

  lemma PurgePhase(s: State, t: State, p: Phase)
    requires p.Running? && p.req.request == Delete && PhaseInv(s, p)
    requires t.queue == [] && t.nextId == s.nextId && t.log == s.log
    ensures Last(s.log, p.req) && PhaseInv(t, Purged(p.mark, p.req, p.todo))
  {
    assert p.req in [p.req] + p.todo;
    assert ([p.req] + p.todo)[0] == p.req;
  }

  lemma PurgeInv(s: State, a: nat)
    requires Inv(s)
    ensures Inv(PurgeQueue(s, a))
  {
    hide OrderInv, CountInv, FateInv, PhaseInv;
    var p := PhaseOf(s, a);
    if p.Running? && p.req.request == Delete {
      var t := PurgeQueue(s, a);
      HolderMoves(s, t, a, PhaseOf(t, a));
      PurgePhase(s, t, p);
      PurgeRecords(s, t, p.req);
    }
  }

  /** Fields that no other invariant reads. */
  lemma SameRecords(s: State, t: State)
    requires TableInv(s) && OrderInv(s) && CountInv(s) && FateInv(s)
    requires t == s.(actors := t.actors, lock := t.lock, parentExists := t.parentExists,
        failedDeletes := t.failedDeletes)
    requires Serves(Holder(s)) ==> Serves(Holder(t)) && Holder(t).req == Holder(s).req
    ensures TableInv(t) && OrderInv(t) && CountInv(t) && FateInv(t)
  {
    forall r | Idle(t, r) ensures Idle(s, r) {}
  }

  lemma EndPhase(s: State, t: State, p: Phase)
    requires (p.Running? || p.Purged?) && PhaseInv(s, p)
    requires t.queue == s.queue && t.nextId == s.nextId && t.log == s.log
    ensures PhaseInv(t, Popping(p.mark, p.req, p.todo))
  {
    assert p.req in [p.req] + p.todo;
  }

  lemma RemoveInv(s: State, a: nat)
    requires Inv(s)
    ensures Inv(RemoveActivation(s, a))
  {
    hide OrderInv, CountInv, FateInv, PhaseInv;
    var p := PhaseOf(s, a);
    if p.Purged? {
      var t := RemoveActivation(s, a);
      HolderMoves(s, t, a, PhaseOf(t, a));
      EndPhase(s, t, p);
      SameRecords(s, t);
    }
  }

  lemma FinishInv(s: State, a: nat)
    requires Inv(s)
    ensures Inv(EndRequest(s, a))
  {
    hide OrderInv, CountInv, FateInv, PhaseInv;
    var p := PhaseOf(s, a);
    if p.Running? || p.Purged? {
      var t := EndRequest(s, a);
      HolderMoves(s, t, a, PhaseOf(t, a));
      EndPhase(s, t, p);
      SameRecords(s, t);
    }
  }

  // --- popping

  lemma PopFirst(queue: seq<Row>, parentId: nat, req: Row)
    requires Increasing(queue) && queue != [] && queue[0] == req && forall r | r in queue :: r.parentId == parentId
    ensures Filter(queue, NotPopped(parentId, req.id)) == queue[1..]
  {
    var keep := NotPopped(parentId, req.id);
    assert queue == [req] + queue[1..];
    FilterConcat([req], queue[1..], keep);
    FilterOne(req, keep);
    forall r | r in queue[1..] ensures keep(r) {
      var i :| 0 <= i < |queue[1..]| && queue[1..][i] == r;
      assert queue[0].id < queue[i + 1].id;
    }
    FilterKeepsAll(queue[1..], keep);
  }

  /** pop_until takes the request that was served and nothing else. */
  lemma PopExact(s: State, p: Phase)
    requires TableInv(s) && p.Popping? && PhaseInv(s, p)
    ensures var left := Filter(s.queue, NotPopped(s.parentId, p.req.id));
      && Upto(left, p.todo, p.mark)
      && left == (if p.req in s.queue then s.queue[1..] else s.queue)
      && (p.req in s.queue ==> s.queue[0] == p.req)
  {
    if Upto(s.queue, [p.req] + p.todo, p.mark) {
      assert s.queue[0] == ([p.req] + p.todo)[0];
      forall r | r in s.queue ensures r.parentId == s.parentId {
        assert r in s.committed;
      }
      PopFirst(s.queue, s.parentId, p.req);
      PopUpto(s.queue, p.req, p.todo, p.mark);
    } else {
      FilterKeepsAll(s.queue, NotPopped(s.parentId, p.req.id));
    }
  }

  lemma PopUpto(queue: seq<Row>, req: Row, todo: seq<Row>, mark: nat)
    requires Upto(queue, [req] + todo, mark)
    ensures Upto(queue[1..], todo, mark)
  {
    assert todo == ([req] + todo)[1..];
    forall i | |todo| <= i < |queue[1..]| ensures mark <= queue[1..][i].id {
      assert queue[1..][i] == queue[i + 1];
    }
  }

  lemma TailOf(queue: seq<Row>, req: Row)
    requires Increasing(queue) && queue != [] && queue[0] == req
    ensures Increasing(queue[1..]) && forall r: Row :: r in queue[1..] <==> r in queue && r != req
  {
    forall r: Row ensures r in queue[1..] <==> r in queue && r != req {
      if r in queue && r != req {
        var i :| 0 <= i < |queue| && queue[i] == r;
        assert queue[1..][i - 1] == r;
      }
      if r in queue[1..] {
        var i :| 0 <= i < |queue[1..]| && queue[1..][i] == r;
        assert queue[0].id < queue[i + 1].id;
      }
    }
  }

  lemma PopRecords(s: State, t: State, req: Row)
    requires TableInv(s) && OrderInv(s) && CountInv(s) && FateInv(s) && req in s.log
    requires Serves(Holder(s)) && Holder(s).req == req && !Serves(Holder(t))
    requires req in s.queue ==> s.queue[0] == req
    requires t == s.(queue := if req in s.queue then s.queue[1..] else s.queue, actors := t.actors)
    ensures TableInv(t) && OrderInv(t) && CountInv(t) && FateInv(t)
  {
    hide OrderInv, CountInv, FateInv;
    if req in s.queue {
      TailOf(s.queue, req);
    }
    PopRest(s, t, req);
    PopCounts(s, t, req);
  }

  lemma PopRest(s: State, t: State, req: Row)
    requires TableInv(s) && OrderInv(s) && FateInv(s) && req in s.log && Increasing(t.queue)
    requires forall r: Row :: r in t.queue <==> r in s.queue && r != req
    requires t == s.(queue := t.queue, actors := t.actors)
    ensures TableInv(t) && OrderInv(t) && FateInv(t)
  {
  }

  lemma PopCounts(s: State, t: State, req: Row)
    requires CountInv(s) && InFlight(s, req) && !Serves(Holder(t))
    requires forall r: Row :: r in t.queue <==> r in s.queue && r != req
    requires t == s.(queue := t.queue, actors := t.actors)
    ensures CountInv(t)
  {
    forall r | Idle(t, r) ensures Idle(s, r) {}
  }

  lemma PoppingFacts(s: State, p: Phase)
    requires p.Popping? && PhaseInv(s, p)
    ensures p.req in s.log && p.mark <= s.nextId && |p.todo| <= 1 && DeleteLast(p.todo)
  {
    assert p.todo == ([p.req] + p.todo)[1..];
  }

  lemma PopInv(s: State, a: nat)
    requires Inv(s)
    ensures Inv(PopRows(s, a))
  {
    hide OrderInv, CountInv, FateInv;
    var p := PhaseOf(s, a);
    if p.Popping? {
      var t := PopRows(s, a);
      HolderMoves(s, t, a, PhaseOf(t, a));
      PopExact(s, p);
      PoppingFacts(s, p);
      PopRecords(s, t, p.req);
    }
  }

  lemma LoopInv(s: State, a: nat)
    requires Inv(s)
    ensures Inv(LoopAgain(s, a))
  {
    hide OrderInv, CountInv, FateInv;
    var p := PhaseOf(s, a);
    if p.Serving? && p.todo == [] {
      var t := LoopAgain(s, a);
      HolderMoves(s, t, a, Head);
      SameRecords(s, t);
    }
  }

  // --- crash, and the steps that touch nothing but the lock

  lemma CrashCounts(s: State, t: State)
    requires CountInv(s) && !Serves(Holder(t))
    requires t == s.(actors := t.actors, lock := t.lock, failedDeletes := t.failedDeletes,
      interrupted := if Serves(Holder(s)) then s.interrupted + multiset{Holder(s).req} else s.interrupted)
    ensures CountInv(t)
  {
    forall r | Idle(t, r) ensures multiset(t.log)[r] <= t.interrupted[r] {
      assert InFlight(s, r) || Idle(s, r);
    }
  }

  lemma CrashInv(s: State, a: nat)
    requires Inv(s)
    ensures Inv(CrashActor(s, a))
  {
    hide TableInv, OrderInv, CountInv, FateInv, PhaseInv;
    var t := CrashActor(s, a);
    LockMove(s, t, a);
    if s.lock == Some(a) {
      assert Holder(t) == Gone && PhaseInv(t, Gone) by { NoPhase(t, Gone); }
      CrashCounts(s, t);
      SameTables(s, t);
    } else {
      assert !Holds(PhaseOf(s, a));
      assert Holder(t) == Holder(s);
      PhaseFrame(s, t, Holder(s));
      SameRecords(s, t);
    }
  }

  lemma SameTables(s: State, t: State)
    requires TableInv(s) && OrderInv(s) && FateInv(s)
    requires t == s.(actors := t.actors, lock := t.lock, failedDeletes := t.failedDeletes, interrupted := t.interrupted)
    ensures TableInv(t) && OrderInv(t) && FateInv(t)
  {
  }

  lemma NoPhase(s: State, p: Phase)
    requires p.Gone? || p.Probing? || p.Acquired? || p.Head?
    ensures PhaseInv(s, p)
  {
  }

  lemma PhaseFrame(s: State, t: State, p: Phase)
    requires PhaseInv(s, p) && t.queue == s.queue && t.nextId == s.nextId && t.log == s.log && t.window == s.window
    ensures PhaseInv(t, p)
  {
  }

  /** A lock is taken, given back or passed by, and nothing else happens. */
  lemma LockOnlyInv(s: State, t: State, a: nat)
    requires Inv(s) && t == s.(actors := s.actors[a := PhaseOf(t, a)], lock := t.lock)
    requires Holds(PhaseOf(t, a)) <==> t.lock == Some(a)
    requires t.lock == s.lock || (s.lock == None && t.lock == Some(a)) || (s.lock == Some(a) && t.lock == None)
    requires s.lock == Some(a) || t.lock == Some(a) ==> PhaseInv(t, PhaseOf(t, a)) && !Serves(PhaseOf(s, a))
    ensures Inv(t)
  {
    hide OrderInv, CountInv, FateInv, PhaseInv;
    LockMove(s, t, a);
    if s.lock == Some(a) || t.lock == Some(a) {
      assert Holder(t) == PhaseOf(t, a) || Holder(t) == Gone;
      NoPhase(t, Gone);
    } else {
      assert Holder(t) == Holder(s);
      PhaseFrame(s, t, Holder(s));
    }
    SameRecords(s, t);
  }

  /** Steps of actors that are not draining. */
  lemma OutsiderInv(s: State, step: Step)
    requires Inv(s)
    requires step.Dispatch? || step.EndProbe? || step.Decline? || step.Submit? || step.Acquire? || step.Load?
    ensures Inv(Apply(s, step))
  {
    hide TableInv, OrderInv, CountInv, FateInv, PhaseInv;
    var a, t := step.a, Apply(s, step);
    if t != s {
      assert Holds(PhaseOf(s, a)) <==> s.lock == Some(a);
      NoPhase(t, if Holds(PhaseOf(t, a)) then PhaseOf(t, a) else Gone);
      if !Holds(PhaseOf(t, a)) {
        NoPhase(t, Gone);
        OutsiderPhase(t, PhaseOf(t, a));
      }
      LockOnlyInv(s, t, a);
    }
  }

  lemma OutsiderPhase(s: State, p: Phase)
    requires !Holds(p)
    ensures PhaseInv(s, p)
  {
  }

  lemma StepInv(s: State, step: Step)
    requires Inv(s)
    ensures Inv(Apply(s, step))
  {
    hide Inv;
    match step
    case Push(request, requestId) => PushInv(s, request, requestId);
    case DrawId => SkipId(s, NextId(s));
    case Fetch(a) => FetchInv(s, a);
    case Discard(a) => DiscardInv(s, a);
    case ReadNext(a) => ReadNextInv(s, a);
    case Settle(a) => SettleInv(s, a);
    case Begin(a) => BeginInv(s, a);
    case Purge(a) => PurgeInv(s, a);
    case RemoveParent(a) => RemoveInv(s, a);
    case Finish(a) => FinishInv(s, a);
    case Pop(a) => PopInv(s, a);
    case Loop(a) => LoopInv(s, a);
    case Crash(a) => CrashInv(s, a);
    case _ => OutsiderInv(s, step);
  }

  lemma {:induction false} ExecInv(s: State, steps: seq<Step>)
    requires Inv(s)
    ensures Inv(Exec(s, steps))
  {
    hide Inv;
    if steps != [] {
      ExecInv(s, steps[..|steps| - 1]);
      StepInv(Exec(s, steps[..|steps| - 1]), steps[|steps| - 1]);
    }
  }

  lemma InitInv(s: State)
    requires Init(s)
    ensures Inv(s)
  {
    assert forall a: nat :: PhaseOf(s, a) == Gone;
    assert Holder(s) == Gone;
  }
}
