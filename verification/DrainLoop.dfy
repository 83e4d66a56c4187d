/**
 The worker's loop over the request table, as it is written, with pushes by others
 arriving between its steps. Beside it runs the protocol: every statement that touches
 the table is matched by steps of it, so the loop is one of the protocol's runs.
 */
module DrainLoop {
  import opened Common
  import opened Arbitration
  import opened RequestQueue
  import opened LoopSteps
  import P = DrainProtocol
  import ActivationWorld

  /** A push by somebody else. */
  datatype Arrival = Arrival(parentId: nat, request: Request)

  /** The requests among these that are kept, those for activations that exist. */
  ghost function Kept(pushed: seq<Arrival>, parents: set<nat>): seq<Request> {
    if pushed == [] then []
    else
      Kept(pushed[..|pushed| - 1], parents)
      + if pushed[|pushed| - 1].parentId in parents then [pushed[|pushed| - 1].request] else []
  }

  lemma KeptNext(pushed: seq<Arrival>, one: Arrival, parents: set<nat>)
    ensures Kept(pushed + [one], parents) == Kept(pushed, parents) + Kept([one], parents)
  {
    assert (pushed + [one])[..|pushed|] == pushed;
    assert [one][..0] == [];
  }

  lemma NoneKept(parents: set<nat>)
    ensures Kept([], parents) == []
  {
  }

  lemma OfHas(rows: seq<Row>, parentId: nat)
    ensures forall r :: r in Of(rows, parentId) <==> r in rows && r.parentId == parentId
  {
    forall r ensures r in Of(rows, parentId) <==> r in rows && r.parentId == parentId {
      FilterIn(rows, ParentIs(parentId), r);
    }
  }

  /** An operation of the activation manager. */
  datatype Operation = ManagerStart(isRestart: bool) | ManagerStop | ManagerRestart | ManagerDelete

  /** Each request is run by its own operation; an automatic start is one that counts as a restart. */
  ghost predicate RunAs(request: Request, operation: Operation) {
    match request
    case Start => operation == ManagerStart(false)
    case AutoStart => operation == ManagerStart(true)
    case Stop => operation == ManagerStop
    case Restart => operation == ManagerRestart
    case Delete => operation == ManagerDelete
  }

  /** The operations are those of the requests, one for each, in order. */
  ghost predicate AllRunAs(requests: seq<Row>, operations: seq<Operation>) {
    |operations| == |requests| && forall i | 0 <= i < |requests| :: RunAs(requests[i].request, operations[i])
  }

  /** How a call of the manager ends; only a deletion can fail half way. */
  datatype Ending = Done | Raised | RaisedAfterPurge

  /** Every row of `ran` comes before every row of `rest`. */
  ghost predicate Before(ran: seq<Row>, rest: seq<Row>) {
    forall r, q | r in ran && q in rest :: r.id < q.id
  }

  class Worker {
    const table: RequestTable
    /** This worker among the actors of the protocol. */
    const me: nat
    /** The requests that were run, and the operations of the manager that ran them. */
    var executed: seq<Row>
    var operations: seq<Operation>
    /** What others push, moment by moment. */
    var arrivals: seq<seq<Arrival>>
    /** How the manager's calls end, one by one; past the end they succeed. */
    var endings: seq<Ending>
    /** The run of the protocol that this loop has gone through. */
    ghost const start: P.State
    ghost var steps: seq<P.Step>

    constructor (table: RequestTable, me: nat, arrivals: seq<seq<Arrival>>, endings: seq<Ending>, ghost start: P.State)
      ensures this.table == table && this.me == me && this.start == start
      ensures executed == [] && operations == [] && this.arrivals == arrivals && this.endings == endings && steps == []
    {
      this.table, this.me, executed, operations := table, me, [], [];
      this.arrivals, this.endings := arrivals, endings;
      this.start, steps := start, [];
    }

    ghost function Protocol(): P.State
      reads this`steps
    {
      P.Exec(start, steps)
    }

    /** The protocol, run along with the loop, shows the table and what was executed, with this worker in `phase`. */
    ghost predicate Follows(parentId: nat, phase: P.Phase)
      reads this, table
    {
      && Mirror(Protocol(), table.rows, table.nextId, parentId in table.parents, parentId, start.log + executed)
      && P.PhaseOf(Protocol(), me) == phase
      && AllRunAs(executed, operations)
    }

    ghost method Take(more: seq<P.Step>)
      modifies `steps
      ensures steps == old(steps) + more && Protocol() == P.Exec(old(Protocol()), more)
    {
      P.ExecConcat(start, steps, more);
      steps := steps + more;
    }

    ghost method TakeOne(step: P.Step)
      modifies `steps
      ensures steps == old(steps) + [step] && Protocol() == P.Apply(old(Protocol()), step)
    {
      P.ExecSnoc(start, steps, step);
      steps := steps + [step];
    }

    /** One push by somebody else. */
    method ArriveOne(arrival: Arrival, ghost parentId: nat, ghost phase: P.Phase)
      requires table.Valid() && Follows(parentId, phase)
      modifies `steps, table`rows, table`nextId
      ensures table.Valid() && Follows(parentId, phase) && table.nextId >= old(table.nextId)
      ensures Extends(old(table.rows), table.rows, old(table.nextId)) && old(steps) <= steps
      ensures Kinds(table.rows) == Kinds(old(table.rows)) + Kept([arrival], table.parents)
    {
      hide P.Inv, P.Apply, Of, P.Exec;
      ghost var s, rows, alive := Protocol(), table.rows, parentId in table.parents;
      ghost var row := Row(table.nextId, arrival.parentId, arrival.request, "");
      var outcome := table.Push(ActivationParent, arrival.parentId, arrival.request, "");
      if arrival.parentId == parentId {
        MirrorOwnPush(s, rows, old(table.nextId), alive, parentId, start.log + executed, arrival.request);
        TakeOne(P.Push(arrival.request, ""));
      } else {
        ghost var kept := outcome == PushOutcome.Pushed;
        MirrorOtherPush(s, rows, old(table.nextId), alive, parentId, start.log + executed, row, kept);
        TakeOne(P.DrawId);
      }
      ExtendsOne(rows, row, old(table.nextId));
    }

    /** The next moment at which others push. */
    method Arrive(ghost parentId: nat, ghost phase: P.Phase)
      requires table.Valid() && Follows(parentId, phase)
      modifies `arrivals, `steps, table`rows, table`nextId
      ensures table.Valid() && Follows(parentId, phase) && table.nextId >= old(table.nextId)
      ensures Extends(old(table.rows), table.rows, old(table.nextId)) && old(steps) <= steps
      ensures old(arrivals) == [] ==> arrivals == [] && table.rows == old(table.rows)
      ensures old(arrivals) != [] ==> arrivals == old(arrivals)[1..]
      ensures old(arrivals) != [] ==>
        Kinds(table.rows) == Kinds(old(table.rows)) + Kept(old(arrivals)[0], table.parents)
    {
      hide Mirror, Kinds, Kept, Extends;
      ExtendsNone(table.rows, table.nextId);
      if arrivals == [] {
        return;
      }
      var now := arrivals[0];
      arrivals := arrivals[1..];
      NoneKept(table.parents);
      for i := 0 to |now|
        invariant table.Valid() && Follows(parentId, phase) && table.nextId >= old(table.nextId)
        invariant Extends(old(table.rows), table.rows, old(table.nextId)) && old(steps) <= steps
        invariant arrivals == old(arrivals)[1..]
        invariant Kinds(table.rows) == Kinds(old(table.rows)) + Kept(now[..i], table.parents)
      {
        ghost var rows, nextId := table.rows, table.nextId;
        ArriveOne(now[i], parentId, phase);
        assert now[..i + 1] == now[..i] + [now[i]];
        KeptNext(now[..i], now[i], table.parents);
        ExtendsMore(old(table.rows), rows, table.rows, old(table.nextId), nextId);
      }
      assert now[..|now|] == now;
    }

    /** Has the manager run a request. */
    method CallManager(request: Row)
      requires AllRunAs(executed, operations)
      modifies `executed, `operations
      ensures executed == old(executed) + [request] && AllRunAs(executed, operations)
      ensures |operations| == |old(operations)| + 1 && old(operations) <= operations
      ensures RunAs(request.request, operations[|old(operations)|])
    {
      executed := executed + [request];
      if request.request == Start || request.request == AutoStart {
        operations := operations + [ManagerStart(request.request == AutoStart)];
      } else if request.request == Stop {
        operations := operations + [ManagerStop];
      } else if request.request == Restart {
        operations := operations + [ManagerRestart];
      } else {
        operations := operations + [ManagerDelete];
      }
    }

    /** A deletion that gets at least as far as its purge; others may push before the activation goes. */
    method DeleteActivation(parentId: nat, ghost request: Row, ending: Ending, ghost mark: nat, ghost todo: seq<Row>)
      requires table.Valid() && Follows(parentId, P.Running(mark, request, todo)) && request.request == Delete
      requires ending != Raised
      modifies `arrivals, `steps, table`rows, table`nextId, table`parents
      ensures table.Valid() && Follows(parentId, P.Popping(mark, request, todo)) && old(steps) <= steps
      ensures table.nextId >= old(table.nextId)
      ensures arrivals == if old(arrivals) == [] then [] else old(arrivals)[1..]
      ensures NoneButLater(old(table.rows), table.rows, parentId, old(table.nextId), old(arrivals) == [])
      ensures table.parents == if ending == Done then old(table.parents) - {parentId} else old(table.parents)
      ensures forall r | r in table.rows && r.parentId == parentId :: r.id >= old(table.nextId)
      ensures old(arrivals) == [] ==> Of(table.rows, parentId) == []
    {
      hide P.Inv, P.Apply, P.Exec, Of, Mirror, AllRunAs, RunAs, Kinds, Kept, Extends, NoneButLater;
      ghost var rows, log := table.rows, start.log + executed;
      table.DeleteRequestsOf(parentId);
      MirrorPurge(Protocol(), rows, table.rows, table.nextId, parentId in table.parents, parentId, log, me);
      TakeOne(P.Purge(me));
      ghost var emptied := table.rows;
      Arrive(parentId, P.Purged(mark, request, todo));
      AfterPurge(rows, emptied, table.rows, parentId, old(table.nextId), old(arrivals) == []);
      if ending == Done {
        MirrorRemove(Protocol(), table.rows, table.nextId, parentId in table.parents, parentId, log, me);
        TakeOne(P.RemoveParent(me));
        table.parents := table.parents - {parentId};
      } else {
        MirrorFinish(Protocol(), table.rows, table.nextId, parentId in table.parents, parentId, log, me);
        TakeOne(P.Finish(me));
      }
    }

    /**
     Calls the manager. What it raises is logged, and the request counts as processed
     all the same. A deletion removes first the queue, then the activation; others may
     push in between, and it may fail before either half.
     */
    method RunRequest(parentId: nat, request: Row, ghost mark: nat, ghost todo: seq<Row>) returns (processed: bool)
      requires table.Valid() && Follows(parentId, P.Serving(mark, [request] + todo))
      modifies `executed, `operations, `endings, `arrivals, `steps, table`rows, table`nextId, table`parents
      ensures processed && table.Valid() && Follows(parentId, P.Popping(mark, request, todo))
      ensures executed == old(executed) + [request] && old(steps) <= steps
      ensures |operations| == |old(operations)| + 1 && old(operations) <= operations
      ensures RunAs(request.request, operations[|old(operations)|])
      ensures endings == if old(endings) == [] then [] else old(endings)[1..]
      ensures table.nextId >= old(table.nextId) && |arrivals| <= |old(arrivals)|
      ensures NoneButLater(old(table.rows), table.rows, parentId, old(table.nextId), old(arrivals) == [])
      ensures var ending := if old(endings) == [] then Done else old(endings)[0];
        if request.request != Delete || ending == Raised then
          table.rows == old(table.rows) && table.parents == old(table.parents)
        else
          && table.parents == (if ending == Done then old(table.parents) - {parentId} else old(table.parents))
          && (forall r | r in table.rows && r.parentId == parentId :: r.id >= old(table.nextId))
          && (old(arrivals) == [] ==> Of(table.rows, parentId) == [])
    {
      hide P.Inv, P.Apply, P.Exec, Of, Mirror, AllRunAs, RunAs, Kinds, Kept, NoneButLater;
      var ending := if endings == [] then Done else endings[0];
      endings := if endings == [] then [] else endings[1..];
      assert ([request] + todo)[1..] == todo;
      MirrorBegin(Protocol(), table.rows, table.nextId, parentId in table.parents, parentId, start.log + executed, me);
      TakeOne(P.Begin(me));
      LogNext(start.log, executed, request);
      CallManager(request);
      SameRows(table.rows, parentId, table.nextId);
      if request.request == Delete && ending != Raised {
        DeleteActivation(parentId, request, ending, mark, todo);
      } else {
        MirrorFinish(Protocol(), table.rows, table.nextId, parentId in table.parents, parentId, start.log + executed,
            me);
        TakeOne(P.Finish(me));
      }
      return true;
    }

    /** Pops what has been run. */
    method PopRequest(parentId: nat, request: Row, ghost mark: nat, ghost todo: seq<Row>)
      requires table.Valid() && Follows(parentId, P.Popping(mark, request, todo))
      modifies `steps, table`rows
      ensures table.Valid() && Follows(parentId, P.Serving(mark, todo)) && old(steps) <= steps
      ensures forall r: Row | r.parentId == parentId :: r in table.rows <==> r in old(table.rows) && r.id > request.id
    {
      hide P.Inv, P.Apply, P.Exec, Of, Mirror, AllRunAs;
      MirrorPop(Protocol(), table.rows, table.nextId, parentId in table.parents, parentId, start.log + executed, me);
      TakeOne(P.Pop(me));
      table.PopUntil(parentId, request.id);
    }

    /** One turn of the inner loop. */
    method RunAndPop(parentId: nat, request: Row, ghost mark: nat, ghost todo: seq<Row>, ghost limit: nat,
                     ghost quiet: bool)
      returns (processed: bool)
      requires table.Valid() && limit <= table.nextId && Follows(parentId, P.Serving(mark, [request] + todo))
      requires Remaining(table.rows, parentId, [request] + todo, limit, quiet) && (quiet ==> arrivals == [])
      modifies this, table`rows, table`nextId, table`parents
      ensures processed && table.Valid() && limit <= table.nextId
      ensures Follows(parentId, P.Serving(mark, todo)) && executed == old(executed) + [request] && old(steps) <= steps
      ensures Remaining(table.rows, parentId, todo, limit, quiet) && (quiet ==> arrivals == [])
      ensures |arrivals| <= |old(arrivals)| && (old(arrivals) != [] ==> |arrivals| < |old(arrivals)|)
    {
      hide P.Inv, P.Apply, P.Exec, Of, Mirror, AllRunAs, RunAs, Kinds, Kept, Remaining, NoneButLater, Extends;
      ghost var before, nextId, still := table.rows, table.nextId, arrivals == [];
      processed := RunRequest(parentId, request, mark, todo);
      ghost var ran, nextId' := table.rows, table.nextId;
      Arrive(parentId, P.Popping(mark, request, todo));
      RemainingAfter(before, ran, table.rows, parentId, [request] + todo, limit, nextId, nextId', still, quiet);
      ghost var arrived := table.rows;
      PopRequest(parentId, request, mark, todo);
      LeftAfterPop(arrived, table.rows, parentId, [request] + todo, limit, quiet);
      assert ([request] + todo)[1..] == todo;
    }

    /** The requests fetched by one peek, each run and then popped, with others pushing in between. */
    method RunBatch(parentId: nat, pending: seq<Row>, ghost mark: nat) returns (processed: bool)
      requires table.Valid() && pending == Of(table.rows, parentId) && Follows(parentId, P.Serving(mark, pending))
      modifies this, table`rows, table`nextId, table`parents
      ensures table.Valid() && table.nextId >= old(table.nextId) && Follows(parentId, P.Serving(mark, []))
      ensures old(steps) <= steps
      ensures executed == old(executed) + pending && processed == (pending != [])
      ensures OnlyLater(table.rows, parentId, [], old(table.nextId))
      ensures old(arrivals) == [] ==> arrivals == [] && Of(table.rows, parentId) == []
      ensures |arrivals| <= |old(arrivals)|
      ensures old(arrivals) != [] && pending != [] ==> |arrivals| < |old(arrivals)|
    {
      hide OnlyLater, Of, Mirror, P.Exec;
      processed := false;
      FirstLeft(table.rows, parentId, table.nextId);
      assert pending[0..] == pending;
      for i := 0 to |pending|
        invariant table.Valid() && table.nextId >= old(table.nextId)
        invariant Follows(parentId, P.Serving(mark, pending[i..])) && old(steps) <= steps
        invariant executed == old(executed) + pending[..i] && processed == (i > 0)
        invariant Remaining(table.rows, parentId, pending[i..], old(table.nextId), old(arrivals) == [])
        invariant |arrivals| <= |old(arrivals)| && (i > 0 && old(arrivals) != [] ==> |arrivals| < |old(arrivals)|)
      {
        PendingIncreasing(old(table.rows), old(table.nextId), parentId, pending, i);
        assert pending[i..] == [pending[i]] + pending[i + 1..];
        processed := RunAndPop(parentId, pending[i], mark, pending[i + 1..], old(table.nextId), old(arrivals) == []);
      }
      assert pending[|pending|..] == [] && pending[..|pending|] == pending;
      NothingLeft(table.rows, parentId, old(table.nextId), old(arrivals) == []);
    }

    /** Peeks; the protocol fetches, deletes and settles. */
    method Fetch(parentId: nat) returns (pending: seq<Row>)
      requires table.Valid() && Follows(parentId, P.Head)
      modifies `steps, table`rows, table`commits
      ensures table.Valid() && old(steps) <= steps
      ensures Follows(parentId, if pending == [] then P.Gone else P.Serving(table.nextId, pending))
      ensures pending == Arbitrate(Of(old(table.rows), parentId)) == Of(table.rows, parentId)
    {
      hide P.Inv, P.Apply, P.Exec, Of, Mirror, AllRunAs, RunAs, Kinds, Kept, Arbitrate, SameElsewhere, AllIntact;
      ghost var s, rows := Protocol(), table.rows;
      pending := table.PeekAll(parentId);
      ghost var more := MirrorFetch(s, rows, table.rows, table.nextId, parentId in table.parents, parentId,
          start.log + executed, me);
      Take(more);
      ArbitrateNothing(Of(rows, parentId));
    }

    /** One turn of the loop: fetch what is pending, run it, and say whether there was anything. */
    method Round(parentId: nat, ghost ran: seq<Row>) returns (any: bool, processed: bool, ghost pending: seq<Row>)
      requires table.Valid() && Increasing(ran) && RanBefore(ran, table.rows, parentId, table.nextId)
      requires Follows(parentId, P.Head)
      modifies this, table
      ensures table.Valid() && Follows(parentId, if any then P.Head else P.Gone) && old(steps) <= steps
      ensures executed == old(executed) + pending && any == processed == (pending != [])
      ensures Increasing(ran + pending) && RanBefore(ran + pending, table.rows, parentId, table.nextId)
      ensures pending == [] ==> Of(table.rows, parentId) == []
      ensures old(arrivals) == [] ==> arrivals == [] && Of(table.rows, parentId) == []
      ensures old(arrivals) == [] ==> pending == Arbitrate(Of(old(table.rows), parentId))
      ensures old(arrivals) != [] ==> |arrivals| < |old(arrivals)|
    {
      hide Of, OnlyLater, Arbitrate, RanBefore, Increasing, Before, SameElsewhere, AllIntact;
      hide Mirror, P.Exec, P.Apply, Extends, Kinds, Kept;
      Arrive(parentId, P.Head);
      RanBeforeArrivals(ran, old(table.rows), table.rows, parentId, old(table.nextId), table.nextId);
      ghost var arrived := table.rows;
      var fetched := Fetch(parentId);
      pending := fetched;
      RanBeforePending(ran, arrived, table.rows, parentId, table.nextId);
      PendingAreIncreasing(table.rows, table.nextId, parentId);
      RanBeforeThem(ran, table.rows, parentId, table.nextId);
      ghost var limit := table.nextId;
      any, processed := fetched != [], false;
      if any {
        processed := RunBatch(parentId, fetched, limit);
        MirrorLoop(Protocol(), table.rows, table.nextId, parentId in table.parents, parentId, start.log + executed, me);
        TakeOne(P.Loop(me));
      } else {
        NothingPending(table.rows, parentId, limit);
      }
      RanNext(ran, pending, table.rows, parentId, limit, table.nextId);
    }

    /**
     The whole loop: it ends with nothing pending, having run requests in the order
     of their ids, each once. With no pushes by others they are exactly what
     arbitration makes of the queue; only when there were none is the activation
     monitored, if it is starting, running or offline and its process has no queue or runs here.
     */
    method ManageNoLock(parentId: nat, status: ActivationWorld.Status, queue: Option<string>, localQueue: string)
      returns (monitored: bool, ghost ran: seq<Row>)
      requires table.Valid() && Follows(parentId, P.Acquired)
      modifies this, table
      ensures table.Valid() && executed == old(executed) + ran && AllRunAs(executed, operations)
      ensures Follows(parentId, P.Gone) && old(steps) <= steps
      ensures parentId !in old(table.parents) ==> !monitored && ran == [] && table.rows == old(table.rows)
      ensures parentId in old(table.parents) ==>
        && Of(table.rows, parentId) == [] && Increasing(ran)
        && (old(arrivals) == [] ==> ran == Arbitrate(Of(old(table.rows), parentId)))
        && (monitored <==>
              && ran == []
              && (status == ActivationWorld.Starting || status == ActivationWorld.Running
                  || status == ActivationWorld.WorkersOffline)
              && (queue == None || queue == Some("") || queue == Some(localQueue)))
    {
      hide Of, Arbitrate, RanBefore, Batches, Increasing, Mirror, P.Exec, P.Apply;
      ran := [];
      NothingRan(table.rows, parentId, table.nextId);
      ArbitrateNone();
      MirrorLoad(Protocol(), table.rows, table.nextId, parentId in table.parents, parentId, start.log + executed, me);
      TakeOne(P.Load(me));
      if parentId !in table.parents {
        return false, ran;
      }
      var hasRequestProcessed := false;
      var whileCondition := true;
      while whileCondition
        invariant table.Valid() && executed == old(executed) + ran && hasRequestProcessed == (ran != [])
        invariant Follows(parentId, if whileCondition then P.Head else P.Gone) && old(steps) <= steps
        invariant Increasing(ran) && RanBefore(ran, table.rows, parentId, table.nextId)
        invariant !whileCondition ==> Of(table.rows, parentId) == []
        invariant old(arrivals) == [] ==> arrivals == []
        invariant old(arrivals) == [] ==> Batches(Of(old(table.rows), parentId), Of(table.rows, parentId), ran)
        decreases |arrivals|, |Of(table.rows, parentId)|, whileCondition
      {
        ghost var queued, batch := Of(table.rows, parentId), [];
        var processed;
        whileCondition, processed, batch := Round(parentId, ran);
        if old(arrivals) == [] {
          BatchNext(Of(old(table.rows), parentId), queued, batch, ran);
        }
        ran := ran + batch;
        hasRequestProcessed := hasRequestProcessed || processed;
      }
      if old(arrivals) == [] {
        BatchesEnd(Of(old(table.rows), parentId), ran);
      }
      if !hasRequestProcessed
        && status in {ActivationWorld.Starting, ActivationWorld.Running, ActivationWorld.WorkersOffline}
      {
        if queue.Some? && queue.value != "" && queue.value != localQueue {
          return false, ran;
        }
        return true, ran;
      }
      return false, ran;
    }
  }

  // ------------------------------------------------- rows that are added

  ghost predicate Extends(before: seq<Row>, now: seq<Row>, limit: nat) {
    before <= now && forall r | r in now[|before|..] :: r.id >= limit
  }

  lemma ExtendsNone(rows: seq<Row>, limit: nat)
    ensures Extends(rows, rows, limit)
  {
  }

  lemma ExtendsOne(rows: seq<Row>, row: Row, limit: nat)
    requires row.id >= limit
    ensures Extends(rows, rows + [row], limit) && Extends(rows, rows, limit)
  {
  }

  lemma ExtendsMore(a: seq<Row>, b: seq<Row>, c: seq<Row>, limit: nat, later: nat)
    requires Extends(a, b, limit) && Extends(b, c, later) && limit <= later
    ensures Extends(a, c, limit)
  {
    assert c == a + (b[|a|..] + c[|b|..]);
  }

  /** What is queued for the activation was so before, or was pushed since. */
  ghost predicate NoneButLater(before: seq<Row>, now: seq<Row>, parentId: nat, limit: nat, quiet: bool) {
    forall r | r in now && r.parentId == parentId :: r in before || (!quiet && r.id >= limit)
  }

  lemma SameRows(rows: seq<Row>, parentId: nat, limit: nat)
    ensures NoneButLater(rows, rows, parentId, limit, true) && NoneButLater(rows, rows, parentId, limit, false)
  {
  }

  /** After a purge only what was pushed since is queued. */
  lemma AfterPurge(before: seq<Row>, emptied: seq<Row>, now: seq<Row>, parentId: nat, limit: nat, quiet: bool)
    requires Of(emptied, parentId) == [] && Extends(emptied, now, limit) && (quiet ==> now == emptied)
    ensures NoneButLater(before, now, parentId, limit, quiet)
    ensures forall r | r in now && r.parentId == parentId :: r.id >= limit
    ensures quiet ==> Of(now, parentId) == []
  {
    OfHas(emptied, parentId);
    assert now == emptied + now[|emptied|..];
  }

  lemma LogNext(before: seq<Row>, executed: seq<Row>, request: Row)
    ensures before + executed + [request] == before + (executed + [request])
  {
  }

  lemma NothingPending(rows: seq<Row>, parentId: nat, limit: nat)
    requires Of(rows, parentId) == []
    ensures OnlyLater(rows, parentId, [], limit)
  {
    OfHas(rows, parentId);
  }

  lemma ArbitrateNothing(rows: seq<Row>)
    ensures Arbitrate(rows) == [] <==> rows == []
  {
  }

  // ------------------------------------------------- inside a batch

  /** What is queued is in `rest`, or was pushed later. */
  ghost predicate OnlyLater(rows: seq<Row>, parentId: nat, rest: seq<Row>, limit: nat) {
    forall q | q in rows && q.parentId == parentId :: q in rest || q.id >= limit
  }

  ghost predicate Remaining(rows: seq<Row>, parentId: nat, rest: seq<Row>, limit: nat, quiet: bool) {
    OnlyLater(rows, parentId, rest, limit) && (quiet ==> forall q | q in rows && q.parentId == parentId :: q in rest)
  }

  lemma FirstLeft(rows: seq<Row>, parentId: nat, limit: nat)
    ensures Remaining(rows, parentId, Of(rows, parentId), limit, true)
    ensures Remaining(rows, parentId, Of(rows, parentId), limit, false)
  {
    OfHas(rows, parentId);
  }

  lemma RemainingAfter(before: seq<Row>, ran: seq<Row>, now: seq<Row>, parentId: nat, rest: seq<Row>, limit: nat,
                       nextId: nat, later: nat, still: bool, quiet: bool)
    requires Remaining(before, parentId, rest, limit, quiet) && limit <= nextId <= later && (quiet ==> still)
    requires NoneButLater(before, ran, parentId, nextId, still)
    requires Extends(ran, now, later) && (still ==> now == ran)
    ensures Remaining(now, parentId, rest, limit, quiet)
  {
    assert now == ran + now[|ran|..];
  }

  lemma PendingIncreasing(rows: seq<Row>, limit: nat, parentId: nat, pending: seq<Row>, i: nat)
    requires Increasing(rows) && (forall r | r in rows :: r.id < limit) && pending == Of(rows, parentId)
    requires i < |pending|
    ensures pending[i].id < limit && forall q | q in pending[i..] :: q == pending[i] || q.id > pending[i].id
    ensures Increasing(pending[i..]) && pending[i..] != [] && pending[i..][0] == pending[i]
  {
    FilterIncreasing(rows, ParentIs(parentId));
    OfHas(rows, parentId);
  }

  lemma LeftAfterPop(before: seq<Row>, now: seq<Row>, parentId: nat, rest: seq<Row>, limit: nat, quiet: bool)
    requires Remaining(before, parentId, rest, limit, quiet) && rest != []
    requires forall r: Row | r.parentId == parentId :: r in now <==> r in before && r.id > rest[0].id
    ensures Remaining(now, parentId, rest[1..], limit, quiet)
  {
    assert rest == [rest[0]] + rest[1..];
  }

  lemma NothingLeft(rows: seq<Row>, parentId: nat, limit: nat, quiet: bool)
    requires Remaining(rows, parentId, [], limit, quiet)
    ensures OnlyLater(rows, parentId, [], limit) && (quiet ==> Of(rows, parentId) == [])
  {
    OfHas(rows, parentId);
    assert Of(rows, parentId) != [] ==> Of(rows, parentId)[0] in Of(rows, parentId);
  }

  // ------------------------------------------------- over the batches

  /** Everything queued or still to come has a larger id than what has run. */
  ghost predicate RanBefore(ran: seq<Row>, rows: seq<Row>, parentId: nat, limit: nat) {
    && (forall r, q | r in ran && q in rows && q.parentId == parentId :: r.id < q.id)
    && (forall r | r in ran :: r.id < limit)
  }

  lemma RanBeforeArrivals(ran: seq<Row>, before: seq<Row>, now: seq<Row>, parentId: nat, limit: nat, nextId: nat)
    requires RanBefore(ran, before, parentId, limit) && limit <= nextId && Extends(before, now, limit)
    ensures RanBefore(ran, now, parentId, nextId)
  {
    assert now == before + now[|before|..];
  }

  lemma RanBeforePending(ran: seq<Row>, before: seq<Row>, now: seq<Row>, parentId: nat, limit: nat)
    requires RanBefore(ran, before, parentId, limit) && Of(now, parentId) == Arbitrate(Of(before, parentId))
    ensures RanBefore(ran, now, parentId, limit)
  {
    OfHas(before, parentId);
    OfHas(now, parentId);
    ArbitrateKeepsRows(Of(before, parentId));
  }

  lemma {:induction false} ArbitrateKeepsRows(rows: seq<Row>)
    ensures forall r :: r in Arbitrate(rows) ==> r in rows
  {
    if rows != [] {
      FoldKeepsRows(Fold([], rows[0]), rows[1..]);
    }
  }

  lemma {:induction false} FoldKeepsRows(fold: Fold, rows: seq<Row>)
    ensures forall r :: r in Output(FoldOn(fold, rows)) ==> r in Output(fold) || r in rows
  {
    if rows != [] {
      FoldKeepsRows(fold, rows[..|rows| - 1]);
    }
  }

  lemma PendingAreIncreasing(rows: seq<Row>, limit: nat, parentId: nat)
    requires Increasing(rows) && forall r | r in rows :: r.id < limit
    ensures Increasing(Of(rows, parentId)) && (forall r | r in Of(rows, parentId) :: r.id < limit)
    ensures forall r :: r in Of(rows, parentId) <==> r in rows && r.parentId == parentId
  {
    FilterIncreasing(rows, ParentIs(parentId));
    OfHas(rows, parentId);
  }

  lemma RanBeforeThem(ran: seq<Row>, rows: seq<Row>, parentId: nat, limit: nat)
    requires RanBefore(ran, rows, parentId, limit)
    ensures Before(ran, Of(rows, parentId)) && forall r | r in ran :: r.id < limit
  {
    OfHas(rows, parentId);
  }

  lemma RanNext(ran: seq<Row>, pending: seq<Row>, rows: seq<Row>, parentId: nat, limit: nat, nextId: nat)
    requires Increasing(ran) && Increasing(pending) && Before(ran, pending)
    requires (forall r | r in ran + pending :: r.id < limit) && limit <= nextId
    requires OnlyLater(rows, parentId, [], limit)
    ensures Increasing(ran + pending) && RanBefore(ran + pending, rows, parentId, nextId)
  {
    var all := ran + pending;
    forall i, j | 0 <= i < j < |all| ensures all[i].id < all[j].id {
      assert i < |ran| <= j ==> all[i] in ran && all[j] in pending;
    }
  }

  /** With no pushes by others: nothing has run yet, or all that arbitration leaves. */
  ghost predicate Batches(start: seq<Row>, now: seq<Row>, ran: seq<Row>) {
    (ran == [] && now == start) || (now == [] && ran == Arbitrate(start))
  }

  lemma NothingRan(rows: seq<Row>, parentId: nat, limit: nat)
    ensures Increasing([]) && RanBefore([], rows, parentId, limit)
    ensures Batches(Of(rows, parentId), Of(rows, parentId), [])
  {
  }

  lemma BatchNext(start: seq<Row>, now: seq<Row>, pending: seq<Row>, ran: seq<Row>)
    requires Batches(start, now, ran) && pending == Arbitrate(now)
    ensures Batches(start, [], ran + pending)
  {
    hide FoldAll;
    if now == [] {
      assert ran + pending == ran;
    } else {
      assert ran + pending == pending;
    }
  }

  lemma BatchesEnd(start: seq<Row>, ran: seq<Row>)
    requires Batches(start, [], ran)
    ensures ran == Arbitrate(start)
  {
  }

  lemma ArbitrateNone()
    ensures Arbitrate([]) == []
  {
  }
}
