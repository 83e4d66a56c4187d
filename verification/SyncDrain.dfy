/**
 From syncs to what a worker runs: the requests that project tasks push, in the
 request table, and one drain of them by the loop as it is written.
 */
module SyncDrain {
  import opened Common
  import opened Arbitration
  import opened ActivationWorld
  import opened SyncRuns
  import RequestQueue
  import LoopSteps
  import DrainLoop
  import DrainProtocol

  lemma KindsSnoc(rows: seq<Row>, row: Row)
    ensures Kinds(rows + [row]) == Kinds(rows) + [row.request]
  {
  }

  /** Puts what the tasks pushed into the table, in order; for an activation that exists all of it gets in. */
  method Enqueue(table: RequestQueue.RequestTable, pushes: seq<Pushed>)
    requires table.Valid()
    modifies table
    ensures table.Valid() && table.parents == old(table.parents)
    ensures forall a | a in table.parents ::
      Kinds(Of(table.rows, a)) == Kinds(Of(old(table.rows), a)) + PushesOf(pushes, a)
  {
    hide Of, PushesOf, Kinds;
    NonePushed();
    for i := 0 to |pushes|
      invariant table.Valid() && table.parents == old(table.parents)
      invariant forall a | a in table.parents ::
        Kinds(Of(table.rows, a)) == Kinds(Of(old(table.rows), a)) + PushesOf(pushes[..i], a)
    {
      ghost var rows, row := table.rows, Row(table.nextId, pushes[i].id, pushes[i].request, "");
      var outcome := table.Push(RequestQueue.ActivationParent, pushes[i].id, pushes[i].request, "");
      assert pushes[..i + 1] == pushes[..i] + [pushes[i]];
      forall a | a in table.parents
        ensures Kinds(Of(table.rows, a)) == Kinds(Of(old(table.rows), a)) + PushesOf(pushes[..i + 1], a)
      {
        LoopSteps.OfSnoc(rows, row, a);
        KindsSnoc(Of(rows, a), row);
        PushesOfSnoc(pushes[..i], pushes[i], a);
        ghost var first, more := Kinds(Of(old(table.rows), a)), PushesOf(pushes[..i], a);
        assert first + (more + [row.request]) == first + more + [row.request];
        assert more + [] == more && Of(rows, a) + [] == Of(rows, a);
      }
    }
    assert pushes[..|pushes|] == pushes;
  }

  lemma NonePushed()
    ensures forall a :: PushesOf([], a) == []
  {
  }

  /**
   Whatever syncs and monitor passes there were, and whatever they pushed: a worker that
   gets the lock afterwards, with nobody else pushing, runs one request at most, the
   first of them, and leaves nothing queued.
   */
  method DrainAfterSyncs(worker: DrainLoop.Worker, ghost w: World, ghost hs: seq<Happening>, a: nat, status: Status,
                         queue: Option<string>, localQueue: string)
    returns (monitored: bool, ghost ran: seq<Row>)
    requires Valid(w) && a in w.rows && PushesOf(w.pushes, a) == [] && a in worker.table.parents
    requires Kinds(Of(worker.table.rows, a)) == PushesOf(AfterAll(w, hs).pushes, a)
    requires worker.table.Valid() && worker.Follows(a, DrainProtocol.Acquired) && worker.arrivals == []
    modifies worker, worker.table
    ensures worker.executed == old(worker.executed) + ran && |ran| <= 1 && Of(worker.table.rows, a) == []
    ensures var queued := Of(old(worker.table.rows), a);
      && ran == (if queued == [] then [] else [queued[0]])
      && (ran == [] <==> PushesOf(AfterAll(w, hs).pushes, a) == [])
  {
    hide PushesOf, AfterAll, Of, Valid, Arbitrate, LoopSteps.Mirror, DrainProtocol.Exec;
    AnySyncsThenDrain(w, hs, a, Of(worker.table.rows, a));
    monitored, ran := worker.ManageNoLock(a, status, queue, localQueue);
  }

  /** For syncs of one commit it is a Restart, run exactly if one of them found the activation failed and could push. */
  method DrainAfterRepeatedSyncs(worker: DrainLoop.Worker, ghost w: World, ghost pid: nat, ghost gitHash: string,
                                 ghost events: seq<Event>, a: nat, status: Status, queue: Option<string>,
                                 localQueue: string)
    returns (monitored: bool, ghost ran: seq<Row>)
    requires Fresh(w, pid, gitHash, a) && PushesOf(w.pushes, a) == [] && a in worker.table.parents
    requires Kinds(Of(worker.table.rows, a)) == PushesOf(HappenAll(w, pid, gitHash, events).pushes, a)
    requires worker.table.Valid() && worker.Follows(a, DrainProtocol.Acquired) && worker.arrivals == []
    modifies worker, worker.table
    ensures worker.executed == old(worker.executed) + ran && Of(worker.table.rows, a) == []
    ensures if Retries(w, pid, gitHash, events, a) == 0 then ran == [] else |ran| == 1 && ran[0].request == Restart
  {
    hide PushesOf, HappenAll, Of, Retries, Fresh, Arbitrate, LoopSteps.Mirror, DrainProtocol.Exec;
    RepeatedSyncsThenDrain(w, pid, gitHash, events, a, Of(worker.table.rows, a));
    monitored, ran := worker.ManageNoLock(a, status, queue, localQueue);
  }
}
