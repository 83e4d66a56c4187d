/**
 Routing a request to a worker queue: the least busy healthy queue for a new process,
 the queue of its process otherwise, and a status that says so when nothing is healthy.
 */
module Dispatch {
  import opened Common
  import opened Arbitration
  import opened ActivationWorld

  /** A rulebook process, the activation it belongs to, and the queue that runs it. */
  datatype Process = Process(activation: nat, status: Status, queue: Option<string>)

  /** One health check and its answer, which may differ from one check to the next. */
  datatype Check = Check(queue: string, alive: bool)

  datatype Enqueued = Enqueued(queue: string, id: nat)

  /** The kind of a dispatch; no request means that the activation is to be monitored. */
  datatype Task = Perform(request: Request) | Watch

  datatype NoQueue = HealthyQueueNotFound

  predicate Counted(p: Process, queue: string) {
    (p.status == Running || p.status == Starting) && p.queue == Some(queue)
  }

  /** The number of running and starting processes of a queue. */
  function Load(processes: seq<Process>, queue: string): nat {
    if processes == [] then 0
    else Load(processes[..|processes| - 1], queue) + if Counted(processes[|processes| - 1], queue) then 1 else 0
  }

  /** The processes that count: what a queue runs, or is about to. */
  ghost function RunningOrStarting(processes: seq<Process>, queue: string): set<nat> {
    set i: nat | i < |processes| && processes[i].queue == Some(queue)
      && (processes[i].status == Running || processes[i].status == Starting)
  }

  lemma {:induction false} LoadCounts(processes: seq<Process>, queue: string)
    ensures Load(processes, queue) == |RunningOrStarting(processes, queue)|
  {
    if processes != [] {
      var n := |processes| - 1;
      LoadCounts(processes[..n], queue);
      var before, all := RunningOrStarting(processes[..n], queue), RunningOrStarting(processes, queue);
      assert all == before + if n in all then {n} else {};
    }
  }

  ghost predicate Alive(probes: seq<Check>, queue: string) { Check(queue, true) in probes }

  /** The probes are one check of each configured queue, in order. */
  ghost predicate Probed(probes: seq<Check>, configured: seq<string>) {
    |probes| == |configured| && forall i | 0 <= i < |probes| :: probes[i].queue == configured[i]
  }

  ghost predicate LeastBusy(processes: seq<Process>, probes: seq<Check>, queue: string) {
    Alive(probes, queue) && forall q :: Alive(probes, q) ==> Load(processes, queue) <= Load(processes, q)
  }

  /** What a dispatch reads and may change. */
  datatype Tables = Tables(processes: seq<Process>, statuses: map<nat, Status>)

  /** One dispatch: what it was asked, what it found, where the task went, and the tables before and after. */
  datatype Turn = Turn(
    id: nat, task: Task, lockFree: bool, before: Tables, queue: Option<string>, probes: seq<Check>, after: Tables)

  class Dispatcher {
    const configured: seq<string>
    var processes: seq<Process>
    var statuses: map<nat, Status>
    /** Latest process of each activation that has one, as an index of `processes`. */
    var latest: map<nat, nat>
    var answers: seq<bool>
    var asked: nat
    var enqueued: seq<Enqueued>
    ghost var checks: seq<Check>

    ghost predicate Valid()
      reads this
    {
      forall id | id in latest :: latest[id] < |processes|
    }

    constructor (queues: seq<string>, answers: seq<bool>)
      ensures Valid() && configured == queues && enqueued == [] && checks == []
    {
      configured, processes, statuses, latest := queues, [], map[], map[];
      this.answers, asked, enqueued, checks := answers, 0, [], [];
    }

    method CheckQueueHealth(queue: string) returns (alive: bool)
      modifies `asked, `checks
      ensures checks == old(checks) + [Check(queue, alive)] && asked == old(asked) + 1
      ensures alive == (old(asked) < |answers| && answers[old(asked)])
    {
      alive := asked < |answers| && answers[asked];
      asked := asked + 1;
      checks := checks + [Check(queue, alive)];
    }

    /** The choice among queues of equal load is arbitrary. */
    method GetLeastBusyQueueName() returns (r: Result<string, NoQueue>, ghost probes: seq<Check>)
      modifies `asked, `checks
      ensures checks == old(checks) + probes && Probed(probes, configured)
      ensures r.Ok? ==> r.value in configured && LeastBusy(processes, probes, r.value)
      ensures r.Err? ==> forall q :: !Alive(probes, q)
    {
      var counter: map<string, nat> := map[];
      probes := [];
      for i := 0 to |configured|
        invariant checks == old(checks) + probes && Probed(probes, configured[..i])
        invariant forall q :: q in counter <==> Alive(probes, q)
        invariant forall q | q in counter :: q in configured && counter[q] == Load(processes, q)
      {
        var alive := CheckQueueHealth(configured[i]);
        ghost var before := probes;
        probes := probes + [Check(configured[i], alive)];
        AliveSnoc(before, Check(configured[i], alive));
        if !alive {
          continue;
        }
        counter := counter[configured[i] := Load(processes, configured[i])];
      }
      if counter == map[] {
        return Err(HealthyQueueNotFound), probes;
      }
      var minCount := MinCount(counter);
      var leastCommon := set q | q in counter && counter[q] == minCount;
      ghost var least :| least in counter && counter[least] == minCount;
      assert least in leastCommon;
      var queue :| queue in leastCommon;
      r := Ok(queue);
    }

    /** The queue of the latest process; an empty name is none. */
    method QueueOf(id: nat) returns (queue: Option<string>)
      requires Valid()
      ensures queue == Own(processes, latest, id)
    {
      queue := None;
      if id in latest && processes[latest[id]].queue != Some("") {
        queue := processes[latest[id]].queue;
      }
    }

    method SetStatus(id: nat, status: Status)
      modifies `statuses
      ensures statuses == old(statuses)[id := status]
    {
      statuses := statuses[id := status];
    }

    method SetLatestInstanceStatus(id: nat, status: Status)
      requires Valid()
      modifies `processes
      ensures Valid()
      ensures id !in latest ==> processes == old(processes)
      ensures id in latest ==> processes == old(processes)[latest[id] := old(processes)[latest[id]].(status := status)]
    {
      if id in latest {
        processes := processes[latest[id] := processes[latest[id]].(status := status)];
      }
    }

    /** No queue for the request: the activation waits. */
    method LeastBusyOrPending(id: nat) returns (queue: Option<string>, ghost probes: seq<Check>)
      requires Valid()
      modifies `asked, `checks, `statuses
      ensures Valid() && checks == old(checks) + probes && Probed(probes, configured)
      ensures queue.Some? ==> queue.value in configured && LeastBusy(processes, probes, queue.value)
      ensures queue.Some? ==> statuses == old(statuses)
      ensures queue.None? ==> (forall q :: !Alive(probes, q)) && statuses == old(statuses)[id := Pending]
    {
      var r;
      r, probes := GetLeastBusyQueueName();
      match r
      case Ok(name) => queue := Some(name);
      case Err(_) =>
        SetStatus(id, Pending);
        queue := None;
    }

    /** The queue of the process is not alive: only a restart may go elsewhere. */
    method HandleUnhealthyQueue(id: nat, task: Task) returns (queue: Option<string>, ghost probes: seq<Check>)
      requires Valid() && id in statuses && id in latest
      modifies `asked, `checks, `statuses, `processes
      ensures Valid() && checks == old(checks) + probes
      ensures if task == Perform(Restart) then Probed(probes, configured) && ToLeastBusy(old(processes), queue, probes)
              else queue == None && probes == []
      ensures queue.Some? ==> statuses == old(statuses) && processes == old(processes)
      ensures queue.None? ==>
        var verdict := if task == Perform(Restart) || old(statuses)[id] == Pending then Pending else WorkersOffline;
        && statuses == old(statuses)[id := verdict]
        && processes == InstanceAfter(old(processes), latest, id, old(statuses)[id], verdict)
    {
      if task != Perform(Restart) {
        if statuses[id] == Pending || statuses[id] == WorkersOffline {
          assert statuses == statuses[id := statuses[id]];
          return None, [];
        }
        SetStatus(id, WorkersOffline);
        SetLatestInstanceStatus(id, WorkersOffline);
        return None, [];
      }
      queue, probes := LeastBusyOrPending(id);
    }

    /** The queue of its process if that answers; otherwise see above. */
    method ResolveExistingQueue(id: nat, task: Task) returns (queue: Option<string>, ghost probes: seq<Check>)
      requires Valid() && id in statuses
      modifies `asked, `checks, `statuses, `processes
      ensures Valid() && checks == old(checks) + probes
      ensures Resolved(Own(old(processes), latest, id), configured, old(processes), task, queue, probes)
      ensures queue.Some? ==> statuses == old(statuses) && processes == old(processes)
      ensures queue.None? ==>
        var verdict := Verdict(Own(old(processes), latest, id), configured, task, old(statuses)[id]);
        && statuses == old(statuses)[id := verdict]
        && processes == InstanceAfter(old(processes), latest, id, old(statuses)[id], verdict)
    {
      var own := QueueOf(id);
      if own.None? || own.value !in configured {
        queue, probes := LeastBusyOrPending(id);
        return;
      }
      var alive := CheckQueueHealth(own.value);
      ghost var first := [Check(own.value, alive)];
      if !alive {
        queue, probes := HandleUnhealthyQueue(id, task);
        AliveAfterDead(own.value, probes);
        probes := first + probes;
        return;
      }
      assert first[0] == Check(own.value, true);
      return own, first;
    }

    function Now(): Tables
      reads this
    {
      Tables(processes, statuses)
    }

    /**
     One dispatch. Nothing happens for an activation that is gone or already being
     worked on. Past that it is either enqueued once, on a configured queue that
     answered, or declined with a status that says so. `probes` are its health checks.
     */
    method QueueDispatch(id: nat, task: Task, lockFree: bool)
      returns (ghost queue: Option<string>, ghost probes: seq<Check>)
      requires Valid()
      modifies `asked, `checks, `statuses, `processes, `enqueued
      ensures Valid() && checks == old(checks) + probes
      ensures enqueued == old(enqueued) + if queue.Some? then [Enqueued(queue.value, id)] else []
      ensures Dispatched(configured, latest, Turn(id, task, lockFree, old(Now()), queue, probes, Now()))
    {
      queue, probes := None, [];
      if id !in statuses || !lockFree {
        return;
      }
      var target;
      if task == Perform(Start) || task == Perform(AutoStart) {
        target, probes := LeastBusyOrPending(id);
      } else {
        target, probes := ResolveExistingQueue(id, task);
        if target.Some? {
          ResolvedIsRoutable(Own(old(processes), latest, id), configured, old(processes), task, target, probes);
        }
      }
      queue := target;
      if target.None? {
        return;
      }
      enqueued := enqueued + [Enqueued(target.value, id)];
    }

    /** The activations of the processes that are to be looked after, as the query returns them. */
    method LiveActivations() returns (live: seq<nat>, ghost at: seq<nat>)
      ensures AreLive(processes, live, at)
    {
      live, at := [], [];
      for i := 0 to |processes|
        invariant AreLiveUpto(processes, i, live, at)
      {
        if processes[i].status in {Starting, Running, WorkersOffline} {
          live := live + [processes[i].activation];
          at := at + [i];
        }
      }
    }

    /**
     The scheduled task: every pending request is dispatched, in order, and then every
     process that is starting, running or offline after that. `lockFree` says of each
     dispatch whether the lock is free. What is enqueued are the accepted ones, so all
     of it belongs to a request or a live process and goes to a queue that answered.
     */
    method MonitorRulebookProcesses(requests: seq<(nat, Request)>, lockFree: nat -> bool)
      returns (ghost turns: seq<Turn>, ghost live: seq<nat>, ghost at: seq<nat>)
      requires Valid()
      modifies `asked, `checks, `statuses, `processes, `enqueued
      ensures Valid() && Runs(configured, latest, turns, old(Now()), Now())
      ensures enqueued == old(enqueued) + Accepted(turns) && checks == old(checks) + ProbesOf(turns)
      ensures |turns| == |requests| + |live|
      ensures AskedAll(turns[..|requests|], requests, lockFree)
      ensures WatchedAll(turns[|requests|..], live, lockFree, |requests|)
      ensures AreLive(Reached(turns, old(Now()), |requests|).processes, live, at)
    {
      hide Runs, Dispatched, AreLive, Accepted, ProbesOf;
      turns := NoTurns();
      for i := 0 to |requests|
        invariant Valid() && |turns| == i && Runs(configured, latest, turns, old(Now()), Now())
        invariant enqueued == old(enqueued) + Accepted(turns) && checks == old(checks) + ProbesOf(turns)
        invariant AskedAll(turns, requests[..i], lockFree)
      {
        ghost var turn := DispatchNext(turns, old(Now()), old(enqueued), old(checks), requests[i].0,
                                       Perform(requests[i].1), lockFree(i));
        turns := turns + [turn];
      }
      RunsTo(configured, latest, turns, old(Now()), Now());
      ghost var more;
      live, at, more := WatchProcesses(turns, old(Now()), old(enqueued), old(checks), lockFree, |requests|);
      TwoHalves(turns, more, requests, live, lockFree, old(Now()));
      turns := turns + more;
    }

    /** The second half of the pass: what was dispatched so far goes on with the live processes. */
    method WatchProcesses(ghost turns: seq<Turn>, ghost start: Tables, ghost had: seq<Enqueued>, ghost made: seq<Check>,
                          lockFree: nat -> bool, base: nat)
      returns (ghost live: seq<nat>, ghost at: seq<nat>, ghost more: seq<Turn>)
      requires Valid() && Runs(configured, latest, turns, start, Now()) && base == |turns|
      requires enqueued == had + Accepted(turns) && checks == made + ProbesOf(turns)
      modifies `asked, `checks, `statuses, `processes, `enqueued
      ensures Valid() && Runs(configured, latest, turns + more, start, Now())
      ensures enqueued == had + Accepted(turns + more) && checks == made + ProbesOf(turns + more)
      ensures |more| == |live| && AreLive(old(processes), live, at)
      ensures WatchedAll(more, live, lockFree, base)
    {
      hide Runs, Dispatched, AreLive, Accepted, ProbesOf;
      var watched;
      watched, at := LiveActivations();
      live, more := watched, [];
      assert turns + [] == turns;
      for i := 0 to |watched|
        invariant Valid() && |more| == i && Runs(configured, latest, turns + more, start, Now())
        invariant enqueued == had + Accepted(turns + more) && checks == made + ProbesOf(turns + more)
        invariant WatchedAll(more, live[..i], lockFree, base)
      {
        ghost var turn := DispatchNext(turns + more, start, had, made, watched[i], Watch, lockFree(base + i));
        assert turns + (more + [turn]) == turns + more + [turn];
        more := more + [turn];
      }
    }

    /** One more dispatch of a pass. */
    method DispatchNext(ghost turns: seq<Turn>, ghost start: Tables, ghost had: seq<Enqueued>, ghost made: seq<Check>,
                        id: nat, task: Task, lockFree: bool)
      returns (ghost turn: Turn)
      requires Valid() && Runs(configured, latest, turns, start, Now())
      requires enqueued == had + Accepted(turns) && checks == made + ProbesOf(turns)
      modifies `asked, `checks, `statuses, `processes, `enqueued
      ensures Valid() && Runs(configured, latest, turns + [turn], start, Now()) && Asks(turn, id, task, lockFree)
      ensures enqueued == had + Accepted(turns + [turn]) && checks == made + ProbesOf(turns + [turn])
      ensures turn.after == Now()
    {
      hide Runs, Dispatched, Accepted, ProbesOf;
      ghost var before := Now();
      ghost var queue, probes := QueueDispatch(id, task, lockFree);
      turn := Turn(id, task, lockFree, before, queue, probes, Now());
      RunsOn(configured, latest, turns, start, turn);
    }

    ghost method NoTurns() returns (turns: seq<Turn>)
      ensures turns == [] && Runs(configured, latest, turns, Now(), Now())
      ensures Accepted(turns) == [] && ProbesOf(turns) == []
    {
      turns := [];
    }
  }

  // ------------------------------------------------------- what a scheduled pass comes to

  /** `live` are the activations of the starting, running and offline processes, found at the positions `at`. */
  ghost predicate AreLive(processes: seq<Process>, live: seq<nat>, at: seq<nat>) {
    AreLiveUpto(processes, |processes|, live, at)
  }

  ghost predicate AreLiveUpto(processes: seq<Process>, n: nat, live: seq<nat>, at: seq<nat>)
    requires n <= |processes|
  {
    && |at| == |live|
    && (forall j | 0 <= j < |at| :: at[j] < n && live[j] == processes[at[j]].activation)
    && (forall j, k | 0 <= j < k < |at| :: at[j] < at[k])
    && (forall i: nat | i < n :: i in at <==>
          || processes[i].status == Starting || processes[i].status == Running
          || processes[i].status == WorkersOffline)
  }

  ghost predicate Asks(turn: Turn, id: nat, task: Task, lockFree: bool) {
    turn.id == id && turn.task == task && turn.lockFree == lockFree
  }

  /** The dispatches of all requests, each with its lock. */
  ghost predicate AskedAll(turns: seq<Turn>, requests: seq<(nat, Request)>, lockFree: nat -> bool) {
    |turns| == |requests|
    && forall i | 0 <= i < |turns| :: Asks(turns[i], requests[i].0, Perform(requests[i].1), lockFree(i))
  }

  /** And of all processes that are looked after; their locks come behind the first `base`. */
  ghost predicate WatchedAll(turns: seq<Turn>, live: seq<nat>, lockFree: nat -> bool, base: nat) {
    |turns| == |live| && forall i | 0 <= i < |turns| :: Asks(turns[i], live[i], Watch, lockFree(base + i))
  }

  lemma TwoHalves(turns: seq<Turn>, more: seq<Turn>, requests: seq<(nat, Request)>, live: seq<nat>,
                  lockFree: nat -> bool, start: Tables)
    requires AskedAll(turns, requests, lockFree) && WatchedAll(more, live, lockFree, |requests|)
    ensures var all := turns + more;
      && AskedAll(all[..|requests|], requests, lockFree) && WatchedAll(all[|requests|..], live, lockFree, |requests|)
      && Reached(all, start, |requests|) == Reached(turns, start, |requests|)
  {
    assert (turns + more)[..|requests|] == turns && (turns + more)[|requests|..] == more;
  }

  /** The tables after the first `n` dispatches. */
  ghost function Reached(turns: seq<Turn>, start: Tables, n: nat): Tables
    requires n <= |turns|
  {
    if n == 0 then start else turns[n - 1].after
  }

  /** One dispatch after the other, each as `QueueDispatch` promises. */
  ghost predicate Runs(configured: seq<string>, latest: map<nat, nat>, turns: seq<Turn>, start: Tables, end: Tables) {
    && Reached(turns, start, |turns|) == end
    && (forall i | 0 <= i < |turns| :: turns[i].before == Reached(turns, start, i))
    && (forall i | 0 <= i < |turns| :: Dispatched(configured, latest, turns[i]))
  }

  /** The tasks that were enqueued, in order. */
  ghost function Accepted(turns: seq<Turn>): seq<Enqueued> {
    if turns == [] then []
    else
      var last := turns[|turns| - 1];
      Accepted(turns[..|turns| - 1]) + if last.queue.Some? then [Enqueued(last.queue.value, last.id)] else []
  }

  ghost function ProbesOf(turns: seq<Turn>): seq<Check> {
    if turns == [] then [] else ProbesOf(turns[..|turns| - 1]) + turns[|turns| - 1].probes
  }

  lemma RunsTo(configured: seq<string>, latest: map<nat, nat>, turns: seq<Turn>, start: Tables, end: Tables)
    requires Runs(configured, latest, turns, start, end)
    ensures Reached(turns, start, |turns|) == end
  {
  }

  lemma RunsOn(configured: seq<string>, latest: map<nat, nat>, turns: seq<Turn>, start: Tables, turn: Turn)
    requires Runs(configured, latest, turns, start, turn.before) && Dispatched(configured, latest, turn)
    ensures Runs(configured, latest, turns + [turn], start, turn.after)
    ensures forall n: nat | n <= |turns| :: Reached(turns + [turn], start, n) == Reached(turns, start, n)
    ensures ProbesOf(turns + [turn]) == ProbesOf(turns) + turn.probes
    ensures Accepted(turns + [turn])
      == Accepted(turns) + if turn.queue.Some? then [Enqueued(turn.queue.value, turn.id)] else []
  {
    hide Dispatched;
    var all := turns + [turn];
    assert all[..|turns|] == turns;
    forall i | 0 <= i < |all|
      ensures all[i].before == Reached(all, start, i) && Dispatched(configured, latest, all[i])
    {
      assert i < |turns| ==> all[i] == turns[i] && Reached(all, start, i) == Reached(turns, start, i);
    }
  }

  /** Whoever is enqueued was accepted by a dispatch, and the other way round. */
  lemma {:induction false} AcceptedIff(turns: seq<Turn>, e: Enqueued)
    ensures e in Accepted(turns)
       <==> exists i :: 0 <= i < |turns| && turns[i].queue == Some(e.queue) && turns[i].id == e.id
  {
    if turns != [] {
      var n := |turns| - 1;
      AcceptedIff(turns[..n], e);
      if e in Accepted(turns[..n]) {
        var i :| 0 <= i < n && turns[..n][i].queue == Some(e.queue) && turns[..n][i].id == e.id;
        assert turns[i].queue == Some(e.queue);
      }
      if i :| 0 <= i < |turns| && turns[i].queue == Some(e.queue) && turns[i].id == e.id {
        assert i < n ==> turns[..n][i] == turns[i];
      }
    }
  }

  /** Dispatches create no activation and remove none. */
  lemma {:induction false} KnownStay(configured: seq<string>, latest: map<nat, nat>, turns: seq<Turn>, start: Tables,
                                     end: Tables, n: nat)
    requires Runs(configured, latest, turns, start, end) && n <= |turns|
    ensures Reached(turns, start, n).statuses.Keys == start.statuses.Keys
  {
    hide Dispatched;
    if n > 0 {
      KnownStay(configured, latest, turns, start, end, n - 1);
      TurnKeepsKnown(configured, latest, turns[n - 1]);
    }
  }

  lemma TurnKeepsKnown(configured: seq<string>, latest: map<nat, nat>, turn: Turn)
    requires Dispatched(configured, latest, turn)
    ensures turn.after.statuses.Keys == turn.before.statuses.Keys
  {
    hide Resolved, Probed, InstanceAfter, Verdict, ToLeastBusy;
  }

  /**
   In a scheduled pass during which every queue that is asked answers, a dispatch is
   enqueued exactly when its activation exists and nobody holds the lock.
   */
  lemma {:induction false} AnsweredIsEnqueued(configured: seq<string>, latest: map<nat, nat>, turns: seq<Turn>,
                                              start: Tables, end: Tables, i: nat)
    requires Runs(configured, latest, turns, start, end) && i < |turns| && configured != []
    requires forall k | 0 <= k < |turns[i].probes| :: turns[i].probes[k].alive
    ensures turns[i].queue.Some? <==> turns[i].id in start.statuses && turns[i].lockFree
    ensures turns[i].queue.Some? ==> Enqueued(turns[i].queue.value, turns[i].id) in Accepted(turns)
  {
    KnownStay(configured, latest, turns, start, end, i);
    assert Dispatched(configured, latest, turns[i]);
    if turns[i].queue.Some? {
      AcceptedIff(turns, Enqueued(turns[i].queue.value, turns[i].id));
    } else if turns[i].id in start.statuses && turns[i].lockFree {
      SomeoneAnswered(configured, turns[i].probes);
    }
  }

  lemma SomeoneAnswered(configured: seq<string>, probes: seq<Check>)
    requires configured != [] && forall k | 0 <= k < |probes| :: probes[k].alive
    ensures Probed(probes, configured) ==> Alive(probes, configured[0])
  {
    if Probed(probes, configured) {
      assert probes[0] == Check(configured[0], true);
    }
  }

  /** All that a pass enqueues belongs to a dispatch, and goes to a configured queue that answered it. */
  lemma {:induction false} AcceptedIsRouted(configured: seq<string>, latest: map<nat, nat>, turns: seq<Turn>,
                                            start: Tables, end: Tables, e: Enqueued)
    requires Runs(configured, latest, turns, start, end) && e in Accepted(turns)
    ensures e.queue in configured && e.id in start.statuses
    ensures exists i :: 0 <= i < |turns| && turns[i].id == e.id && turns[i].lockFree && Alive(turns[i].probes, e.queue)
  {
    AcceptedIff(turns, e);
    var i :| 0 <= i < |turns| && turns[i].queue == Some(e.queue) && turns[i].id == e.id;
    assert Dispatched(configured, latest, turns[i]);
    KnownStay(configured, latest, turns, start, end, i);
  }

  // ------------------------------------------------------- one dispatch

  /** The queue of the latest process of an activation, if it has a name. */
  ghost function Own(processes: seq<Process>, latest: map<nat, nat>, id: nat): Option<string> {
    if id in latest && latest[id] < |processes| && processes[latest[id]].queue != Some("") then
      processes[latest[id]].queue
    else None
  }

  /**
   Nothing for an activation that is gone or locked. Otherwise a new process goes to the
   least busy queue and any other task where its process runs; and a task that goes
   nowhere leaves the status that says why, PENDING for a new process.
   */
  ghost predicate Dispatched(configured: seq<string>, latest: map<nat, nat>, t: Turn) {
    var own := Own(t.before.processes, latest, t.id);
    var starts := t.task == Perform(Start) || t.task == Perform(AutoStart);
    if t.id !in t.before.statuses || !t.lockFree then t.queue == None && t.probes == [] && t.after == t.before
    else
      && (if starts then Probed(t.probes, configured) && ToLeastBusy(t.before.processes, t.queue, t.probes)
          else Resolved(own, configured, t.before.processes, t.task, t.queue, t.probes))
      && if t.queue.Some? then t.queue.value in configured && Alive(t.probes, t.queue.value) && t.after == t.before
         else
           var was := t.before.statuses[t.id];
           var verdict := if starts then Pending else Verdict(own, configured, t.task, was);
           && t.after.statuses == t.before.statuses[t.id := verdict]
           && t.after.processes == InstanceAfter(t.before.processes, latest, t.id, was, verdict)
  }

  /**
   The status of an existing activation whose request is declined: its worker is
   offline if its own queue does not answer, unless it is pending anyway; a restart,
   and one without a queue of its own, waits for any worker.
   */
  ghost function Verdict(own: Option<string>, configured: seq<string>, task: Task, before: Status): Status {
    if own.Some? && own.value in configured && task != Perform(Restart) && before != Pending then WorkersOffline
    else Pending
  }

  /** The latest process follows its activation when that goes offline. */
  ghost function InstanceAfter(processes: seq<Process>, latest: map<nat, nat>, id: nat, before: Status, verdict: Status)
    : seq<Process> {
    if verdict == WorkersOffline && before != WorkersOffline && id in latest && latest[id] < |processes| then
      processes[latest[id] := processes[latest[id]].(status := WorkersOffline)]
    else processes
  }

  /** The least busy of the queues that answered, if any did. */
  ghost predicate ToLeastBusy(processes: seq<Process>, queue: Option<string>, probes: seq<Check>) {
    if queue.Some? then LeastBusy(processes, probes, queue.value) else forall q :: !Alive(probes, q)
  }

  /** Where the request of an existing process goes, given the queue of that process. */
  ghost predicate Resolved(own: Option<string>, configured: seq<string>, processes: seq<Process>, task: Task,
                           queue: Option<string>, probes: seq<Check>) {
    if own.None? || own.value !in configured then Probed(probes, configured) && ToLeastBusy(processes, queue, probes)
    else
      && probes != [] && probes[0].queue == own.value
      && if probes[0].alive then queue == own && |probes| == 1
         else if task == Perform(Restart) then
           Probed(probes[1..], configured) && ToLeastBusy(processes, queue, probes[1..])
         else queue == None && |probes| == 1
  }

  lemma AliveAfterDead(own: string, probes: seq<Check>)
    ensures ([Check(own, false)] + probes)[1..] == probes
  {
  }

  lemma ProbedIn(probes: seq<Check>, configured: seq<string>, queue: string)
    requires Probed(probes, configured) && Alive(probes, queue)
    ensures queue in configured
  {
  }

  lemma ResolvedIsRoutable(own: Option<string>, configured: seq<string>, processes: seq<Process>, task: Task,
                           queue: Option<string>, probes: seq<Check>)
    requires Resolved(own, configured, processes, task, queue, probes) && queue.Some?
    ensures queue.value in configured && Alive(probes, queue.value)
  {
    if own.None? || own.value !in configured {
      ProbedIn(probes, configured, queue.value);
    } else if probes[0].alive {
      assert probes[0] == Check(queue.value, true);
    } else {
      ProbedIn(probes[1..], configured, queue.value);
      var i :| 0 <= i < |probes[1..]| && probes[1..][i] == Check(queue.value, true);
      assert probes[i + 1] == Check(queue.value, true);
    }
  }

  method MinCount(counter: map<string, nat>) returns (least: nat)
    requires counter != map[]
    ensures (exists k :: k in counter && counter[k] == least) && forall k | k in counter :: least <= counter[k]
  {
    var rest := counter.Keys;
    var first :| first in rest;
    least := counter[first];
    rest := rest - {first};
    while rest != {}
      invariant rest <= counter.Keys
      invariant (exists k :: k in counter && counter[k] == least) && forall k | k in counter && k !in rest ::
        least <= counter[k]
      decreases |rest|
    {
      var k :| k in rest;
      if counter[k] < least {
        least := counter[k];
      }
      rest := rest - {k};
    }
  }

  lemma AliveSnoc(probes: seq<Check>, c: Check)
    ensures forall q :: Alive(probes + [c], q) <==> Alive(probes, q) || c == Check(q, true)
  {
  }

  // ------------------------------------------------------- balance

  /** Starts, each on a queue of least load when all queues answer, and counted before the next. */
  ghost predicate LeastEachTime(processes: seq<Process>, queues: set<string>, picks: seq<string>) {
    picks == []
    || (var n := |picks| - 1;
        && LeastEachTime(processes, queues, picks[..n])
        && picks[n] in queues
        && LeastLoad(Started(processes, picks[..n]), queues, picks[n]))
  }

  function StartedOn(queue: string): Process { Process(0, Starting, Some(queue)) }

  ghost predicate LeastLoad(processes: seq<Process>, queues: set<string>, pick: string) {
    forall q | q in queues :: Load(processes, pick) <= Load(processes, q)
  }

  /** The processes after some starts; of which activations makes no difference to the loads. */
  function Started(processes: seq<Process>, picks: seq<string>): seq<Process> {
    processes + seq(|picks|, i requires 0 <= i < |picks| => StartedOn(picks[i]))
  }

  /** No two queues differ by more than `k`. */
  ghost predicate Within(processes: seq<Process>, queues: set<string>, k: nat) {
    forall p, q | p in queues && q in queues :: Load(processes, p) <= Load(processes, q) + k
  }

  lemma LoadSnoc(processes: seq<Process>, p: Process, queue: string)
    ensures Load(processes + [p], queue) == Load(processes, queue) + if Counted(p, queue) then 1 else 0
  {
    assert (processes + [p])[..|processes|] == processes;
  }

  lemma StartedSnoc(processes: seq<Process>, picks: seq<string>)
    requires picks != []
    ensures var n := |picks| - 1; Started(processes, picks) == Started(processes, picks[..n]) + [StartedOn(picks[n])]
  {
  }

  /** One start on a queue of least load. */
  lemma StartKeepsWithin(processes: seq<Process>, queues: set<string>, pick: string, k: nat)
    requires k >= 1 && Within(processes, queues, k) && pick in queues
    requires LeastLoad(processes, queues, pick)
    ensures Within(processes + [StartedOn(pick)], queues, k)
  {
    forall q: string
      ensures Load(processes + [StartedOn(pick)], q) == Load(processes, q) + if q == pick then 1 else 0
    {
      LoadSnoc(processes, StartedOn(pick), q);
    }
  }

  /** However many processes are started, the queues drift no further apart than they were, or than one. */
  lemma {:induction false} StartsStayBalanced(processes: seq<Process>, queues: set<string>, picks: seq<string>, k: nat)
    requires k >= 1 && Within(processes, queues, k) && LeastEachTime(processes, queues, picks)
    ensures Within(Started(processes, picks), queues, k)
  {
    if picks == [] {
      assert Started(processes, picks) == processes;
    } else {
      var n := |picks| - 1;
      StartsStayBalanced(processes, queues, picks[..n], k);
      StartKeepsWithin(Started(processes, picks[..n]), queues, picks[n], k);
      StartedSnoc(processes, picks);
    }
  }

  /** What one dispatch finds is what the balance needs: when every queue answers, the choice has least load. */
  lemma AllAliveIsLeast(processes: seq<Process>, probes: seq<Check>, configured: seq<string>, queue: string)
    requires Probed(probes, configured) && LeastBusy(processes, probes, queue)
    requires forall i | 0 <= i < |probes| :: probes[i].alive
    ensures queue in configured && forall q | q in configured :: Load(processes, queue) <= Load(processes, q)
  {
    forall q | q in configured ensures Alive(probes, q) {
      var i :| 0 <= i < |configured| && configured[i] == q;
      assert probes[i] == Check(q, true);
    }
    assert Check(queue, true) in probes;
  }

  /** One start: what its dispatch probed, and where it went. */
  datatype Round = Round(probes: seq<Check>, queue: Option<string>)

  function PicksOf(rounds: seq<Round>): (picks: seq<string>)
    requires forall i | 0 <= i < |rounds| :: rounds[i].queue.Some?
    ensures |picks| == |rounds|
  {
    seq(|rounds|, i requires 0 <= i < |rounds| => rounds[i].queue.value)
  }

  /** Each start is dispatched as `QueueDispatch` promises, with the processes started before it counted. */
  ghost predicate Dispatches(processes: seq<Process>, configured: seq<string>, rounds: seq<Round>) {
    && (forall i | 0 <= i < |rounds| :: rounds[i].queue.Some? && Probed(rounds[i].probes, configured))
    && (forall i | 0 <= i < |rounds| ::
          ToLeastBusy(Started(processes, PicksOf(rounds)[..i]), rounds[i].queue, rounds[i].probes))
  }

  ghost predicate AllAnswer(rounds: seq<Round>) {
    forall i, j | 0 <= i < |rounds| && 0 <= j < |rounds[i].probes| :: rounds[i].probes[j].alive
  }

  /**
   Any number of dispatched starts, all queues answering, leaves the loads no further apart than
   before, or than one.
   */
  lemma {:induction false} DispatchesStayBalanced(processes: seq<Process>, configured: seq<string>,
                                                  rounds: seq<Round>, k: nat)
    requires k >= 1 && Within(processes, Queues(configured), k) && Dispatches(processes, configured, rounds)
    requires AllAnswer(rounds)
    ensures Within(Started(processes, PicksOf(rounds)), Queues(configured), k)
  {
    var picks := PicksOf(rounds);
    assert picks[..|rounds|] == picks;
    DispatchesPickLeast(processes, configured, rounds, |rounds|);
    StartsStayBalanced(processes, Queues(configured), picks, k);
  }

  function Queues(configured: seq<string>): set<string> { set q | q in configured }

  lemma {:induction false} DispatchesPickLeast(processes: seq<Process>, configured: seq<string>, rounds: seq<Round>,
                                               n: nat)
    requires n <= |rounds| && Dispatches(processes, configured, rounds) && AllAnswer(rounds)
    ensures LeastEachTime(processes, Queues(configured), PicksOf(rounds)[..n])
  {
    if n > 0 {
      var picks := PicksOf(rounds);
      DispatchesPickLeast(processes, configured, rounds, n - 1);
      assert picks[..n][..n - 1] == picks[..n - 1];
      AllAliveIsLeast(Started(processes, picks[..n - 1]), rounds[n - 1].probes, configured, picks[n - 1]);
    }
  }
}
