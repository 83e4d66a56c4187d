/** What every run of the request protocol guarantees, crashes included. */
module DrainSafety {
  import opened Common
  import opened Arbitration
  import opened DrainProtocol

  // ------------------------------------------------------ mutual exclusion

  /** While a worker drains the queue of an activation, in any run, nobody else does, nor probes its lock. */
  lemma MutualExclusion(s0: State, steps: seq<Step>, a: nat, b: nat)
    requires Init(s0)
    requires Draining(PhaseOf(Exec(s0, steps), a))
    requires Draining(PhaseOf(Exec(s0, steps), b)) || PhaseOf(Exec(s0, steps), b).Probing?
    ensures a == b
  {
    InitInv(s0);
    ExecInv(s0, steps);
    HolderIs(Exec(s0, steps), a);
    HolderIs(Exec(s0, steps), b);
  }

  /**
   A dispatcher starts only for an activation that exists and whose lock is free. It lets
   go of the lock at once, and then either leaves no trace or has one job waiting.
   */
  lemma DispatchLeavesNoTrace(s: State, a: nat)
    requires PhaseOf(s, a).Gone?
    ensures !s.parentExists || s.lock.Some? ==> Apply(s, Dispatch(a)) == s
    ensures s.parentExists && s.lock == None ==>
      var probed := Apply(Apply(s, Dispatch(a)), EndProbe(a));
      && PhaseOf(Apply(s, Dispatch(a)), a).Probing? && Apply(s, Dispatch(a)).lock == Some(a)
      && Apply(probed, Decline(a)) == s.(actors := s.actors[a := Gone])
      && Apply(probed, Submit(a)) == s.(actors := s.actors[a := Submitted])
  {
  }

  // ------------------------------------------------------ fate of a request

  /** In how many of the four places a committed request is to be found. */
  ghost function Fates(s: State, r: Row): nat {
    (if r in s.queue && !InFlight(s, r) then 1 else 0) + (if r in s.log then 1 else 0)
    + (if r in s.superseded then 1 else 0) + (if r in s.purged then 1 else 0)
  }

  ghost predicate StrictlyIncreasing(log: seq<Row>) {
    forall i, j | 0 <= i < j < |log| :: log[i].id < log[j].id
  }

  lemma TwiceCounts(log: seq<Row>, i: nat, j: nat)
    requires i < j < |log| && log[i] == log[j]
    ensures multiset(log)[log[i]] >= 2
  {
    assert log == log[..j] + log[j..];
    assert log[i] in log[..j] && log[j..][0] == log[i];
    assert multiset(log[..j])[log[i]] >= 1 && multiset(log[j..])[log[i]] >= 1;
  }

  /** With no crash in flight, every committed request has exactly one fate, and starts go strictly up in id. */
  lemma {:induction false} ExactlyOneFate(s0: State, steps: seq<Step>)
    requires Init(s0) && Exec(s0, steps).interrupted == multiset{}
    ensures forall r | r in Exec(s0, steps).committed :: Fates(Exec(s0, steps), r) == 1
    ensures StrictlyIncreasing(Exec(s0, steps).log)
  {
    var s := Exec(s0, steps);
    InitInv(s0);
    ExecInv(s0, steps);
    forall r | r in s.committed ensures Fates(s, r) == 1 {
      OneFate(s, r);
    }
    StartsGoUp(s);
  }

  lemma OneFate(s: State, r: Row)
    requires Inv(s) && s.interrupted == multiset{} && r in s.committed
    ensures Fates(s, r) == 1
  {
    assert Idle(s, r) ==> multiset(s.log)[r] == 0;
    assert r in s.log <==> multiset(s.log)[r] > 0;
    if InFlight(s, r) {
      assert r in s.log;
    }
  }

  lemma StartsGoUp(s: State)
    requires Inv(s) && s.interrupted == multiset{}
    ensures StrictlyIncreasing(s.log)
  {
    forall i, j | 0 <= i < j < |s.log| ensures s.log[i].id < s.log[j].id {
      if s.log[i].id == s.log[j].id {
        SameIdSameRow(s.committed, s.log[i], s.log[j]);
        TwiceCounts(s.log, i, j);
      }
    }
  }

  lemma SameIdSameRow(rows: seq<Row>, a: Row, b: Row)
    requires Increasing(rows) && a in rows && b in rows && a.id == b.id
    ensures a == b
  {
  }

  /** A run in which nobody crashes interrupts nothing. */
  lemma {:induction false} CrashFreeRun(s0: State, steps: seq<Step>)
    requires Init(s0) && forall i | 0 <= i < |steps| :: !steps[i].Crash?
    ensures Exec(s0, steps).interrupted == multiset{}
  {
    hide Apply;
    if steps != [] {
      CrashFreeRun(s0, steps[..|steps| - 1]);
      OnlyCrashesInterrupt(Exec(s0, steps[..|steps| - 1]), steps[|steps| - 1]);
    }
  }

  lemma OnlyCrashesInterrupt(s: State, step: Step)
    requires !step.Crash?
    ensures Apply(s, step).interrupted == s.interrupted
  {
  }

  /**
   Whatever crashes: no committed request is lost; starts never go back in id;
   and a request is started at most once more than it was cut short in flight.
   */
  lemma {:induction false} CrashesLoseNothing(s0: State, steps: seq<Step>)
    requires Init(s0)
    ensures var s := Exec(s0, steps);
      && (forall r | r in s.committed :: r in s.queue || r in s.log || r in s.superseded || r in s.purged)
      && (forall i, j | 0 <= i < j < |s.log| :: s.log[i].id <= s.log[j].id)
      && (forall r :: multiset(s.log)[r] <= s.interrupted[r] + 1)
  {
    InitInv(s0);
    ExecInv(s0, steps);
  }

  /** Only the latest started request can be started again, and only after a crash in flight. */
  lemma OnlyInterruptedRunsAgain(s: State, a: nat)
    requires Inv(s) && PhaseOf(s, a).Serving? && PhaseOf(s, a).todo != []
    ensures var r := PhaseOf(s, a).todo[0];
      r in s.log ==> s.log[|s.log| - 1] == r && s.interrupted[r] >= multiset(s.log)[r] > 0
  {
    var r := PhaseOf(s, a).todo[0];
    HolderIs(s, a);
    assert r in s.queue;
    if r in s.log {
      assert Idle(s, r);
      SameIdSameRow(s.committed, r, s.log[|s.log| - 1]);
    }
  }

  /** pop_until takes out of the queue only a request that was started. */
  lemma PopTakesOnlyTheServed(s: State, a: nat, r: Row)
    requires Inv(s) && r in s.queue && r !in PopRows(s, a).queue
    ensures PhaseOf(s, a).Popping? && r == PhaseOf(s, a).req && r in s.log
  {
    var p := PhaseOf(s, a);
    HolderIs(s, a);
    PopExact(s, p);
    PoppingFacts(s, p);
    if p.req in s.queue {
      TailOf(s.queue, p.req);
    }
  }

  // ------------------------------------------- arbitration cut short

  /** What the fetch in progress will serve if nothing interrupts it. */
  function Plan(p: Phase): seq<Row>
    requires p.Arbitrating?
  {
    Output(FoldOn(p.fold, p.rest))
  }

  lemma FetchPlans(s: State, a: nat)
    requires PhaseOf(s, a).Head? && |s.queue| >= 2
    ensures PhaseOf(FetchRows(s, a), a).Arbitrating? && Plan(PhaseOf(FetchRows(s, a), a)) == Arbitrate(s.queue)
  {
  }

  /** The plan stands at every step of the fetch, and is what is served in the end. */
  lemma PlanStands(s: State, a: nat, step: Step)
    requires Inv(s) && PhaseOf(s, a).Arbitrating?
    ensures var p, q := PhaseOf(s, a), PhaseOf(Apply(s, step), a);
      && (q.Arbitrating? ==> Plan(q) == Plan(p) && q.mark == p.mark)
      && (q.Serving? ==> q.todo == Plan(p) && q.mark == p.mark)
      && (q.Arbitrating? || q.Serving? || q == Gone)
  {
    hide Inv, Apply, Plan;
    if step.DrawId? {
      DrawMovesNobody(s, a);
    } else if step.Push? {
      PushMovesNobody(s, step.request, step.requestId, a);
      assert Apply(s, step) == PushRow(s, step.request, step.requestId) by { PushIs(s, step); }
    } else if step.a != a {
      OthersStayPut(s, step, a);
    } else {
      OwnStepKeepsPlan(s, a, step);
    }
  }

  lemma PushIs(s: State, step: Step)
    requires step.Push?
    ensures Apply(s, step) == PushRow(s, step.request, step.requestId)
  {
  }

  lemma OthersStayPut(s: State, step: Step, a: nat)
    requires ByActor(step) && step.a != a
    ensures PhaseOf(Apply(s, step), a) == PhaseOf(s, a)
  {
  }

  lemma OwnStepKeepsPlan(s: State, a: nat, step: Step)
    requires PhaseOf(s, a).Arbitrating? && ByActor(step) && step.a == a
    ensures var p, q := PhaseOf(s, a), PhaseOf(Apply(s, step), a);
      && (q.Arbitrating? ==> Plan(q) == Plan(p) && q.mark == p.mark)
      && (q.Serving? ==> q.todo == Plan(p) && q.mark == p.mark)
      && (q.Arbitrating? || q.Serving? || q == Gone)
  {
    hide Resolve, FoldOn, Output, Discarded, Without;
    ReadKeepsPlan(PhaseOf(s, a));
  }

  lemma ReadKeepsPlan(p: Phase)
    requires p.Arbitrating?
    ensures p.rest != [] ==>
      Plan(Arbitrating(p.mark, Resolve(p.fold, p.rest[0]), p.rest[1..], Discarded(p.fold, p.rest[0]))) == Plan(p)
    ensures p.rest == [] ==> Plan(p) == Output(p.fold)
  {
    hide Resolve, Output, Discarded;
    if p.rest != [] {
      assert p.rest == [p.rest[0]] + p.rest[1..];
      FoldOnConcat(p.fold, [p.rest[0]], p.rest[1..]);
      assert [p.rest[0]] == [] + [p.rest[0]];
      FoldOnSnoc(p.fold, [], p.rest[0]);
    }
  }

  lemma DrawMovesNobody(s: State, a: nat)
    ensures PhaseOf(Apply(s, DrawId), a) == PhaseOf(s, a)
  {
  }

  lemma PushMovesNobody(s: State, request: Request, requestId: string, a: nat)
    ensures PhaseOf(PushRow(s, request, requestId), a) == PhaseOf(s, a)
  {
  }

  /**
   Wherever a crash stops the deletions, arbitrating the leftover rows again gives
   what the interrupted fetch would have served; and with rows pushed behind them
   it gives what arbitrating that outcome with those rows gives.
   */
  lemma InterruptedArbitration(s: State, a: nat) returns (n: nat)
    requires Inv(s) && PhaseOf(s, a).Arbitrating?
    ensures n <= |s.queue|
    ensures forall i | 0 <= i < |s.queue| :: i < n <==> s.queue[i].id < PhaseOf(s, a).mark
    ensures Arbitrate(s.queue[..n]) == Plan(PhaseOf(s, a))
    ensures Arbitrate(s.queue) == Arbitrate(Plan(PhaseOf(s, a)) + s.queue[n..])
  {
    var p := PhaseOf(s, a);
    HolderIs(s, a);
    var left := Left(p.fold, p.victims);
    n := |left + p.rest|;
    assert s.queue[..n] == left + p.rest;
    assert s.queue == s.queue[..n] + s.queue[n..];
    FoldAllConcat(left, p.rest);
    ArbitrateIncremental(s.queue[..n], s.queue[n..]);
    forall i | 0 <= i < n ensures s.queue[i].id < p.mark {
      assert s.queue[i] == (left + p.rest)[i];
    }
  }
}
