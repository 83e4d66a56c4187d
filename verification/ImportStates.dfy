/**
 The import state of one project under concurrent transactions: project views that
 claim a sync, the sync task, its error recovery and the monitor. Each holds the row
 lock from its first read or write to its commit or rollback; only commits are seen
 by others.
 */
module ImportStates {
  import opened Common
  import opened ActivationWorld

  /** The monitor brings the state its stale query has seen. */
  datatype Actor = PatchView | SyncView | SyncService | ErrorRecovery | MonitorTask(seen: ImportState)

  /** `wrote`: the state this transaction has saved so far. */
  datatype Transaction = Transaction(actor: Actor, wrote: Option<ImportState>)

  /** A sync task that has saved its good end, and has yet to commit it. */
  const FINISHED := Transaction(SyncService, Some(ImportCompleted))

  /** A committed change of the state. */
  datatype Change = Change(actor: Actor, from: ImportState, to: ImportState)

  datatype Record = Record(committed: ImportState, lock: Option<Transaction>, gone: bool, log: seq<Change>)

  datatype Step = Lock(actor: Actor) | ImportDone | Commit | Rollback | Delete

  predicate IsView(actor: Actor) { actor == PatchView || actor == SyncView }

  predicate IsRecovery(actor: Actor) { actor == ErrorRecovery || actor.MonitorTask? }

  /** What an actor saves on the state it reads under the lock, if anything. */
  function FirstSave(actor: Actor, current: ImportState): Option<ImportState> {
    match actor
    case PatchView | SyncView => if current in {ImportPending, ImportRunning} then None else Some(ImportPending)
    case SyncService => Some(ImportRunning)
    case ErrorRecovery => if current in {ImportPending, ImportRunning} then Some(ImportFailed) else None
    case MonitorTask(seen) =>
      if seen in {ImportPending, ImportRunning} && current == seen then Some(ImportFailed) else None
  }

  /** The sync task commits only a completed import; an exception rolls everything back. */
  predicate MayCommit(t: Transaction) { t.actor == SyncService ==> t.wrote == Some(ImportCompleted) }

  function Apply(p: Record, step: Step): Record {
    if p.gone then p
    else match step
      case Lock(actor) =>
        if p.lock.None? then p.(lock := Some(Transaction(actor, FirstSave(actor, p.committed)))) else p
      case ImportDone =>
        if p.lock.Some? && p.lock.value.actor == SyncService then p.(lock := Some(FINISHED)) else p
      case Commit =>
        if p.lock.Some? && MayCommit(p.lock.value) then
          match p.lock.value.wrote
          case None => p.(lock := None)
          case Some(state) =>
            p.(committed := state, lock := None, log := p.log + [Change(p.lock.value.actor, p.committed, state)])
        else p
      case Rollback => p.(lock := None)
      case Delete => if p.lock.None? then p.(gone := true) else p
  }

  function Exec(p: Record, run: seq<Step>): Record {
    if run == [] then p else Apply(Exec(p, run[..|run| - 1]), run[|run| - 1])
  }

  ghost predicate Idle(p: Record, initial: ImportState) { p == Record(initial, None, false, []) }

  // ------------------------------------------------------- the committed changes

  function StateBefore(log: seq<Change>, initial: ImportState, i: nat): ImportState
    requires i <= |log|
  {
    if i == 0 then initial else log[i - 1].to
  }

  /** Every change starts from the state the one before it left. */
  ghost predicate Chained(log: seq<Change>, initial: ImportState, last: ImportState) {
    && last == StateBefore(log, initial, |log|)
    && (forall i: nat | i < |log| :: log[i].from == StateBefore(log, initial, i))
  }

  /** What each actor may do to the state. */
  ghost predicate Proper(c: Change) {
    match c.actor
    case PatchView | SyncView => !Busy(c.from) && c.to == ImportPending
    case SyncService => c.to == ImportCompleted
    case ErrorRecovery => Busy(c.from) && c.to == ImportFailed
    case MonitorTask(seen) => Busy(c.from) && c.from == seen && c.to == ImportFailed
  }

  ghost predicate AllProper(log: seq<Change>) { forall i | 0 <= i < |log| :: Proper(log[i]) }

  ghost predicate Inv(p: Record, initial: ImportState) {
    && Chained(p.log, initial, p.committed)
    && AllProper(p.log)
    && (p.lock.Some? ==>
          p.lock.value.wrote == FirstSave(p.lock.value.actor, p.committed) || p.lock.value == FINISHED)
  }

  lemma ChainedSnoc(log: seq<Change>, initial: ImportState, last: ImportState, c: Change)
    requires Chained(log, initial, last) && c.from == last && AllProper(log) && Proper(c)
    ensures Chained(log + [c], initial, c.to) && AllProper(log + [c])
  {
    hide Proper;
    var all := log + [c];
    forall i: nat | i < |all| ensures all[i].from == StateBefore(all, initial, i) {
      if i < |log| {
        assert all[i] == log[i] && StateBefore(all, initial, i) == StateBefore(log, initial, i);
      }
    }
  }

  lemma StepInv(p: Record, initial: ImportState, step: Step)
    requires Inv(p, initial)
    ensures Inv(Apply(p, step), initial)
  {
    if step == Commit && !p.gone && p.lock.Some? && MayCommit(p.lock.value) && p.lock.value.wrote.Some? {
      var c := Change(p.lock.value.actor, p.committed, p.lock.value.wrote.value);
      assert Proper(c);
      ChainedSnoc(p.log, initial, p.committed, c);
    }
  }

  /** In every run the committed changes form a chain, and each is one its actor may make. */
  lemma {:induction false} ExecInv(p: Record, initial: ImportState, run: seq<Step>)
    requires Idle(p, initial)
    ensures Inv(Exec(p, run), initial)
  {
    if run != [] {
      ExecInv(p, initial, run[..|run| - 1]);
      StepInv(Exec(p, run[..|run| - 1]), initial, run[|run| - 1]);
    }
  }

  /** In a chain that is busy after change `i` and idle before change `j`, one in between ends the work. */
  lemma {:induction false} WorkEndsBetween(log: seq<Change>, initial: ImportState, last: ImportState, i: nat, j: nat)
    returns (k: nat)
    requires Chained(log, initial, last) && i < j < |log| && Busy(log[i].to) && !Busy(log[j].from)
    ensures i < k < j && Busy(log[k].from) && !Busy(log[k].to)
    decreases j - i
  {
    assert log[i + 1].from == log[i].to;
    if Busy(log[i + 1].to) {
      k := WorkEndsBetween(log, initial, last, i + 1, j);
    } else {
      k := i + 1;
    }
  }

  /**
   Between any two syncs claimed through the project views the project has left the
   pending and running states, whatever else happened in the run.
   */
  lemma ClaimsAlternate(p: Record, initial: ImportState, run: seq<Step>, i: nat, j: nat) returns (k: nat)
    requires Idle(p, initial)
    requires var log := Exec(p, run).log; i < j < |log| && IsView(log[i].actor) && IsView(log[j].actor)
    ensures var log := Exec(p, run).log;
      i < k < j < |log| && Busy(log[k].from) && !Busy(log[k].to) && !IsView(log[k].actor)
  {
    ExecInv(p, initial, run);
    var t := Exec(p, run);
    assert Proper(t.log[i]) && Proper(t.log[j]);
    k := WorkEndsBetween(t.log, initial, t.committed, i, j);
    assert Proper(t.log[k]);
  }

  /**
   Recovery and monitor only end work that is pending or running; a completed import
   is left only when a view claims the next sync. No transaction ever reads RUNNING,
   since the sync task commits it only after it has been overwritten; so recovery
   and monitor change nothing but PENDING.
   */
  lemma CompletedIsKept(p: Record, initial: ImportState, run: seq<Step>, i: nat)
    requires Idle(p, initial) && i < |Exec(p, run).log|
    ensures var c := Exec(p, run).log[i];
      && (IsRecovery(c.actor) ==> Busy(c.from) && c.to == ImportFailed)
      && (c.from == ImportCompleted && c.to != ImportCompleted ==> IsView(c.actor))
      && c.to != ImportRunning
      && (initial != ImportRunning && IsRecovery(c.actor) ==> c.from == ImportPending)
  {
    ExecInv(p, initial, run);
    var log := Exec(p, run).log;
    assert Proper(log[i]);
    if i > 0 {
      assert Proper(log[i - 1]) && log[i].from == log[i - 1].to;
    } else {
      assert log[i].from == initial;
    }
  }

  /**
   In every run a claim is ended by the sync task that completes, or by a recovery or the
   monitor, and by nothing else: the next change after it makes the project COMPLETED or
   FAILED. A sync that raises leaves no change of its own.
   */
  lemma ClaimEnds(p: Record, initial: ImportState, run: seq<Step>, i: nat)
    requires Idle(p, initial)
    requires var log := Exec(p, run).log; i + 1 < |log| && IsView(log[i].actor)
    ensures var next := Exec(p, run).log[i + 1];
      && next.from == ImportPending
      && (if next.actor == SyncService then next.to == ImportCompleted
          else IsRecovery(next.actor) && next.to == ImportFailed)
  {
    ExecInv(p, initial, run);
    var t := Exec(p, run);
    assert Proper(t.log[i]) && Proper(t.log[i + 1]);
    assert t.log[i + 1].from == StateBefore(t.log, initial, i + 1);
  }
}
