/**
 Users and project tasks acting one after the other, in any order: what a queued
 request says about its activation, what enabling and deleting come to, and how often
 an activation can be started.
 */
module ViewRuns {
  import opened Common
  import opened Arbitration
  import opened ActivationWorld
  import opened ProjectImport
  import opened ProjectSync
  import opened ProjectMonitor
  import opened ActivationViews
  import opened ViewOutcomes

  datatype Act =
    | Ask(view: View, id: nat, call: Call)
    | DoSync(pid: nat, outcome: SyncOutcome, broken: set<nat>)
    | DoMonitor(now: int, timeout: int, broken: set<nat>)
    | SetStatus(id: nat, status: Status)
    | SetTables(projects: map<nat, Project>, rulebooks: map<nat, Rulebook>)

  function Do(w: World, act: Act): World {
    match act
    case Ask(view, id, call) =>
      if id !in w.rows then w
      else
        var reply := ReplyTo(view, w.projects, w.rows[id], call);
        Put(w, id, reply.row, reply.request)
    case DoSync(pid, outcome, broken) => SyncProject(w, pid, outcome, broken)
    case DoMonitor(now, timeout, broken) => Monitor(w, now, timeout, broken)
    case SetStatus(id, status) => if id in w.rows then SaveRow(w, id, w.rows[id].(status := status)) else w
    case SetTables(projects, rulebooks) => w.(projects := projects, rulebooks := rulebooks)
  }

  function DoAll(w: World, acts: seq<Act>): World {
    if acts == [] then w else Do(DoAll(w, acts[..|acts| - 1]), acts[|acts| - 1])
  }

  /** What a view does to the tables is what it is taken for in these runs. */
  lemma AnswersIsAct(w: World, t: World, view: View, id: nat, call: Call, r: Response)
    requires Answers(w, t, view, id, call, r)
    ensures t == Do(w, Ask(view, id, call))
  {
  }

  lemma ActAnswers(w: World, view: View, id: nat, call: Call) returns (r: Response)
    ensures Answers(w, Do(w, Ask(view, id, call)), view, id, call, r)
  {
    r := if id !in w.rows then NotFound else ReplyTo(view, w.projects, w.rows[id], call).response;
  }

  // ------------------------------------------------- what a request says

  /**
   A Start is queued only when the activation goes from disabled to enabled, and a
   Restart only while it is enabled; a Stop when it is disabled or found invalid, and a
   Delete together with its status.
   */
  ghost predicate Justified(before: Activation, after: Activation, r: Request) {
    match r
    case Start => !before.enabled && after.enabled
    case Restart => before.enabled && after.enabled
    case Stop => before.enabled && (!after.enabled || after.status == Error)
    case Delete => after.status == Deleting && !after.awaiting
    case AutoStart => false
  }

  /** Nobody but `disable` switches an activation off. */
  ghost predicate SwitchedOffBy(before: Activation, after: Activation, act: Act, a: nat) {
    before.enabled && !after.enabled ==> act.Ask? && act.view == Disable && act.id == a
  }

  ghost predicate Acted(w: World, t: World, act: Act, a: nat, requests: seq<Request>) {
    && Valid(t) && a in w.rows && a in t.rows && t.rows.Keys == w.rows.Keys
    && NewRequests(w, t, a, requests) && |requests| <= 1
    && (requests != [] ==> Justified(w.rows[a], t.rows[a], requests[0]))
    && SwitchedOffBy(w.rows[a], t.rows[a], act, a)
  }

  lemma ReplyJustified(view: View, projects: map<nat, Project>, a: Activation, call: Call)
    ensures var reply := ReplyTo(view, projects, a, call);
      && reply.row.id == a.id
      && (reply.request.Some? ==> Justified(a, reply.row, reply.request.value))
      && (a.enabled && !reply.row.enabled ==> view == Disable)
  {
  }

  lemma PutEffect(w: World, id: nat, row: Activation, request: Option<Request>, a: nat)
    requires Valid(w) && id in w.rows && row.id == id && a in w.rows
    ensures var t := Put(w, id, row, request);
      && Valid(t) && t.rows.Keys == w.rows.Keys && t.rows[a] == (if a == id then row else w.rows[a])
      && NewRequests(w, t, a, if a == id && request.Some? then [request.value] else [])
  {
    hide PushesOf;
    if request.Some? {
      PushesOfSnoc(w.pushes, Pushed(id, request.value), a);
    } else {
      SamePushes(w, Put(w, id, row, request), a);
    }
  }

  lemma {:induction false} AskActs(w: World, view: View, id: nat, call: Call, a: nat) returns (requests: seq<Request>)
    requires Valid(w) && a in w.rows
    ensures Acted(w, Do(w, Ask(view, id, call)), Ask(view, id, call), a, requests)
  {
    hide ReplyTo, Put, PushesOf, Justified;
    if id in w.rows {
      var reply := ReplyTo(view, w.projects, w.rows[id], call);
      ReplyJustified(view, w.projects, w.rows[id], call);
      PutEffect(w, id, reply.row, reply.request, a);
      requests := if a == id && reply.request.Some? then [reply.request.value] else [];
    } else {
      requests := [];
      SamePushes(w, w, a);
    }
  }

  lemma {:induction false} SyncActs(w: World, pid: nat, outcome: SyncOutcome, broken: set<nat>, a: nat)
    returns (requests: seq<Request>)
    requires Valid(w) && a in w.rows
    ensures Acted(w, Do(w, DoSync(pid, outcome, broken)), DoSync(pid, outcome, broken), a, requests)
  {
    hide SyncProject, AfterImport, PushesOf, Valid, Refreshed, RulebookOf;
    SyncTables(w, pid, outcome, broken);
    requests := SyncResolves(w, pid, outcome, broken, a);
  }

  lemma {:induction false} MonitorActs(w: World, now: int, timeout: int, broken: set<nat>, a: nat)
    returns (requests: seq<Request>)
    requires Valid(w) && a in w.rows
    ensures Acted(w, Do(w, DoMonitor(now, timeout, broken)), DoMonitor(now, timeout, broken), a, requests)
  {
    hide Rows, RecoverOrphans, FailStuck, PushesOf, AllAwaiting, Valid, Snapshot, DistinctIds, Holds, OrphanResult;
    var u := FailStuck(w, now - 2 * timeout);
    StaleFail(w, now - 2 * timeout);
    var todo := Rows(u, AnyWaiting);
    RowsOf(u, AnyWaiting, a);
    MonitorTables(u, broken);
    OrphansRecovered(u, todo, broken, a);
    requests := OrphanJustified(u, todo, broken, a, RecoverOrphans(u, todo, broken).w);
  }

  lemma {:induction false} OrphanJustified(w: World, todo: seq<Activation>, broken: set<nat>, a: nat, t: World)
    returns (requests: seq<Request>)
    requires Valid(w) && a in w.rows && OrphanResult(w, todo, broken, a, t)
    ensures a in t.rows && NewRequests(w, t, a, requests) && |requests| <= 1
    ensures requests != [] ==> Justified(w.rows[a], t.rows[a], requests[0])
    ensures w.rows[a].enabled ==> t.rows[a].enabled
  {
    hide PushesOf, Holds, FirstOfProject, SomeOf, FreshContent;
    var row := w.rows[a];
    if row.awaiting && !StillSyncing(w.projects, row) && ProjectMonitor.Completed(w.projects, row)
      && SomeOf(todo, row.project.value)
    {
      requests := ResumeEffect(w, row, w.projects[row.project.value], a !in broken).requests;
    } else {
      requests := [];
      assert PushesOf(w.pushes, a) + [] == PushesOf(w.pushes, a);
    }
  }

  /** Whatever acts, at most one request is queued for an activation, and it says what became of it. */
  lemma {:induction false} EveryRequestIsJustified(w: World, act: Act, a: nat) returns (requests: seq<Request>)
    requires Valid(w) && a in w.rows
    ensures Acted(w, Do(w, act), act, a, requests)
  {
    hide SyncProject, Monitor, ReplyTo, Put, PushesOf, Justified;
    match act
    case Ask(view, id, call) => requests := AskActs(w, view, id, call, a);
    case DoSync(pid, outcome, broken) => requests := SyncActs(w, pid, outcome, broken, a);
    case DoMonitor(now, timeout, broken) => requests := MonitorActs(w, now, timeout, broken, a);
    case SetStatus(_, _) =>
      requests := [];
      SamePushes(w, Do(w, act), a);
    case SetTables(_, _) =>
      requests := [];
      SamePushes(w, Do(w, act), a);
  }

  // ------------------------------------------------- starts and disables

  ghost function CountOf(requests: seq<Request>, r: Request): nat { multiset(requests)[r] }

  /** The acts of a run that switch the activation off. */
  ghost function TimesSwitchedOff(w: World, acts: seq<Act>, a: nat): nat {
    if acts == [] then 0
    else
      var before := DoAll(w, acts[..|acts| - 1]);
      var after := Do(before, acts[|acts| - 1]);
      TimesSwitchedOff(w, acts[..|acts| - 1], a)
      + if a in before.rows && a in after.rows && before.rows[a].enabled && !after.rows[a].enabled then 1 else 0
  }

  ghost function On(w: World, a: nat): nat { if a in w.rows && w.rows[a].enabled then 1 else 0 }

  /**
   In any run the Starts queued for an activation are at most the times it was disabled,
   plus one if it is enabled now, less one if it was at first: between two of them there
   is always a disable.
   */
  lemma {:induction false} StartsNeedDisables(w: World, acts: seq<Act>, a: nat) returns (requests: seq<Request>)
    requires Valid(w) && a in w.rows
    ensures var t := DoAll(w, acts);
      && Valid(t) && a in t.rows && t.rows.Keys == w.rows.Keys && NewRequests(w, t, a, requests)
      && CountOf(requests, Start) + On(w, a) <= TimesSwitchedOff(w, acts, a) + On(t, a)
  {
    hide Do, PushesOf, Valid;
    requests := [];
    if acts == [] {
      SamePushes(w, w, a);
    } else {
      var n := |acts| - 1;
      var first := StartsNeedDisables(w, acts[..n], a);
      var last := EveryRequestIsJustified(DoAll(w, acts[..n]), acts[n], a);
      requests := first + last;
      assert PushesOf(w.pushes, a) + (first + last) == PushesOf(w.pushes, a) + first + last;
      if last != [] {
        assert last == [last[0]];
      }
    }
  }

  // ------------------------------------------------- after a deletion

  /**
   Once an activation is being deleted, no view makes it wait or queues anything for it
   but another Delete, as long as nothing changes its status.
   */
  lemma {:induction false} DeletingIsLeftAlone(w: World, view: View, id: nat, call: Call, a: nat)
    returns (requests: seq<Request>)
    requires Valid(w) && a in w.rows && w.rows[a].status == Deleting && !w.rows[a].awaiting
    ensures var t := Do(w, Ask(view, id, call));
      && Valid(t) && a in t.rows && t.rows[a] == w.rows[a]
      && NewRequests(w, t, a, requests)
      && (requests == [] || (requests == [Request.Delete] && view == Destroy && id == a))
  {
    hide Put, PushesOf;
    if id in w.rows {
      var reply := ReplyTo(view, w.projects, w.rows[id], call);
      ReplyJustified(view, w.projects, w.rows[id], call);
      PutEffect(w, id, reply.row, reply.request, a);
      requests := if a == id && reply.request.Some? then [reply.request.value] else [];
    } else {
      requests := [];
      SamePushes(w, w, a);
    }
  }

  /** Any number of view calls. */
  ghost predicate OnlyViews(acts: seq<Act>) { forall i | 0 <= i < |acts| :: acts[i].Ask? }

  lemma {:induction false} DeletingStays(w: World, acts: seq<Act>, a: nat) returns (requests: seq<Request>)
    requires Valid(w) && a in w.rows && w.rows[a].status == Deleting && !w.rows[a].awaiting && OnlyViews(acts)
    ensures var t := DoAll(w, acts);
      && Valid(t) && a in t.rows && t.rows[a] == w.rows[a]
      && NewRequests(w, t, a, requests) && forall r | r in requests :: r == Request.Delete
  {
    hide Do, PushesOf, Valid;
    requests := [];
    if acts == [] {
      SamePushes(w, w, a);
    } else {
      var n := |acts| - 1;
      var first := DeletingStays(w, acts[..n], a);
      var last := DeletingIsLeftAlone(DoAll(w, acts[..n]), acts[n].view, acts[n].id, acts[n].call, a);
      requests := first + last;
      assert PushesOf(w.pushes, a) + (first + last) == PushesOf(w.pushes, a) + first + last;
    }
  }

  /** The requests of any run come behind those that were there. */
  lemma {:induction false} RunAppends(w: World, acts: seq<Act>, a: nat) returns (requests: seq<Request>)
    requires Valid(w) && a in w.rows
    ensures NewRequests(w, DoAll(w, acts), a, requests)
  {
    hide DoAll, PushesOf, TimesSwitchedOff;
    requests := StartsNeedDisables(w, acts, a);
  }

  /**
   When a deletion has been accepted, whatever users and tasks do next, even a sync that
   restarts the activation because it is still enabled: as long as nothing is drained,
   what will be served is a Delete, alone.
   */
  lemma {:induction false} DeletionWins(w: World, call: Call, acts: seq<Act>, a: nat, rows: seq<Row>)
    requires Valid(w) && a in w.rows && a !in call.broken
    requires call.force || (call.workersUp && !(call.podman && w.rows[a].status == WorkersOffline))
    requires Kinds(rows) == PushesOf(DoAll(Do(w, Ask(Destroy, a, call)), acts).pushes, a)
    ensures |Arbitrate(rows)| == 1 && Arbitrate(rows)[0].request == Request.Delete
  {
    hide DoAll, PushesOf, Put;
    var reply := ReplyTo(Destroy, w.projects, w.rows[a], call);
    var u := Do(w, Ask(Destroy, a, call));
    ReplyJustified(Destroy, w.projects, w.rows[a], call);
    PutEffect(w, a, reply.row, reply.request, a);
    var later := RunAppends(u, acts, a);
    var d := |PushesOf(w.pushes, a)|;
    assert Kinds(rows) == PushesOf(w.pushes, a) + [Request.Delete] + later;
    assert Kinds(rows)[d] == Request.Delete;
    DeleteTakesAll(rows, d);
  }

  // ------------------------------------------------- enabling through a sync

  /**
   An activation whose project must be synced first is enabled and started by that sync,
   exactly once, if it succeeds; if not, it is in error, still disabled and not started.
   */
  lemma {:induction false} EnabledBySync(w: World, a: nat, call: Call, outcome: SyncOutcome, broken: set<nat>)
    returns (requests: seq<Request>)
    requires Valid(w) && a in w.rows && !w.rows[a].enabled && call.valid
    requires w.rows[a].status in {Pending, Failed, Stopped, Completed, Error, WorkersOffline}
    requires w.rows[a].project.Some? && w.rows[a].project.value in w.projects
    requires w.rows[a].project.value in call.updateOnLaunch
    requires Busy(w.projects[w.rows[a].project.value].importState) || call.syncSubmits
    ensures var u := Do(w, Ask(Enable, a, call));
      var t := SyncProject(u, w.rows[a].project.value, outcome, broken);
      && a in t.rows && !t.rows[a].awaiting && NewRequests(w, t, a, requests)
      && requests == (if outcome.Synced? && a !in broken then [Request.Start] else [])
      && t.rows[a].enabled == outcome.Synced?
      && t.rows[a].status == if outcome.Synced? && a !in broken then Pending else Error
  {
    hide SyncProject, PushesOf, AfterImport, Answers, Do, Valid;
    var pid := w.rows[a].project.value;
    var u := Do(w, Ask(Enable, a, call));
    var r := ActAnswers(w, Enable, a, call);
    EnableOutcome(w, u, a, call, r);
    AskKeepsValid(w, Enable, a, call);
    ImportKeepsProject(u, pid, outcome);
    requests := SyncResolves(u, pid, outcome, broken, a);
  }

  lemma AskKeepsValid(w: World, view: View, id: nat, call: Call)
    requires Valid(w) && id in w.rows
    ensures Valid(Do(w, Ask(view, id, call)))
  {
    hide ReplyTo, Put, PushesOf;
    var requests := AskActs(w, view, id, call, id);
  }

  lemma ImportKeepsProject(w: World, pid: nat, outcome: SyncOutcome)
    requires Valid(w) && pid in w.projects
    ensures pid in AfterImport(w, pid, outcome).projects
  {
    hide Imported;
    if outcome.Synced? {
      ImportedIs(w, pid, outcome.gitHash, outcome.files);
    }
  }
}
