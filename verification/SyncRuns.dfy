/**
 Many syncs: what further syncs of the same commit push, and what one drain of the
 queue makes of everything that syncs and the monitor have pushed.
 */
module SyncRuns {
  import opened Common
  import opened Arbitration
  import opened ActivationWorld
  import opened ProjectImport
  import opened ProjectSync
  import opened ProjectMonitor

  // ------------------------------------------------- the same commit again

  /** An activation whose cached content is that of its rulebook and project. */
  ghost predicate Cached(a: Activation, gitHash: string, rulebooks: map<nat, Rulebook>) {
    && a.rulebook.Some? && a.rulebook.value in rulebooks
    && a.sha == rulebooks[a.rulebook.value].sha && a.gitHash == gitHash
  }

  /** A checked activation, up to date with a project that is itself up to date with its commit. */
  ghost predicate Fresh(w: World, pid: nat, gitHash: string, a: nat) {
    && Valid(w) && a in w.rows && pid in w.projects && UpToDate(w, pid, gitHash)
    && Checkable(w.rows[a], pid) && Cached(w.rows[a], gitHash, w.rulebooks)
  }

  /**
   One good sync caches the content of every checked, unmapped activation whose rulebook
   exists after it, whatever the commit and however far behind the activation was.
   */
  lemma {:induction false} SyncCaches(w: World, pid: nat, gitHash: string, files: Option<map<nat, File>>,
                                      broken: set<nat>, a: nat)
    requires Valid(w) && a in w.rows && pid in w.projects && Checkable(w.rows[a], pid) && !w.rows[a].mapped
    requires w.rows[a].rulebook.Some? && w.rows[a].rulebook.value in Imported(w, pid, gitHash, files).rulebooks
    ensures var t := SyncProject(w, pid, Synced(gitHash, files), broken);
      && t.rulebooks == Imported(w, pid, gitHash, files).rulebooks && a in t.rows && pid in t.projects
      && Checkable(t.rows[a], pid) && Cached(t.rows[a], gitHash, t.rulebooks)
      && (UpToDate(t, pid, gitHash) <==> HasRulebooks(t.rulebooks, pid))
  {
    hide SyncProject, Imported, PushesOf, UpToDate, Resumed;
    var u, t := Imported(w, pid, gitHash, files), SyncProject(w, pid, Synced(gitHash, files), broken);
    ImportedIs(w, pid, gitHash, files);
    RulebookStays(w, pid, gitHash, files, w.rows[a]);
    SyncTables(w, pid, Synced(gitHash, files), broken);
    SameUpToDate(u, t, pid, gitHash);
    ImportSettles(w, pid, gitHash, files);
    var requests := SyncResolves(w, pid, Synced(gitHash, files), broken, a);
  }

  lemma SameUpToDate(u: World, t: World, pid: nat, gitHash: string)
    requires t.projects == u.projects && t.rulebooks == u.rulebooks && pid in u.projects
    ensures UpToDate(t, pid, gitHash) <==> UpToDate(u, pid, gitHash)
  {
  }

  /**
   From then on, a sync of the same commit restarts an activation exactly when it has
   failed and the push works; a push that fails leaves it in error, so that the next
   sync tries again.
   */
  lemma {:induction false} UnchangedSync(w: World, pid: nat, gitHash: string, files: Option<map<nat, File>>,
                                         broken: set<nat>, a: nat)
    requires Fresh(w, pid, gitHash, a)
    ensures var t := SyncProject(w, pid, Synced(gitHash, files), broken);
      && Fresh(t, pid, gitHash, a)
      && NewRequests(w, t, a, if HasFailed(w.rows[a].status) && a !in broken then [Restart] else [])
      && (!HasFailed(w.rows[a].status) ==> t.rows[a] == w.rows[a])
      && (HasFailed(w.rows[a].status) ==> HasFailed(t.rows[a].status))
      && (HasFailed(w.rows[a].status) && a in broken ==> t.rows[a].status == Error)
  {
    hide SyncProject, Imported, PushesOf, UpToDate, Resumed;
    var u, t := Imported(w, pid, gitHash, files), SyncProject(w, pid, Synced(gitHash, files), broken);
    SameCommit(w, pid, gitHash, files);
    ImportedIs(w, pid, gitHash, files);
    SyncTables(w, pid, Synced(gitHash, files), broken);
    SameUpToDate(u, t, pid, gitHash);
    var requests := SyncResolves(w, pid, Synced(gitHash, files), broken, a);
    CheckedAgain(w.rows[a], t.rows[a], requests, a !in broken, w.rulebooks, gitHash);
  }

  lemma CheckedAgain(before: Activation, after: Activation, requests: seq<Request>, pushed: bool,
                     rulebooks: map<nat, Rulebook>, gitHash: string)
    requires Cached(before, gitHash, rulebooks) && Checked(before, after, requests, pushed, rulebooks, gitHash)
    requires before.id == after.id
    ensures Cached(after, gitHash, rulebooks)
    ensures requests == if HasFailed(before.status) && pushed then [Restart] else []
    ensures after == if !HasFailed(before.status) then before
                     else if pushed then before.(failures := 0) else before.(status := Error)
  {
  }

  /** What happens between two looks at the queue: syncs of the same commit, and status changes by the manager. */
  datatype Event = SameSync(files: Option<map<nat, File>>, broken: set<nat>) | StatusOf(id: nat, status: Status)

  function Happens(w: World, pid: nat, gitHash: string, e: Event): World {
    match e
    case SameSync(files, broken) => SyncProject(w, pid, Synced(gitHash, files), broken)
    case StatusOf(id, status) => if id in w.rows then SaveRow(w, id, w.rows[id].(status := status)) else w
  }

  function HappenAll(w: World, pid: nat, gitHash: string, events: seq<Event>): World {
    if events == [] then w
    else Happens(HappenAll(w, pid, gitHash, events[..|events| - 1]), pid, gitHash, events[|events| - 1])
  }

  /** The syncs among `events` that find the activation failed and can push. */
  ghost function Retries(w: World, pid: nat, gitHash: string, events: seq<Event>, a: nat): nat {
    if events == [] then 0
    else
      var before, e := HappenAll(w, pid, gitHash, events[..|events| - 1]), events[|events| - 1];
      Retries(w, pid, gitHash, events[..|events| - 1], a)
      + if e.SameSync? && a in before.rows && HasFailed(before.rows[a].status) && a !in e.broken then 1 else 0
  }

  function Restarts(n: nat): seq<Request> { seq(n, _ => Restart) }

  lemma {:induction false} EventKeeps(w: World, pid: nat, gitHash: string, e: Event, a: nat)
    requires Fresh(w, pid, gitHash, a)
    ensures var t := Happens(w, pid, gitHash, e);
      && Fresh(t, pid, gitHash, a)
      && NewRequests(w, t, a, if e.SameSync? && HasFailed(w.rows[a].status) && a !in e.broken then [Restart] else [])
  {
    hide SyncProject, PushesOf;
    if e.SameSync? {
      UnchangedSync(w, pid, gitHash, e.files, e.broken, a);
    } else {
      SamePushes(w, Happens(w, pid, gitHash, e), a);
    }
  }

  /** Any number of further syncs of the commit pushes exactly one restart for each time it is found failed. */
  lemma {:induction false} RepeatedSyncs(w: World, pid: nat, gitHash: string, events: seq<Event>, a: nat)
    requires Fresh(w, pid, gitHash, a)
    ensures var t := HappenAll(w, pid, gitHash, events);
      Fresh(t, pid, gitHash, a) && NewRequests(w, t, a, Restarts(Retries(w, pid, gitHash, events, a)))
  {
    hide Happens, PushesOf, Cached, Matches, Valid, UpToDate;
    if events != [] {
      var n := |events| - 1;
      RepeatedSyncs(w, pid, gitHash, events[..n], a);
      EventKeeps(HappenAll(w, pid, gitHash, events[..n]), pid, gitHash, events[n], a);
      var k := Retries(w, pid, gitHash, events[..n], a);
      assert Restarts(k) + [Restart] == Restarts(k + 1);
      assert Restarts(k) + [] == Restarts(k);
    }
  }

  // ------------------------------------------------- any syncs, then one drain

  /**
   Anything the project tasks do, in any order: syncs of any project with any outcome,
   passes of the monitor; and between them any change of rows, projects and rulebooks.
   */
  datatype Happening =
    | Sync(pid: nat, outcome: SyncOutcome, broken: set<nat>)
    | MonitorPass(now: int, timeout: int, broken: set<nat>)
    | Edit(id: nat, row: Activation)
    | Replace(projects: map<nat, Project>, rulebooks: map<nat, Rulebook>)

  function After(w: World, h: Happening): World {
    match h
    case Sync(pid, outcome, broken) => SyncProject(w, pid, outcome, broken)
    case MonitorPass(now, timeout, broken) => Monitor(w, now, timeout, broken)
    case Edit(id, row) => if id in w.rows then SaveRow(w, id, row.(id := id)) else w
    case Replace(projects, rulebooks) => w.(projects := projects, rulebooks := rulebooks)
  }

  function AfterAll(w: World, hs: seq<Happening>): World {
    if hs == [] then w else After(AfterAll(w, hs[..|hs| - 1]), hs[|hs| - 1])
  }

  ghost predicate OnlyStarts(requests: seq<Request>) { forall i | 0 <= i < |requests| :: IsStart(requests[i]) }

  /** A sync pushes nothing but a Start or a Restart. */
  lemma {:induction false} SyncPushes(w: World, pid: nat, outcome: SyncOutcome, broken: set<nat>, a: nat)
    returns (requests: seq<Request>)
    requires Valid(w) && a in w.rows
    ensures var t := SyncProject(w, pid, outcome, broken);
      Valid(t) && a in t.rows && NewRequests(w, t, a, requests) && |requests| <= 1 && OnlyStarts(requests)
  {
    hide SyncProject, AfterImport, PushesOf, Valid, Refreshed, SameSettings, RulebookOf;
    requests := SyncResolves(w, pid, outcome, broken, a);
  }

  /** So does a pass of the monitor, in any state of the projects. */
  lemma {:induction false} MonitorPushes(w: World, now: int, timeout: int, broken: set<nat>, a: nat)
    returns (requests: seq<Request>)
    requires Valid(w) && a in w.rows
    ensures var t := Monitor(w, now, timeout, broken);
      Valid(t) && a in t.rows && NewRequests(w, t, a, requests) && |requests| <= 1 && OnlyStarts(requests)
  {
    hide Rows, RecoverOrphans, FailStuck, PushesOf, AllAwaiting, Valid, Snapshot, DistinctIds, Holds, OrphanResult;
    var u := FailStuck(w, now - 2 * timeout);
    StaleFail(w, now - 2 * timeout);
    var todo := Rows(u, AnyWaiting);
    RowsOf(u, AnyWaiting, a);
    MonitorTables(u, broken);
    OrphansRecovered(u, todo, broken, a);
    requests := OrphanPushes(u, todo, broken, a, RecoverOrphans(u, todo, broken).w);
  }

  lemma {:induction false} OrphanPushes(w: World, todo: seq<Activation>, broken: set<nat>, a: nat, t: World)
    returns (requests: seq<Request>)
    requires Valid(w) && a in w.rows && OrphanResult(w, todo, broken, a, t)
    ensures a in t.rows && NewRequests(w, t, a, requests) && |requests| <= 1 && OnlyStarts(requests)
  {
    hide PushesOf, Holds, FirstOfProject, SomeOf, FreshContent;
    var row := w.rows[a];
    if row.awaiting && !StillSyncing(w.projects, row) && ProjectMonitor.Completed(w.projects, row)
      && SomeOf(todo, row.project.value)
    {
      requests := ResumeEffect(w, row, w.projects[row.project.value], a !in broken).requests;
    } else {
      requests := [];
      assert PushesOf(w.pushes, a) + [] == PushesOf(w.pushes, a);
    }
  }

  lemma {:induction false} HappeningPushes(w: World, h: Happening, a: nat) returns (requests: seq<Request>)
    requires Valid(w) && a in w.rows
    ensures var t := After(w, h);
      Valid(t) && a in t.rows && NewRequests(w, t, a, requests) && |requests| <= 1 && OnlyStarts(requests)
  {
    hide SyncProject, Monitor, PushesOf, OnlyStarts;
    assert OnlyStarts([]) by { NoRequests(); }
    match h
    case Sync(pid, outcome, broken) => requests := SyncPushes(w, pid, outcome, broken, a);
    case MonitorPass(now, timeout, broken) => requests := MonitorPushes(w, now, timeout, broken, a);
    case Edit(_, _) =>
      requests := [];
      SamePushes(w, After(w, h), a);
    case Replace(_, _) =>
      requests := [];
      SamePushes(w, After(w, h), a);
  }

  lemma NoRequests()
    ensures OnlyStarts([])
  {
  }

  lemma {:induction false} RunPushes(w: World, hs: seq<Happening>, a: nat) returns (requests: seq<Request>)
    requires Valid(w) && a in w.rows
    ensures var t := AfterAll(w, hs);
      Valid(t) && a in t.rows && NewRequests(w, t, a, requests) && |requests| <= |hs| && OnlyStarts(requests)
  {
    hide After, PushesOf, Valid;
    requests := [];
    if hs == [] {
      SamePushes(w, w, a);
    } else {
      var n := |hs| - 1;
      var first := RunPushes(w, hs[..n], a);
      var last := HappeningPushes(AfterAll(w, hs[..n]), hs[n], a);
      requests := first + last;
      assert PushesOf(w.pushes, a) + (first + last) == PushesOf(w.pushes, a) + first + last;
    }
  }

  ghost predicate AllStarts(rows: seq<Row>) { forall i | 0 <= i < |rows| :: IsStart(rows[i].request) }

  lemma {:induction false} FoldOfStarts(fold: Fold, rows: seq<Row>)
    requires IsStart(fold.ref.request) && AllStarts(rows)
    ensures FoldOn(fold, rows) == fold
  {
    if rows != [] {
      FoldOfStarts(fold, rows[..|rows| - 1]);
    }
  }

  /** Of any number of Starts and Restarts one drain serves the first. */
  lemma StartsThenDrain(rows: seq<Row>)
    requires rows != [] && AllStarts(rows)
    ensures Arbitrate(rows) == [rows[0]]
  {
    FoldOfStarts(Fold([], rows[0]), rows[1..]);
  }

  /**
   From any tables with nothing queued for an activation, whatever syncs and monitor
   passes follow: if nobody else pushes, one drain serves the first of their requests,
   and so at most one.
   */
  lemma {:induction false} AnySyncsThenDrain(w: World, hs: seq<Happening>, a: nat, rows: seq<Row>)
    requires Valid(w) && a in w.rows && PushesOf(w.pushes, a) == []
    requires Kinds(rows) == PushesOf(AfterAll(w, hs).pushes, a)
    ensures Arbitrate(rows) == if rows == [] then [] else [rows[0]]
  {
    hide AfterAll, PushesOf;
    var requests := RunPushes(w, hs, a);
    assert Kinds(rows) == requests && |rows| == |requests|;
    forall i | 0 <= i < |rows| ensures IsStart(rows[i].request) {
      assert Kinds(rows)[i] == requests[i];
    }
    if rows != [] {
      StartsThenDrain(rows);
    }
  }

  /** In the cached phase it is exactly known whether there is one. */
  lemma {:induction false} RepeatedSyncsThenDrain(w: World, pid: nat, gitHash: string, events: seq<Event>, a: nat,
                                                  rows: seq<Row>)
    requires Fresh(w, pid, gitHash, a) && PushesOf(w.pushes, a) == []
    requires Kinds(rows) == PushesOf(HappenAll(w, pid, gitHash, events).pushes, a)
    ensures if Retries(w, pid, gitHash, events, a) == 0 then Arbitrate(rows) == []
            else rows != [] && Arbitrate(rows) == [rows[0]] && rows[0].request == Restart
  {
    hide HappenAll, Retries, PushesOf;
    RepeatedSyncs(w, pid, gitHash, events, a);
    var k := Retries(w, pid, gitHash, events, a);
    assert Kinds(rows) == Restarts(k) && |rows| == k;
    forall i | 0 <= i < |rows| ensures rows[i].request == Restart {
      assert Kinds(rows)[i] == Restarts(k)[i];
    }
    if k > 0 {
      StartsThenDrain(rows);
    }
  }
}
