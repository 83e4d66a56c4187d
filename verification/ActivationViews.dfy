/**
 The user's side: enable, disable, restart and delete an activation. Requests are
 not wrapped in a transaction, so what was saved before an exception stays saved;
 only the deletion saves and queues in one transaction.
 */
module ActivationViews {
  import opened Common
  import opened Arbitration
  import opened ActivationWorld
  import opened ProjectMonitor
  import opened ProjectTasks
  import DisableRace

  /** `Raised`: the exception of a push that failed. */
  datatype Response =
    | NoContent | BadRequest | Refused | Conflict | Forbidden | WorkersUnavailable | NotFound | Raised

  datatype View = Enable | Disable | Restart | Destroy

  /** What a view cannot decide itself: its arguments, and the answers of the checks it calls. */
  datatype Call = Call(
    force: bool, podman: bool, workersUp: bool, valid: bool, syncSubmits: bool, updateOnLaunch: set<nat>,
        broken: set<nat>)

  /** What a view makes of an activation: its row, at most one request, and the response. */
  datatype Reply = Reply(row: Activation, request: Option<Request>, response: Response)

  /** The project that must be synced before the activation may run. */
  function SyncFirst(projects: map<nat, Project>, a: Activation, call: Call): Option<Project> {
    var p := ProjectOf(projects, a);
    if p.Some? && a.project.value in call.updateOnLaunch then p else None
  }

  predicate HeldBack(status: Status, call: Call) { call.podman && status == WorkersOffline && !call.force }

  predicate WorkersMissing(call: Call) { !call.force && !call.workersUp }

  predicate CannotStart(status: Status) {
    status == Starting || status == Stopping || status == Deleting || status == Running || status == Unresponsive
  }

  /** Waiting for a sync that is under way or can be submitted. */
  function AwaitSync(a: Activation, p: Project, call: Call): Reply {
    if p.importState in {ImportPending, ImportRunning} || call.syncSubmits then
      Reply(a.(awaiting := true, status := Pending), None, NoContent)
    else Reply(a.(awaiting := false, status := Error), None, BadRequest)
  }

  function Pushing(a: Activation, request: Request, call: Call): Reply {
    if a.id in call.broken then Reply(a, None, Raised) else Reply(a, Some(request), NoContent)
  }

  function ReplyToEnable(projects: map<nat, Project>, a: Activation, call: Call): Reply {
    var p := SyncFirst(projects, a, call);
    if a.enabled then Reply(a, None, NoContent)
    else if CannotStart(a.status) then Reply(a, None, Conflict)
    else if !call.valid then Reply(a.(status := Error), None, BadRequest)
    else if p.Some? then AwaitSync(a, p.value, call)
    else Pushing(a.(enabled := true, failures := 0, status := Pending), Request.Start, call)
  }

  /** Off, and on its way to stop if it was coming up or running. */
  function SwitchedOff(a: Activation): Activation {
    a.(awaiting := false, enabled := false,
       status := if a.enabled && (a.status == Starting || a.status == Running) then Stopping else a.status)
  }

  /** When the workers are unavailable the flag has already been cleared. */
  function ReplyToDisable(a: Activation, call: Call): Reply {
    if a.status == Deleting then Reply(a, None, Refused)
    else if HeldBack(a.status, call) then Reply(a, None, Conflict)
    else if !a.enabled then Reply(SwitchedOff(a), None, NoContent)
    else if WorkersMissing(call) then Reply(a.(awaiting := false), None, WorkersUnavailable)
    else Pushing(SwitchedOff(a), Request.Stop, call)
  }

  /** An invalid activation is stopped and put in error, whatever its status was. */
  function ReplyToRestart(projects: map<nat, Project>, a: Activation, call: Call): Reply {
    var p := SyncFirst(projects, a, call);
    if a.status == Deleting then Reply(a, None, Refused)
    else if HeldBack(a.status, call) then Reply(a, None, Conflict)
    else if !a.enabled then Reply(a, None, Forbidden)
    else if WorkersMissing(call) then Reply(a, None, WorkersUnavailable)
    else if !call.valid then
      if a.id in call.broken then Reply(a, None, Raised) else Reply(a.(status := Error), Some(Request.Stop), BadRequest)
    else if p.Some? then AwaitSync(a, p.value, call)
    else Pushing(a, Request.Restart, call)
  }

  /** Status, flag and request are one transaction. */
  function ReplyToDestroy(a: Activation, call: Call): Reply {
    if HeldBack(a.status, call) then Reply(a, None, Conflict)
    else if WorkersMissing(call) then Reply(a, None, WorkersUnavailable)
    else if a.id in call.broken then Reply(a, None, Raised)
    else Reply(a.(status := Deleting, awaiting := false), Some(Request.Delete), NoContent)
  }

  function ReplyTo(view: View, projects: map<nat, Project>, a: Activation, call: Call): Reply {
    match view
    case Enable => ReplyToEnable(projects, a, call)
    case Disable => ReplyToDisable(a, call)
    case Restart => ReplyToRestart(projects, a, call)
    case Destroy => ReplyToDestroy(a, call)
  }

  /** The tables with a new row and its request. */
  function Put(w: World, id: nat, row: Activation, request: Option<Request>): World {
    if request.None? then SaveRow(w, id, row) else PushRequest(SaveRow(w, id, row), id, request.value)
  }

  /** What the views promise: the reply, and the tables as it says. */
  ghost predicate Answers(w: World, t: World, view: View, id: nat, call: Call, r: Response) {
    if id !in w.rows then r == NotFound && t == w
    else
      var reply := ReplyTo(view, w.projects, w.rows[id], call);
      r == reply.response && t == Put(w, id, reply.row, reply.request)
  }

  lemma SameRow(w: World, id: nat)
    requires id in w.rows
    ensures Put(w, id, w.rows[id], None) == w
  {
    assert w.rows[id := w.rows[id]] == w.rows;
  }

  lemma SavedTwice(w: World, id: nat, first: Activation, second: Activation)
    ensures SaveRow(SaveRow(w, id, first), id, second) == SaveRow(w, id, second)
  {
  }

  /** The reply if a sync was needed, or nothing when the caller should go on. */
  method SyncProjectIfNeeded(db: Database, id: nat, a: Activation, call: Call) returns (r: Option<Response>)
    requires id in db.rows && a == db.rows[id]
    modifies db`rows
    ensures var p := SyncFirst(old(db.projects), a, call);
      if p.None? then r == None && db.W() == old(db.W())
      else
        var reply := AwaitSync(a, p.value, call);
        r == Some(reply.response) && db.W() == SaveRow(old(db.W()), id, reply.row)
  {
    ghost var w := db.W();
    var p := SyncFirst(db.projects, a, call);
    if p.None? {
      return None;
    }
    db.Save(id, a.(awaiting := true, status := Pending));
    if p.value.importState !in {ImportPending, ImportRunning} {
      if !call.syncSubmits {
        SavedTwice(w, id, a.(awaiting := true, status := Pending), a.(awaiting := false, status := Error));
        db.Save(id, a.(awaiting := false, status := Error));
        return Some(BadRequest);
      }
    }
    return Some(NoContent);
  }

  method Start(db: Database, id: nat, call: Call) returns (r: Response)
    requires Valid(db.W())
    modifies db
    ensures Answers(old(db.W()), db.W(), Enable, id, call, r)
  {
    if id !in db.rows {
      return NotFound;
    }
    SameRow(db.W(), id);
    var a := db.rows[id];
    if a.enabled {
      return NoContent;
    }
    if CannotStart(a.status) {
      return Conflict;
    }
    if !call.valid {
      db.Save(id, a.(status := Error));
      return BadRequest;
    }
    var synced := SyncProjectIfNeeded(db, id, a, call);
    if synced.Some? {
      return synced.value;
    }
    db.Save(id, a.(enabled := true, failures := 0, status := Pending));
    var ok := db.Push(id, Request.Start, call.broken);
    return if ok then NoContent else Raised;
  }

  method DisableActivation(db: Database, id: nat, call: Call) returns (r: Response)
    requires Valid(db.W())
    modifies db
    ensures Answers(old(db.W()), db.W(), Disable, id, call, r)
    ensures r == NoContent ==> DisableRace.Disabled(db.W(), id)
  {
    ghost var w := db.W();
    if id !in db.rows {
      return NotFound;
    }
    SameRow(w, id);
    var a := db.rows[id];
    if a.status == Deleting {
      return Refused;
    }
    if HeldBack(a.status, call) {
      return Conflict;
    }
    r := SwitchOff(db, id, call);
  }

  method SwitchOff(db: Database, id: nat, call: Call) returns (r: Response)
    requires Valid(db.W()) && id in db.rows && db.rows[id].status != Deleting && !HeldBack(db.rows[id].status, call)
    modifies db
    ensures Answers(old(db.W()), db.W(), Disable, id, call, r)
    ensures r == NoContent ==> DisableRace.Disabled(db.W(), id)
  {
    hide SaveRow, SwitchedOff, PushRequest;
    ghost var w := db.W();
    var a := db.rows[id];
    SameRow(w, id);
    if a.awaiting {
      a := a.(awaiting := false);
      db.Save(id, a);
    }
    OffInSteps(w.rows[id], a);
    if a.enabled {
      if !call.force {
        if !call.workersUp {
          return WorkersUnavailable;
        }
      }
      if a.status == Starting || a.status == Running {
        a := a.(status := Stopping);
      }
      a := a.(enabled := false);
      SavedTwice(w, id, w.rows[id].(awaiting := false), a);
      db.Save(id, a);
      var ok := db.Push(id, Request.Stop, call.broken);
      if !ok {
        return Raised;
      }
      PutIsOff(w, id, a, Some(Request.Stop));
    } else {
      PutIsOff(w, id, a, None);
    }
    return NoContent;
  }

  /** Switching off field by field. */
  lemma OffInSteps(a: Activation, b: Activation)
    requires b == a.(awaiting := false)
    ensures var stops := a.enabled && (a.status == Starting || a.status == Running);
      SwitchedOff(a) == (if stops then b.(status := Stopping) else b).(enabled := false)
    ensures !a.enabled ==> SwitchedOff(a) == b
    ensures !SwitchedOff(a).enabled && !SwitchedOff(a).awaiting && SwitchedOff(a).id == a.id
  {
  }

  lemma PutIsOff(w: World, id: nat, row: Activation, request: Option<Request>)
    requires !row.enabled && !row.awaiting
    ensures DisableRace.Disabled(Put(w, id, row, request), id)
  {
  }

  method RestartActivation(db: Database, id: nat, call: Call) returns (r: Response)
    requires Valid(db.W())
    modifies db
    ensures Answers(old(db.W()), db.W(), View.Restart, id, call, r)
  {
    if id !in db.rows {
      return NotFound;
    }
    SameRow(db.W(), id);
    var a := db.rows[id];
    if a.status == Deleting {
      return Refused;
    }
    if HeldBack(a.status, call) {
      return Conflict;
    }
    if !a.enabled {
      return Forbidden;
    }
    if !call.force {
      if !call.workersUp {
        return WorkersUnavailable;
      }
    }
    if !call.valid {
      var stopped := db.Push(id, Request.Stop, call.broken);
      if !stopped {
        return Raised;
      }
      db.Save(id, a.(status := Error));
      return BadRequest;
    }
    var synced := SyncProjectIfNeeded(db, id, a, call);
    if synced.Some? {
      return synced.value;
    }
    var ok := db.Push(id, Request.Restart, call.broken);
    return if ok then NoContent else Raised;
  }

  method DestroyActivation(db: Database, id: nat, call: Call) returns (r: Response)
    requires Valid(db.W())
    modifies db
    ensures Answers(old(db.W()), db.W(), Destroy, id, call, r)
  {
    if id !in db.rows {
      return NotFound;
    }
    SameRow(db.W(), id);
    var a := db.rows[id];
    if HeldBack(a.status, call) {
      return Conflict;
    }
    if !call.force {
      if !call.workersUp {
        return WorkersUnavailable;
      }
    }
    var before := db.rows;
    db.Save(id, a.(status := Deleting, awaiting := false));
    var ok := db.Push(id, Request.Delete, call.broken);
    if !ok {
      db.rows := before;
      return Raised;
    }
    return NoContent;
  }
}
