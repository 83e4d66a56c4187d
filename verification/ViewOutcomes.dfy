/**
 What each view of an activation comes to: when it is accepted, what is saved and
 queued then, and what is left behind when it is not, said of the row that it finds,
 the arguments of the call, and the state of the project.
 */
module ViewOutcomes {
  import opened Common
  import opened Arbitration
  import opened ActivationWorld
  import opened ProjectSync
  import opened ActivationViews

  /** Its project must be synced before it may run. */
  ghost predicate MustSync(w: World, a: Activation, call: Call) {
    a.project.Some? && a.project.value in w.projects && a.project.value in call.updateOnLaunch
  }

  /** That sync is under way, or could be submitted. */
  ghost predicate SyncComes(w: World, a: Activation, call: Call)
    requires MustSync(w, a, call)
  {
    || w.projects[a.project.value].importState == ImportPending
    || w.projects[a.project.value].importState == ImportRunning
    || call.syncSubmits
  }

  /** The activation may run once its project is synced, if it must be. */
  ghost predicate Launches(w: World, a: Activation, call: Call) {
    call.valid && if MustSync(w, a, call) then SyncComes(w, a, call) else a.id !in call.broken
  }

  /** Nothing but the row of the activation and its own queue has changed. */
  ghost predicate Becomes(w: World, t: World, id: nat, row: Activation, requests: seq<Request>) {
    && t == w.(rows := w.rows[id := row], pushes := t.pushes)
    && NewRequests(w, t, id, requests)
    && forall b: nat | b != id :: PushesOf(t.pushes, b) == PushesOf(w.pushes, b)
  }

  /** On podman an activation whose workers are offline is left alone unless forced. */
  ghost predicate Offline(a: Activation, call: Call) { call.podman && a.status == WorkersOffline && !call.force }

  ghost predicate WorkersThere(call: Call) { call.force || call.workersUp }

  lemma {:induction false} PutBecomes(w: World, id: nat, row: Activation, request: Option<Request>)
    requires id in w.rows
    ensures Becomes(w, Put(w, id, row, request), id, row, if request.Some? then [request.value] else [])
  {
    hide PushesOf;
    if request.Some? {
      PushIsLocal(w, id, request.value);
      PushesOfSnoc(w.pushes, Pushed(id, request.value), id);
    } else {
      SamePushes(w, Put(w, id, row, request), id);
    }
  }

  /** What is saved when an activation must wait for its project first. */
  ghost function Waiting(w: World, a: Activation, call: Call): Activation
    requires MustSync(w, a, call)
  {
    if SyncComes(w, a, call) then a.(awaiting := true, status := Pending) else a.(awaiting := false, status := Error)
  }

  /**
   Enabling: a Start is queued, with status PENDING and no failures counted, for one that
   is off, at rest, valid and need not wait; the others wait, or stay as they are, or are
   put in error.
   */
  lemma {:induction false} EnableOutcome(w: World, t: World, id: nat, call: Call, r: Response)
    requires Valid(w) && id in w.rows && Answers(w, t, Enable, id, call, r)
    ensures var a := w.rows[id];
      var atRest := a.status in {Pending, Failed, Stopped, Completed, Error, WorkersOffline};
      var on := a.(enabled := true, failures := 0, status := Pending);
      && (r == NoContent <==> a.enabled || (atRest && Launches(w, a, call)))
      && (r == Conflict <==> !a.enabled && !atRest)
      && (r == Raised <==> !a.enabled && atRest && call.valid && !MustSync(w, a, call) && id in call.broken)
      && (r in {NoContent, Conflict, Raised, BadRequest})
      && Becomes(w, t, id,
           if a.enabled || !atRest then a
           else if !call.valid then a.(status := Error)
           else if MustSync(w, a, call) then Waiting(w, a, call)
           else on,
           if r == NoContent && !a.enabled && !MustSync(w, a, call) then [Start] else [])
  {
    hide Becomes, Put;
    var reply := ReplyTo(Enable, w.projects, w.rows[id], call);
    PutBecomes(w, id, reply.row, reply.request);
  }

  /**
   Disabling: an enabled activation is stopped by a queued Stop, and shows STOPPING
   exactly if it was starting or running; one that is off only stops waiting.
   */
  lemma {:induction false} DisableOutcome(w: World, t: World, id: nat, call: Call, r: Response)
    requires Valid(w) && id in w.rows && Answers(w, t, Disable, id, call, r)
    ensures var a := w.rows[id];
      var allowed := a.status != Deleting && !Offline(a, call);
      var off := a.(enabled := false, awaiting := false);
      && (r == Refused <==> a.status == Deleting)
      && (r == Conflict <==> a.status != Deleting && Offline(a, call))
      && (r == WorkersUnavailable <==> allowed && a.enabled && !WorkersThere(call))
      && (r == Raised <==> allowed && a.enabled && WorkersThere(call) && id in call.broken)
      && (r == NoContent <==> allowed && (!a.enabled || (WorkersThere(call) && id !in call.broken)))
      && Becomes(w, t, id,
           if !allowed then a
           else if !a.enabled || !WorkersThere(call) then a.(awaiting := false)
           else if a.status == Starting || a.status == Running then off.(status := Stopping)
           else off,
           if r == NoContent && a.enabled then [Stop] else [])
  {
    hide Becomes, Put;
    var reply := ReplyTo(Disable, w.projects, w.rows[id], call);
    PutBecomes(w, id, reply.row, reply.request);
  }

  /**
   Restarting: a Restart is queued, and the row left alone, for an activation that is on,
   has workers, is valid and need not wait; an invalid one is stopped and put in error.
   */
  lemma {:induction false} RestartOutcome(w: World, t: World, id: nat, call: Call, r: Response)
    requires Valid(w) && id in w.rows && Answers(w, t, View.Restart, id, call, r)
    ensures var a := w.rows[id];
      var allowed := a.status != Deleting && !Offline(a, call) && a.enabled && WorkersThere(call);
      && (r == NoContent <==> allowed && Launches(w, a, call))
      && (r == Refused <==> a.status == Deleting)
      && (r == Conflict <==> a.status != Deleting && Offline(a, call))
      && (r == Forbidden <==> a.status != Deleting && !Offline(a, call) && !a.enabled)
      && (r == WorkersUnavailable <==> a.status != Deleting && !Offline(a, call) && a.enabled && !WorkersThere(call))
      && (r == Raised <==> allowed && id in call.broken && !(call.valid && MustSync(w, a, call)))
      && Becomes(w, t, id,
           if !allowed || r == Raised then a
           else if !call.valid then a.(status := Error)
           else if MustSync(w, a, call) then Waiting(w, a, call)
           else a,
           if !allowed || r == Raised then []
           else if !call.valid then [Stop]
           else if MustSync(w, a, call) then []
           else [Request.Restart])
  {
    hide Becomes, Put;
    var reply := ReplyTo(View.Restart, w.projects, w.rows[id], call);
    PutBecomes(w, id, reply.row, reply.request);
  }

  /**
   Deleting: accepted whatever the status, once the workers are there or it is forced;
   status, flag and request change together or not at all.
   */
  lemma {:induction false} DestroyOutcome(w: World, t: World, id: nat, call: Call, r: Response)
    requires Valid(w) && id in w.rows && Answers(w, t, Destroy, id, call, r)
    ensures var a := w.rows[id];
      && (r == NoContent <==> !Offline(a, call) && WorkersThere(call) && id !in call.broken)
      && (r == Conflict <==> Offline(a, call))
      && (r == WorkersUnavailable <==> !Offline(a, call) && !WorkersThere(call))
      && (r == Raised <==> !Offline(a, call) && WorkersThere(call) && id in call.broken)
      && if r == NoContent then Becomes(w, t, id, a.(status := Deleting, awaiting := false), [Request.Delete])
         else t == w
  {
    hide Becomes, Put;
    var reply := ReplyTo(Destroy, w.projects, w.rows[id], call);
    PutBecomes(w, id, reply.row, reply.request);
    SameRow(w, id);
  }
}
