/**
 Activations, projects and rulebooks as the project tasks see them, and what one
 task does to one activation it has read: restart it, resume it or fail it. The
 object a task has read may be stale; what it saves are only the named fields.
 */
module ActivationWorld {
  import opened Common
  import opened Arbitration

  datatype Status =
    | Starting | Running | Pending | Failed | Stopping | Stopped | Deleting | Completed | Unresponsive | Error
    | WorkersOffline

  datatype ImportState = ImportPending | ImportRunning | ImportFailed | ImportCompleted

  datatype Activation = Activation(
    id: nat, project: Option<nat>, rulebook: Option<nat>, enabled: bool, restartOnUpdate: bool, awaiting: bool,
    mapped: bool, status: Status, failures: nat, rulesets: string, sha: string, gitHash: string)

  datatype Project = Project(importState: ImportState, modifiedAt: int, gitHash: string)

  datatype Rulebook = Rulebook(project: Option<nat>, rulesets: string, sha: string)

  /** A request pushed to the queue of an activation. */
  datatype Pushed = Pushed(id: nat, request: Request)

  /** `order` is the order in which queries return the activations. */
  datatype World = World(
    rows: map<nat, Activation>, order: seq<nat>, projects: map<nat, Project>, rulebooks: map<nat, Rulebook>,
        pushes: seq<Pushed>)

  ghost predicate Valid(w: World) {
    && (forall a | a in w.rows :: w.rows[a].id == a)
    && (forall a :: a in w.order <==> a in w.rows)
    && (forall i, j | 0 <= i < j < |w.order| :: w.order[i] != w.order[j])
  }

  ghost predicate Busy(state: ImportState) { state == ImportPending || state == ImportRunning }

  ghost predicate HasFailed(status: Status) { status == Failed || status == Error }

  /** The requests pushed for one activation, in order. */
  function PushesOf(pushes: seq<Pushed>, id: nat): seq<Request> {
    if pushes == [] then []
    else
      var last := pushes[|pushes| - 1];
      PushesOf(pushes[..|pushes| - 1], id) + if last.id == id then [last.request] else []
  }

  lemma PushesOfSnoc(pushes: seq<Pushed>, p: Pushed, id: nat)
    ensures PushesOf(pushes + [p], id) == PushesOf(pushes, id) + if p.id == id then [p.request] else []
  {
    assert (pushes + [p])[..|pushes + [p]| - 1] == pushes;
  }

  // ------------------------------------------------------- queries

  datatype Query = CheckedBy(project: nat) | WaitingFor(project: nat) | AnyWaiting

  predicate Matches(q: Query, a: Activation) {
    match q
    case CheckedBy(p) => a.project == Some(p) && a.enabled && a.restartOnUpdate && !a.awaiting
    case WaitingFor(p) => a.project == Some(p) && a.awaiting
    case AnyWaiting => a.awaiting
  }

  /** Whom a restart check is for, source-mapped or not. */
  ghost predicate Checkable(a: Activation, project: nat) {
    a.project == Some(project) && a.enabled && a.restartOnUpdate && !a.awaiting
  }

  ghost predicate WaitsFor(a: Activation, project: nat) { a.project == Some(project) && a.awaiting }

  function Select(w: World, order: seq<nat>, q: Query): (todo: seq<Activation>)
    ensures forall i | 0 <= i < |todo| :: Matches(q, todo[i])
  {
    if order == [] then []
    else
      SelectOne(w, order[0], q) + Select(w, order[1..], q)
  }

  /** The rows a query returns: a snapshot, in table order. */
  function Rows(w: World, q: Query): seq<Activation> { Select(w, w.order, q) }

  ghost predicate DistinctIds(todo: seq<Activation>) {
    forall i, j | 0 <= i < j < |todo| :: todo[i].id != todo[j].id
  }

  ghost predicate Holds(todo: seq<Activation>, id: nat) { exists i :: 0 <= i < |todo| && todo[i].id == id }

  lemma HoldsConcat(p: seq<Activation>, q: seq<Activation>, id: nat)
    ensures Holds(p + q, id) <==> Holds(p, id) || Holds(q, id)
  {
    var all := p + q;
    if Holds(p, id) {
      var i :| 0 <= i < |p| && p[i].id == id;
      assert all[i].id == id;
    }
    if Holds(q, id) {
      var i :| 0 <= i < |q| && q[i].id == id;
      assert all[|p| + i].id == id;
    }
  }

  function SelectOne(w: World, id: nat, q: Query): seq<Activation> {
    if id in w.rows && Matches(q, w.rows[id]) then [w.rows[id]] else []
  }

  lemma {:induction false} SelectHolds(w: World, order: seq<nat>, q: Query, a: nat)
    requires Valid(w)
    ensures Holds(Select(w, order, q), a) <==> a in order && a in w.rows && Matches(q, w.rows[a])
  {
    if order != [] {
      SelectHolds(w, order[1..], q, a);
      HoldsConcat(SelectOne(w, order[0], q), Select(w, order[1..], q), a);
      var one := SelectOne(w, order[0], q);
      assert one != [] ==> one[0].id == order[0];
      assert a in order <==> a == order[0] || a in order[1..];
    }
  }

  lemma {:induction false} SelectSnapshot(w: World, order: seq<nat>, q: Query)
    requires Valid(w)
    ensures Snapshot(w, Select(w, order, q))
  {
    if order != [] {
      SelectSnapshot(w, order[1..], q);
    }
  }

  lemma {:induction false} SelectDistinct(w: World, order: seq<nat>, q: Query)
    requires Valid(w) && forall i, j | 0 <= i < j < |order| :: order[i] != order[j]
    ensures DistinctIds(Select(w, order, q))
  {
    if order != [] {
      SelectDistinct(w, order[1..], q);
      SelectHolds(w, order[1..], q, order[0]);
    }
  }

  /** The objects of `todo` are the rows as they stand. */
  ghost predicate Snapshot(w: World, todo: seq<Activation>) {
    forall i | 0 <= i < |todo| :: todo[i].id in w.rows && todo[i] == w.rows[todo[i].id]
  }

  /** A query returns each matching row once, as it stands. */
  lemma RowsOf(w: World, q: Query, a: nat)
    requires Valid(w)
    ensures DistinctIds(Rows(w, q)) && Snapshot(w, Rows(w, q))
    ensures Holds(Rows(w, q), a) <==> a in w.rows && Matches(q, w.rows[a])
  {
    hide Select;
    SelectHolds(w, w.order, q, a);
    SelectSnapshot(w, w.order, q);
    SelectDistinct(w, w.order, q);
  }

  // ------------------------------------- what a task does to one activation

  function SaveRow(w: World, id: nat, row: Activation): World { w.(rows := w.rows[id := row]) }

  function PushRequest(w: World, id: nat, request: Request): World { w.(pushes := w.pushes + [Pushed(id, request)]) }

  /** Saves status ERROR and a cleared flag; a row that is gone is only logged. */
  function MarkError(w: World, id: nat): World {
    if id in w.rows then w.(rows := w.rows[id := w.rows[id].(status := Error, awaiting := false)]) else w
  }

  /** Cached content taken from the rulebook; a source-mapped activation keeps its stale hash. */
  function FreshContent(w: World, a: Activation, project: Project): Activation {
    var b := if a.rulebook.Some? && a.rulebook.value in w.rulebooks then
               var r := w.rulebooks[a.rulebook.value];
               a.(rulesets := r.rulesets, sha := if a.mapped then a.sha else r.sha)
             else a;
    b.(gitHash := project.gitHash)
  }

  /** Resumes an activation read with its flag set; `ok` says whether its push succeeds. */
  function Resume(w: World, a: Activation, project: Project, ok: bool): World {
    if a.id !in w.rows then w
    else
      var b := FreshContent(w, a, project);
      var row := w.rows[a.id].(awaiting := false, rulesets := b.rulesets, sha := b.sha, gitHash := b.gitHash);
      var saved := SaveRow(w, a.id, if a.enabled then row else row.(enabled := true, failures := 0, status := Pending));
      if ok then PushRequest(saved, a.id, if a.enabled then Restart else Start) else MarkError(saved, a.id)
  }

  /** Pushes the restart, or records that it could not. */
  function TryRestart(w: World, a: Activation, ok: bool): World {
    if a.id in w.rows && ok then
      var pushed := PushRequest(w, a.id, Restart);
      if a.status in {Failed, Error} then SaveRow(pushed, a.id, pushed.rows[a.id].(failures := 0)) else pushed
    else if a.id in w.rows then SaveRow(w, a.id, w.rows[a.id].(status := Error))
    else w
  }

  /** Restarts an activation whose rulebook changed, or that failed; refreshes its cached content. */
  function CheckAndRestart(w: World, a: Activation, project: Project, ok: bool): World {
    if !(a.rulebook.Some? && a.rulebook.value in w.rulebooks) then w
    else
      var r := w.rulebooks[a.rulebook.value];
      var contentChanged, hashChanged := a.sha != r.sha, a.gitHash != project.gitHash;
      if contentChanged && a.mapped then w
      else if (contentChanged || hashChanged) && a.id !in w.rows then w
      else
        var saved := if contentChanged || hashChanged then
            SaveRow(w, a.id, w.rows[a.id].(rulesets := r.rulesets,
                                           sha := r.sha, gitHash := project.gitHash))
          else w;
        if !contentChanged && a.status !in {Failed, Error} then saved else TryRestart(saved, a, ok)
  }

  datatype Job = ResumeJob | RestartJob | FailJob

  function One(job: Job, w: World, a: Activation, project: Project, ok: bool): World {
    match job
    case ResumeJob => Resume(w, a, project, ok)
    case RestartJob => CheckAndRestart(w, a, project, ok)
    case FailJob => MarkError(w, a.id)
  }

  /** The loop of a task over the activations it has read. `broken` are those whose push fails. */
  function RunPass(job: Job, w: World, todo: seq<Activation>, project: Project, broken: set<nat>): World {
    if todo == [] then w
    else
      var last := todo[|todo| - 1];
      One(job, RunPass(job, w, todo[..|todo| - 1], project, broken), last, project, last.id !in broken)
  }

  /** One activation at a time: nothing but its own row and its own requests can change. */
  ghost predicate OnlyTouches(w: World, t: World, id: nat) {
    && t.rows.Keys == w.rows.Keys && t.order == w.order && t.projects == w.projects && t.rulebooks == w.rulebooks
    && (forall b | b in w.rows && b != id :: t.rows[b] == w.rows[b])
    && (forall b: nat | b != id :: PushesOf(t.pushes, b) == PushesOf(w.pushes, b))
    && (id in w.rows && w.rows[id].id == id ==> t.rows[id].id == id)
  }

  lemma SaveIsLocal(w: World, id: nat, row: Activation)
    requires id in w.rows && (w.rows[id].id == id ==> row.id == id)
    ensures OnlyTouches(w, SaveRow(w, id, row), id)
  {
  }

  lemma PushIsLocal(w: World, id: nat, request: Request)
    ensures OnlyTouches(w, PushRequest(w, id, request), id)
  {
    forall b: nat | b != id ensures PushesOf(w.pushes + [Pushed(id, request)], b) == PushesOf(w.pushes, b) {
      PushesOfSnoc(w.pushes, Pushed(id, request), b);
    }
  }

  lemma LocalThen(w: World, t: World, u: World, id: nat)
    requires OnlyTouches(w, t, id) && OnlyTouches(t, u, id)
    ensures OnlyTouches(w, u, id)
  {
  }

  lemma MarkErrorIsLocal(w: World, id: nat)
    ensures OnlyTouches(w, MarkError(w, id), id)
  {
  }

  lemma ResumeIsLocal(w: World, a: Activation, project: Project, ok: bool)
    ensures OnlyTouches(w, Resume(w, a, project, ok), a.id)
  {
    hide OnlyTouches, PushRequest, SaveRow, MarkError, FreshContent;
    if a.id !in w.rows {
      UnchangedIsLocal(w, a.id);
    } else {
      var b := FreshContent(w, a, project);
      var row := w.rows[a.id].(awaiting := false, rulesets := b.rulesets, sha := b.sha, gitHash := b.gitHash);
      var next := if a.enabled then row else row.(enabled := true, failures := 0, status := Pending);
      var saved := SaveRow(w, a.id, next);
      SaveIsLocal(w, a.id, next);
      MarkErrorIsLocal(saved, a.id);
      PushIsLocal(saved, a.id, if a.enabled then Restart else Start);
      LocalThen(w, saved, Resume(w, a, project, ok), a.id);
    }
  }

  lemma UnchangedIsLocal(w: World, id: nat)
    ensures OnlyTouches(w, w, id)
  {
  }

  lemma TryRestartIsLocal(w: World, a: Activation, ok: bool)
    ensures OnlyTouches(w, TryRestart(w, a, ok), a.id)
  {
    hide OnlyTouches, SaveRow, PushesOf;
    UnchangedIsLocal(w, a.id);
    if a.id in w.rows {
      var pushed := PushRequest(w, a.id, Restart);
      PushIsLocal(w, a.id, Restart);
      SaveIsLocal(pushed, a.id, w.rows[a.id].(failures := 0));
      LocalThen(w, pushed, SaveRow(pushed, a.id, w.rows[a.id].(failures := 0)), a.id);
      SaveIsLocal(w, a.id, w.rows[a.id].(status := Error));
    }
  }

  lemma CheckIsLocal(w: World, a: Activation, project: Project, ok: bool)
    ensures OnlyTouches(w, CheckAndRestart(w, a, project, ok), a.id)
  {
    hide OnlyTouches, SaveRow, TryRestart;
    UnchangedIsLocal(w, a.id);
    TryRestartIsLocal(w, a, ok);
    if a.rulebook.Some? && a.rulebook.value in w.rulebooks && a.id in w.rows {
      var r := w.rulebooks[a.rulebook.value];
      var row := w.rows[a.id].(rulesets := r.rulesets, sha := r.sha, gitHash := project.gitHash);
      var saved := SaveRow(w, a.id, row);
      SaveIsLocal(w, a.id, row);
      TryRestartIsLocal(saved, a, ok);
      LocalThen(w, saved, TryRestart(saved, a, ok), a.id);
    }
  }

  lemma OneIsLocal(job: Job, w: World, a: Activation, project: Project, ok: bool)
    ensures OnlyTouches(w, One(job, w, a, project, ok), a.id)
  {
    hide OnlyTouches;
    match job
    case ResumeJob => ResumeIsLocal(w, a, project, ok);
    case RestartJob => CheckIsLocal(w, a, project, ok);
    case FailJob => MarkErrorIsLocal(w, a.id);
  }

  /** The row and the new requests that a job gives an activation, as a function of its row. */
  datatype Effect = Effect(row: Activation, requests: seq<Request>)

  ghost function ResumeEffect(w: World, a: Activation, project: Project, ok: bool): Effect
    requires a.id in w.rows
  {
    var b := FreshContent(w, a, project);
    var row := w.rows[a.id].(awaiting := false, rulesets := b.rulesets, sha := b.sha, gitHash := b.gitHash);
    var next := if a.enabled then row else row.(enabled := true, failures := 0, status := Pending);
    if ok then Effect(next, [if a.enabled then Restart else Start]) else Effect(next.(status := Error), [])
  }

  ghost function CheckEffect(w: World, a: Activation, project: Project, ok: bool): Effect
    requires a.id in w.rows
  {
    var row := w.rows[a.id];
    if !(a.rulebook.Some? && a.rulebook.value in w.rulebooks) then Effect(row, [])
    else
      var r := w.rulebooks[a.rulebook.value];
      if a.sha != r.sha && a.mapped then Effect(row, [])
      else
        var updated := if a.sha == r.sha && a.gitHash == project.gitHash then row
          else row.(rulesets := r.rulesets, sha := r.sha, gitHash := project.gitHash);
        if a.sha == r.sha && !HasFailed(a.status) then Effect(updated, [])
        else if !ok then Effect(updated.(status := Error), [])
        else Effect(if HasFailed(a.status) then updated.(failures := 0) else updated, [Restart])
  }

  ghost function EffectOf(job: Job, w: World, a: Activation, project: Project, ok: bool): Effect
    requires a.id in w.rows
  {
    match job
    case ResumeJob => ResumeEffect(w, a, project, ok)
    case RestartJob => CheckEffect(w, a, project, ok)
    case FailJob => Effect(w.rows[a.id].(status := Error, awaiting := false), [])
  }

  ghost predicate HasEffect(w: World, t: World, id: nat, e: Effect) {
    id in w.rows && id in t.rows && t.rows[id] == e.row && PushesOf(t.pushes, id) == PushesOf(w.pushes, id) + e.requests
  }

  lemma FreshAgrees(w: World, u: World, a: Activation, project: Project)
    requires w.rulebooks == u.rulebooks
    ensures FreshContent(w, a, project) == FreshContent(u, a, project)
  {
  }

  lemma ResumeEffectAgrees(w: World, u: World, a: Activation, project: Project, ok: bool)
    requires a.id in w.rows && a.id in u.rows && w.rows[a.id] == u.rows[a.id] && w.rulebooks == u.rulebooks
    ensures ResumeEffect(w, a, project, ok) == ResumeEffect(u, a, project, ok)
  {
    hide FreshContent;
    FreshAgrees(w, u, a, project);
  }

  lemma CheckEffectAgrees(w: World, u: World, a: Activation, project: Project, ok: bool)
    requires a.id in w.rows && a.id in u.rows && w.rows[a.id] == u.rows[a.id] && w.rulebooks == u.rulebooks
    ensures CheckEffect(w, a, project, ok) == CheckEffect(u, a, project, ok)
  {
  }

  lemma ResumeHasEffect(w: World, a: Activation, project: Project, ok: bool)
    requires a.id in w.rows
    ensures HasEffect(w, Resume(w, a, project, ok), a.id, ResumeEffect(w, a, project, ok))
  {
    hide PushesOf, FreshContent;
    PushesOfSnoc(w.pushes, Pushed(a.id, if a.enabled then Restart else Start), a.id);
    assert PushesOf(w.pushes, a.id) + [] == PushesOf(w.pushes, a.id);
  }

  lemma TryRestartHasEffect(w: World, a: Activation, ok: bool)
    requires a.id in w.rows
    ensures var row := w.rows[a.id];
      HasEffect(w, TryRestart(w, a, ok), a.id,
        if !ok then Effect(row.(status := Error), [])
        else Effect(if HasFailed(a.status) then row.(failures := 0) else row, [Restart]))
  {
    hide PushesOf;
    PushesOfSnoc(w.pushes, Pushed(a.id, Restart), a.id);
    assert PushesOf(w.pushes, a.id) + [] == PushesOf(w.pushes, a.id);
  }

  lemma CheckHasEffect(w: World, a: Activation, project: Project, ok: bool)
    requires a.id in w.rows
    ensures HasEffect(w, CheckAndRestart(w, a, project, ok), a.id, CheckEffect(w, a, project, ok))
  {
    hide PushesOf, TryRestart;
    TryRestartHasEffect(w, a, ok);
    if a.rulebook.Some? && a.rulebook.value in w.rulebooks {
      var r := w.rulebooks[a.rulebook.value];
      TryRestartHasEffect(SaveRow(w, a.id, w.rows[a.id].(rulesets := r.rulesets,
                                                         sha := r.sha, gitHash := project.gitHash)), a, ok);
    }
    assert PushesOf(w.pushes, a.id) + [] == PushesOf(w.pushes, a.id);
  }

  lemma OneHasEffect(job: Job, w: World, u: World, a: Activation, project: Project, ok: bool)
    requires a.id in w.rows && a.id in u.rows && u.rows[a.id] == w.rows[a.id] && u.rulebooks == w.rulebooks
    ensures HasEffect(u, One(job, u, a, project, ok), a.id, EffectOf(job, w, a, project, ok))
  {
    hide Resume, CheckAndRestart, ResumeEffect, CheckEffect;
    match job
    case ResumeJob =>
      ResumeHasEffect(u, a, project, ok);
      ResumeEffectAgrees(w, u, a, project, ok);
    case RestartJob =>
      CheckHasEffect(u, a, project, ok);
      CheckEffectAgrees(w, u, a, project, ok);
    case FailJob => assert PushesOf(u.pushes, a.id) + [] == PushesOf(u.pushes, a.id);
  }

  ghost predicate Untouched(w: World, t: World, id: nat) {
    (id in t.rows <==> id in w.rows) && (id in w.rows ==> t.rows[id] == w.rows[id])
    && PushesOf(t.pushes, id) == PushesOf(w.pushes, id)
  }

  ghost predicate SameTables(w: World, t: World) {
    t.rows.Keys == w.rows.Keys && t.order == w.order && t.projects == w.projects && t.rulebooks == w.rulebooks
  }

  lemma LocalFrame(w: World, t: World, u: World, id: nat)
    requires Valid(t) && SameTables(w, t) && OnlyTouches(t, u, id)
    ensures Valid(u) && SameTables(w, u)
  {
  }

  lemma {:induction false} RunPassFrame(job: Job, w: World, todo: seq<Activation>, project: Project, broken: set<nat>)
    requires Valid(w)
    ensures Valid(RunPass(job, w, todo, project, broken)) && SameTables(w, RunPass(job, w, todo, project, broken))
  {
    hide One, OnlyTouches, Valid;
    if todo != [] {
      var n := |todo| - 1;
      var mid := RunPass(job, w, todo[..n], project, broken);
      RunPassFrame(job, w, todo[..n], project, broken);
      OneIsLocal(job, mid, todo[n], project, todo[n].id !in broken);
      LocalFrame(w, mid, One(job, mid, todo[n], project, todo[n].id !in broken), todo[n].id);
    }
  }

  lemma UntouchedThen(w: World, mid: World, t: World, id: nat, a: nat)
    requires OnlyTouches(mid, t, id) && id != a
    ensures Untouched(w, mid, a) ==> Untouched(w, t, a)
    ensures forall e :: HasEffect(w, mid, a, e) ==> HasEffect(w, t, a, e)
  {
  }

  lemma EffectAfter(w: World, mid: World, t: World, id: nat, e: Effect)
    requires Untouched(w, mid, id) && HasEffect(mid, t, id, e)
    ensures HasEffect(w, t, id, e)
  {
  }

  /** What a pass does to one activation: its own effect if the pass has read it, and nothing otherwise. */
  ghost predicate PassResult(job: Job, w: World, todo: seq<Activation>, project: Project, broken: set<nat>, a: nat,
                             t: World) {
    if Holds(todo, a) then
      && a in w.rows && w.rows[a].id == a
      && HasEffect(w, t, a, EffectOf(job, w, w.rows[a], project, a !in broken))
    else Untouched(w, t, a)
  }

  lemma {:induction false} PassEffect(job: Job, w: World, todo: seq<Activation>, project: Project, broken: set<nat>,
                                      a: nat)
    requires Valid(w) && DistinctIds(todo) && Snapshot(w, todo)
    ensures PassResult(job, w, todo, project, broken, a, RunPass(job, w, todo, project, broken))
  {
    hide One, EffectOf, HasEffect, Untouched, OnlyTouches;
    if todo == [] {
      NothingTouched(w, a);
    } else {
      var n := |todo| - 1;
      var prefix, last := todo[..n], todo[n];
      var mid := RunPass(job, w, prefix, project, broken);
      var t := One(job, mid, last, project, last.id !in broken);
      PassEffect(job, w, prefix, project, broken, a);
      RunPassFrame(job, w, prefix, project, broken);
      OneIsLocal(job, mid, last, project, last.id !in broken);
      assert todo == prefix + [last];
      HoldsConcat(prefix, [last], a);
      assert [last][0] == last;
      if last.id == a {
        assert !Holds(prefix, a);
        UntouchedRow(w, mid, a);
        OneHasEffect(job, w, mid, last, project, a !in broken);
        EffectAfter(w, mid, t, a, EffectOf(job, w, last, project, a !in broken));
      } else {
        UntouchedThen(w, mid, t, last.id, a);
      }
    }
  }

  lemma NothingTouched(w: World, a: nat)
    ensures Untouched(w, w, a)
  {
  }

  lemma UntouchedRow(w: World, t: World, a: nat)
    requires Untouched(w, t, a) && a in w.rows
    ensures a in t.rows && t.rows[a] == w.rows[a]
  {
  }
}
