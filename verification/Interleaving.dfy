/**
 Project tasks at work while users act. A pass has read its activations and works
 through them one by one, first saving the row, then pushing the request; between
 any two of these steps the tables can change under it. What cannot change are the
 hashes of the rulebooks that a restart pass compares with: only a sync of their
 project writes them, and the sync that runs the pass holds that project's lock.
 */
module Interleaving {
  import opened Common
  import opened Arbitration
  import opened ActivationWorld
  import opened ProjectImport
  import opened ProjectSync

  // ------------------------------------- one activation in two steps

  /** The world after the save, and whether a push follows. */
  datatype Saved = Saved(w: World, push: bool)

  function SaveFirst(job: Job, w: World, a: Activation, project: Project): Saved {
    match job
    case FailJob => Saved(MarkError(w, a.id), false)
    case ResumeJob =>
      if a.id !in w.rows then Saved(w, false)
      else
        var b := FreshContent(w, a, project);
        var row := w.rows[a.id].(awaiting := false, rulesets := b.rulesets, sha := b.sha, gitHash := b.gitHash);
        var next := if a.enabled then row else row.(enabled := true, failures := 0, status := Pending);
        Saved(SaveRow(w, a.id, next), true)
    case RestartJob =>
      if !(a.rulebook.Some? && a.rulebook.value in w.rulebooks) then Saved(w, false)
      else
        var r := w.rulebooks[a.rulebook.value];
        var contentChanged, hashChanged := a.sha != r.sha, a.gitHash != project.gitHash;
        if contentChanged && a.mapped then Saved(w, false)
        else if (contentChanged || hashChanged) && a.id !in w.rows then Saved(w, false)
        else
          var saved := if contentChanged || hashChanged then
              SaveRow(w, a.id, w.rows[a.id].(rulesets := r.rulesets,
                                             sha := r.sha, gitHash := project.gitHash))
            else w;
          Saved(saved, contentChanged || a.status in {Failed, Error})
  }

  function ThenPush(job: Job, w: World, a: Activation, ok: bool): World {
    match job
    case FailJob => w
    case ResumeJob =>
      if a.id in w.rows && ok then PushRequest(w, a.id, if a.enabled then Restart else Start) else MarkError(w, a.id)
    case RestartJob => TryRestart(w, a, ok)
  }

  /** With nothing in between, the two steps are what a pass does to one activation. */
  lemma TwoStepsAreOne(job: Job, w: World, a: Activation, project: Project, ok: bool)
    ensures var s := SaveFirst(job, w, a, project);
      One(job, w, a, project, ok) == if s.push then ThenPush(job, s.w, a, ok) else s.w
  {
  }

  lemma SaveFirstIsLocal(job: Job, w: World, a: Activation, project: Project)
    ensures OnlyTouches(w, SaveFirst(job, w, a, project).w, a.id) && SaveFirst(job, w, a, project).w.pushes == w.pushes
  {
  }

  lemma ThenPushIsLocal(job: Job, w: World, a: Activation, ok: bool)
    ensures OnlyTouches(w, ThenPush(job, w, a, ok), a.id)
  {
    hide OnlyTouches, TryRestart, PushRequest, MarkError, PushesOf;
    UnchangedIsLocal(w, a.id);
    TryRestartIsLocal(w, a, ok);
    MarkErrorIsLocal(w, a.id);
    PushIsLocal(w, a.id, if a.enabled then Restart else Start);
  }

  // ------------------------------------- passes that run side by side

  /** `pushing`: the first activation of `todo` is saved, its push comes next. */
  datatype Pass = Pass(job: Job, query: Query, todo: seq<Activation>, project: Project, pushing: bool)

  datatype Sys = Sys(w: World, passes: map<nat, Pass>)

  /**
   Tasks read (`Open`) and work; the monitor may leave one alone (`Skip`). `Import` is the
   transaction of a sync, `AddRulebooks` that of a first import. `UserActs` stands for
   anything that views, the manager or editing do to one activation.
   */
  datatype Step =
    | Open(k: nat, job: Job, query: Query, project: Project)
    | Save(k: nat)
    | Push(k: nat, ok: bool)
    | Skip(k: nat)
    | Import(pid: nat, gitHash: string, files: Option<map<nat, File>>)
    | AddRulebooks(added: map<nat, Rulebook>)
    | SetProjects(projects: map<nat, Project>)
    | DeleteProject(pid: nat)
    | SetStatus(id: nat, status: Status)
    | Remove(id: nat)
    | UserActs(id: nat, row: Activation, requests: seq<Request>)

  /** What each task reads: the monitor fails any that wait, the others belong to one project. */
  predicate ReadsFor(job: Job, q: Query) {
    match job
    case ResumeJob => q.WaitingFor?
    case RestartJob => q.CheckedBy?
    case FailJob => q.WaitingFor? || q.AnyWaiting?
  }

  /** A sync of the project is at its restarts, and so holds the project's lock. */
  predicate Restarting(s: Sys, pid: nat) {
    exists k | k in s.passes ::
      s.passes[k].job == RestartJob && s.passes[k].query == CheckedBy(pid) && s.passes[k].todo != []
  }

  predicate MayOpen(s: Sys, k: nat, job: Job, q: Query) {
    k !in s.passes && ReadsFor(job, q) && (job == RestartJob ==> !Restarting(s, q.project))
  }

  predicate NotIn(todo: seq<Activation>, id: nat) { forall i | 0 <= i < |todo| :: todo[i].rulebook != Some(id) }

  /** Nothing refers to the id yet, as with one that is about to be drawn. */
  predicate Unknown(s: Sys, id: nat) {
    && id !in s.w.rulebooks
    && (forall a | a in s.w.rows :: s.w.rows[a].rulebook != Some(id))
    && (forall k | k in s.passes :: NotIn(s.passes[k].todo, id))
  }

  predicate MayImport(s: Sys, pid: nat, files: Option<map<nat, File>>) {
    && pid in s.w.projects && !Restarting(s, pid)
    && (files.Some? ==> forall id | id in files.value :: id in s.w.rulebooks || Unknown(s, id))
  }

  /** An activation belongs to the project of its rulebook. */
  predicate Tidy(a: Activation, rulebooks: map<nat, Rulebook>) {
    a.rulebook.Some? && a.rulebook.value in rulebooks ==> rulebooks[a.rulebook.value].project == a.project
  }

  function PushAll(w: World, id: nat, requests: seq<Request>): World {
    if requests == [] then w else PushRequest(PushAll(w, id, requests[..|requests| - 1]), id, requests[|requests| - 1])
  }

  /** Any new value for the fields of one row, and any requests for it. */
  function User(w: World, id: nat, row: Activation, requests: seq<Request>): World {
    if id in w.rows && Tidy(row, w.rulebooks) then PushAll(SaveRow(w, id, row.(id := id)), id, requests) else w
  }

  function RemoveRow(w: World, id: nat): World {
    w.(rows := map b | b in w.rows && b != id :: w.rows[b], order := Without(w.order, id))
  }

  function Without(order: seq<nat>, id: nat): seq<nat> {
    if order == [] then [] else (if order[0] == id then [] else [order[0]]) + Without(order[1..], id)
  }

  predicate Own(rulebooks: map<nat, Rulebook>, pid: nat, id: nat) {
    id in rulebooks && rulebooks[id].project == Some(pid)
  }

  function Bereft(row: Activation, rulebooks: map<nat, Rulebook>, pid: nat): Activation {
    row.(rulebook := if row.rulebook.Some? && Own(rulebooks, pid, row.rulebook.value) then None else row.rulebook,
         project := if row.project == Some(pid) then None else row.project)
  }

  /** The rulebooks of a project go with it, and activations lose both. */
  function WithoutProject(w: World, pid: nat): World {
    w.(projects := w.projects - {pid},
       rulebooks := map r | r in w.rulebooks && !Own(w.rulebooks, pid, r) :: w.rulebooks[r],
       rows := map a | a in w.rows :: Bereft(w.rows[a], w.rulebooks, pid))
  }

  function SaveHead(s: Sys, k: nat): Sys
    requires k in s.passes && s.passes[k].todo != [] && !s.passes[k].pushing
  {
    var p := s.passes[k];
    var saved := SaveFirst(p.job, s.w, p.todo[0], p.project);
    Sys(saved.w, s.passes[k := if saved.push then p.(pushing := true) else p.(todo := p.todo[1..])])
  }

  function PushHead(s: Sys, k: nat, ok: bool): Sys
    requires k in s.passes && s.passes[k].todo != [] && s.passes[k].pushing
  {
    var p := s.passes[k];
    Sys(ThenPush(p.job, s.w, p.todo[0], ok), s.passes[k := p.(todo := p.todo[1..], pushing := false)])
  }

  function SkipHead(s: Sys, k: nat): Sys
    requires k in s.passes && s.passes[k].todo != []
  {
    s.(passes := s.passes[k := s.passes[k].(todo := s.passes[k].todo[1..])])
  }

  predicate AtSave(s: Sys, k: nat) { k in s.passes && s.passes[k].todo != [] && !s.passes[k].pushing }

  predicate AtPush(s: Sys, k: nat) { k in s.passes && s.passes[k].todo != [] && s.passes[k].pushing }

  /** One step; a step that is not possible changes nothing. */
  function Apply(s: Sys, step: Step): Sys {
    match step
    case Open(k, job, q, project) =>
      if MayOpen(s, k, job, q) then s.(passes := s.passes[k := Pass(job, q, Rows(s.w, q), project, false)]) else s
    case Save(k) => if AtSave(s, k) then SaveHead(s, k) else s
    case Push(k, ok) => if AtPush(s, k) then PushHead(s, k, ok) else s
    case Skip(k) => if AtSave(s, k) && s.passes[k].job == FailJob then SkipHead(s, k) else s
    case Import(pid, gitHash, files) =>
      if MayImport(s, pid, files) then s.(w := Imported(s.w, pid, gitHash, files)) else s
    case AddRulebooks(added) =>
      if forall id | id in added :: Unknown(s, id) then s.(w := s.w.(rulebooks := s.w.rulebooks + added)) else s
    case SetProjects(projects) => s.(w := s.w.(projects := projects))
    case DeleteProject(pid) => s.(w := WithoutProject(s.w, pid))
    case SetStatus(id, status) =>
      if id in s.w.rows then s.(w := SaveRow(s.w, id, s.w.rows[id].(status := status))) else s
    case Remove(id) => s.(w := RemoveRow(s.w, id))
    case UserActs(id, row, requests) => s.(w := User(s.w, id, row, requests))
  }

  function Exec(s: Sys, run: seq<Step>): Sys
    decreases |run|
  {
    if run == [] then s else Exec(Apply(s, run[0]), run[1..])
  }

  /** Nobody but the tasks has to do with the activation. */
  ghost predicate NoUser(run: seq<Step>, a: nat) {
    forall i | 0 <= i < |run| :: run[i].UserActs? ==> run[i].id != a
  }

  // ------------------------------------- what can happen

  /** No sync of the project is at its restarts. */
  ghost predicate LockIsFree(s: Sys, pid: nat) {
    forall k | k in s.passes && s.passes[k].job == RestartJob && s.passes[k].query == CheckedBy(pid) ::
      s.passes[k].todo == []
  }

  /** An id of a rulebook that is there, or one that no row and no object in a task's hands refers to. */
  ghost predicate IsOrWillBe(s: Sys, id: nat) {
    id in s.w.rulebooks || (&& (forall a | a in s.w.rows :: s.w.rows[a].rulebook != Some(id))
                            && (forall k, i | k in s.passes && 0 <= i < |s.passes[k].todo| ::
                                  s.passes[k].todo[i].rulebook != Some(id)))
  }

  /** An import happens exactly for an existing project whose lock is free. */
  lemma ImportHappens(s: Sys, pid: nat, gitHash: string, files: Option<map<nat, File>>)
    ensures Apply(s, Import(pid, gitHash, files)) ==
      if && pid in s.w.projects && LockIsFree(s, pid)
         && (files.Some? ==> forall id | id in files.value :: IsOrWillBe(s, id))
      then s.(w := Imported(s.w, pid, gitHash, files)) else s
  {
    hide Imported;
    assert Restarting(s, pid) <==> !LockIsFree(s, pid);
    forall id ensures id in s.w.rulebooks || Unknown(s, id) <==> IsOrWillBe(s, id) {
      if id !in s.w.rulebooks {
        if IsOrWillBe(s, id) {
          forall k | k in s.passes ensures NotIn(s.passes[k].todo, id) {
          }
        }
        if Unknown(s, id) {
          forall k, i | k in s.passes && 0 <= i < |s.passes[k].todo|
            ensures s.passes[k].todo[i].rulebook != Some(id)
          {
            assert NotIn(s.passes[k].todo, id);
          }
        }
      }
    }
  }

  /** A task begins whenever it likes, but a restart pass only when no other of its project is under way. */
  lemma OpenHappens(s: Sys, k: nat, job: Job, q: Query, project: Project)
    requires k !in s.passes
    ensures Apply(s, Open(k, job, q, project)) ==
      if match job
         case ResumeJob => q.WaitingFor?
         case RestartJob => q.CheckedBy? && LockIsFree(s, q.project)
         case FailJob => !q.CheckedBy?
      then s.(passes := s.passes[k := Pass(job, q, Rows(s.w, q), project, false)]) else s
  {
    hide Rows;
    if q.CheckedBy? {
      assert Restarting(s, q.project) <==> !LockIsFree(s, q.project);
    }
  }

  /** With a project go its rulebooks, and activations lose both. */
  lemma DeletionHappens(s: Sys, pid: nat, a: nat)
    requires a in s.w.rows
    ensures var t, row := Apply(s, DeleteProject(pid)).w, s.w.rows[a];
      && t.projects == s.w.projects - {pid} && t.rows.Keys == s.w.rows.Keys && t.pushes == s.w.pushes
      && (forall r :: r in t.rulebooks <==> r in s.w.rulebooks && s.w.rulebooks[r].project != Some(pid))
      && (forall r | r in t.rulebooks :: t.rulebooks[r] == s.w.rulebooks[r])
      && t.rows[a].project == (if row.project == Some(pid) then None else row.project)
      && t.rows[a].rulebook == if row.rulebook.Some? && row.rulebook.value in s.w.rulebooks
                                  && s.w.rulebooks[row.rulebook.value].project == Some(pid) then None else row.rulebook
  {
  }

  /** Only the monitor passes activations over. */
  lemma SkipHappens(s: Sys, k: nat)
    requires k in s.passes
    ensures Apply(s, Skip(k)) ==
      if s.passes[k].job == FailJob && s.passes[k].todo != [] && !s.passes[k].pushing then
        s.(passes := s.passes[k := s.passes[k].(todo := s.passes[k].todo[1..])])
      else s
  {
  }

  // ------------------------------------- runs

  lemma {:induction false} ExecConcat(s: Sys, r1: seq<Step>, r2: seq<Step>)
    ensures Exec(s, r1 + r2) == Exec(Exec(s, r1), r2)
    decreases |r1|
  {
    hide Apply;
    if r1 == [] {
      assert r1 + r2 == r2;
    } else {
      assert (r1 + r2)[1..] == r1[1..] + r2;
      ExecConcat(Apply(s, r1[0]), r1[1..], r2);
    }
  }

  lemma ExecNothing(s: Sys)
    ensures Exec(s, []) == s
  {
  }

  lemma ExecOne(s: Sys, x: Step)
    ensures Exec(s, [x]) == Apply(s, x)
  {
    hide Apply;
    assert [x][1..] == [];
  }

  lemma ExecTwo(s: Sys, x: Step, y: Step)
    ensures Exec(s, [x, y]) == Apply(Apply(s, x), y)
  {
    hide Apply;
    assert [x, y] == [x] + [y];
    ExecConcat(s, [x], [y]);
    ExecOne(s, x);
    ExecOne(Apply(s, x), y);
  }

  // ------------------------------------- what holds in every run

  ghost predicate Distinct(order: seq<nat>) { forall i, j | 0 <= i < j < |order| :: order[i] != order[j] }

  lemma {:induction false} WithoutHas(order: seq<nat>, id: nat, b: nat)
    ensures b in Without(order, id) <==> b in order && b != id
  {
    if order != [] {
      WithoutHas(order[1..], id, b);
      assert b in order <==> b == order[0] || b in order[1..];
    }
  }

  lemma DistinctCons(x: nat, rest: seq<nat>)
    requires Distinct(rest) && x !in rest
    ensures Distinct([x] + rest)
  {
  }

  lemma {:induction false} WithoutDistinct(order: seq<nat>, id: nat)
    requires Distinct(order)
    ensures Distinct(Without(order, id))
  {
    if order != [] {
      WithoutDistinct(order[1..], id);
      WithoutHas(order[1..], id, order[0]);
      assert order[0] !in order[1..];
      if order[0] != id {
        DistinctCons(order[0], Without(order[1..], id));
      } else {
        assert Without(order, id) == Without(order[1..], id);
      }
    }
  }

  lemma RemoveKeepsValid(w: World, id: nat)
    requires Valid(w)
    ensures Valid(RemoveRow(w, id))
  {
    hide Without;
    var t := RemoveRow(w, id);
    forall b: nat ensures b in t.order <==> b in t.rows {
      WithoutHas(w.order, id, b);
    }
    assert Distinct(w.order);
    WithoutDistinct(w.order, id);
  }

  lemma {:induction false} PushAllIsLocal(w: World, id: nat, requests: seq<Request>)
    ensures OnlyTouches(w, PushAll(w, id, requests), id)
  {
    hide OnlyTouches, PushRequest;
    if requests == [] {
      UnchangedIsLocal(w, id);
    } else {
      var n := |requests| - 1;
      PushAllIsLocal(w, id, requests[..n]);
      PushIsLocal(PushAll(w, id, requests[..n]), id, requests[n]);
      LocalThen(w, PushAll(w, id, requests[..n]), PushAll(w, id, requests), id);
    }
  }

  lemma UserIsLocal(w: World, id: nat, row: Activation, requests: seq<Request>)
    ensures OnlyTouches(w, User(w, id, row, requests), id)
  {
    hide OnlyTouches, PushAll, SaveRow, Tidy;
    if id in w.rows && Tidy(row, w.rulebooks) {
      SaveIsLocal(w, id, row.(id := id));
      PushAllIsLocal(SaveRow(w, id, row.(id := id)), id, requests);
      LocalThen(w, SaveRow(w, id, row.(id := id)), User(w, id, row, requests), id);
    } else {
      UnchangedIsLocal(w, id);
    }
  }

  ghost predicate DistinctTodos(s: Sys) { forall k | k in s.passes :: DistinctIds(s.passes[k].todo) }

  /** A pass reads what its task reads; a restart check, activations and rulebooks of one project. */
  ghost predicate Reads(p: Pass, rulebooks: map<nat, Rulebook>) {
    && ReadsFor(p.job, p.query)
    && (p.job == RestartJob ==>
          forall i | 0 <= i < |p.todo| :: p.todo[i].project == Some(p.query.project) && Tidy(p.todo[i], rulebooks))
  }

  ghost predicate AllTidy(rows: map<nat, Activation>, rulebooks: map<nat, Rulebook>) {
    forall a | a in rows :: Tidy(rows[a], rulebooks)
  }

  ghost predicate AllReads(s: Sys) { forall k | k in s.passes :: Reads(s.passes[k], s.w.rulebooks) }

  ghost predicate Orderly(s: Sys) {
    Valid(s.w) && DistinctTodos(s) && AllTidy(s.w.rows, s.w.rulebooks) && AllReads(s)
  }

  /** A rulebook stays with its project, and keeps its hash while that project's activations are being checked. */
  ghost predicate Evolves(s: Sys, after: map<nat, Rulebook>) {
    forall r | r in after :: StaysItself(s, after[r], r) || Unknown(s, r)
  }

  ghost predicate StaysItself(s: Sys, after: Rulebook, r: nat) {
    && r in s.w.rulebooks && after.project == s.w.rulebooks[r].project
    && (after.sha == s.w.rulebooks[r].sha || (after.project.Some? && !Restarting(s, after.project.value)))
  }

  lemma SameEvolves(s: Sys)
    ensures Evolves(s, s.w.rulebooks)
  {
    hide Unknown, Restarting;
  }

  lemma ImportEvolves(s: Sys, pid: nat, gitHash: string, files: Option<map<nat, File>>)
    requires MayImport(s, pid, files)
    ensures Evolves(s, Imported(s.w, pid, gitHash, files).rulebooks)
  {
    hide Unknown, Restarting, UpToDate;
    if UpToDate(s.w, pid, gitHash) || files.None? {
      SameEvolves(s);
    } else {
      forall r | r in Imported(s.w, pid, gitHash, files).rulebooks
        ensures StaysItself(s, Imported(s.w, pid, gitHash, files).rulebooks[r], r) || Unknown(s, r)
      {
      }
    }
  }

  /** Whoever acts, and between any two steps of a pass: what a check compares with does not change under it. */
  lemma {:induction false} StepEvolves(s: Sys, step: Step)
    ensures Evolves(s, Apply(s, step).w.rulebooks)
  {
    hide SaveFirst, ThenPush, Rows, User, Imported, MayImport, Evolves, OnlyTouches, Unknown, Tidy;
    SameEvolves(s);
    match step
    case Save(k) =>
      if AtSave(s, k) {
        SaveFirstIsLocal(s.passes[k].job, s.w, s.passes[k].todo[0], s.passes[k].project);
        LocalTables(s.w, SaveHead(s, k).w, s.passes[k].todo[0].id);
      }
    case Push(k, ok) =>
      if AtPush(s, k) {
        ThenPushIsLocal(s.passes[k].job, s.w, s.passes[k].todo[0], ok);
        LocalTables(s.w, PushHead(s, k, ok).w, s.passes[k].todo[0].id);
      }
    case Import(pid, gitHash, files) =>
      if MayImport(s, pid, files) {
        ImportEvolves(s, pid, gitHash, files);
      }
    case AddRulebooks(added) =>
      if forall id | id in added :: Unknown(s, id) {
        AddedEvolve(s, added);
      }
    case DeleteProject(pid) => DeletionEvolves(s, pid);
    case UserActs(id, row, requests) =>
      UserIsLocal(s.w, id, row, requests);
      LocalTables(s.w, User(s.w, id, row, requests), id);
    case _ =>
  }

  lemma LocalTables(w: World, t: World, id: nat)
    requires OnlyTouches(w, t, id)
    ensures t.rulebooks == w.rulebooks && t.rows.Keys == w.rows.Keys
  {
  }

  lemma AddedEvolve(s: Sys, added: map<nat, Rulebook>)
    requires forall id | id in added :: Unknown(s, id)
    ensures Evolves(s, s.w.rulebooks + added)
  {
    hide Restarting;
  }

  lemma DeletionEvolves(s: Sys, pid: nat)
    ensures Evolves(s, WithoutProject(s.w, pid).rulebooks)
  {
    hide Unknown, Restarting;
  }

  /** So a check that did not ask for a restart when it was read never will. */
  lemma {:induction false} ReadsKept(s: Sys, k: nat, after: map<nat, Rulebook>)
    requires k in s.passes && Reads(s.passes[k], s.w.rulebooks) && Evolves(s, after)
    ensures Reads(s.passes[k], after)
    ensures s.passes[k].job == RestartJob ==> forall i | 0 <= i < |s.passes[k].todo| ::
      WantsRestart(s.passes[k].todo[i], after) ==> WantsRestart(s.passes[k].todo[i], s.w.rulebooks)
  {
    var p := s.passes[k];
    if p.job == RestartJob {
      forall i | 0 <= i < |p.todo|
        ensures Tidy(p.todo[i], after) && (WantsRestart(p.todo[i], after) ==> WantsRestart(p.todo[i], s.w.rulebooks))
      {
        var o := p.todo[i];
        if o.rulebook.Some? && o.rulebook.value in after {
          assert !NotIn(p.todo, o.rulebook.value);
          assert !Unknown(s, o.rulebook.value);
          assert Restarting(s, p.query.project);
        }
      }
    }
  }

  ghost predicate KeepsLinks(before: map<nat, Activation>, after: map<nat, Activation>) {
    forall b | b in after :: b in before && LinkedAs(before[b], after[b])
  }

  ghost predicate LinkedAs(before: Activation, after: Activation) {
    after.project == before.project && (after.rulebook == before.rulebook || after.rulebook.None?)
  }

  lemma SaveFirstKeepsLinks(job: Job, w: World, o: Activation, project: Project)
    ensures KeepsLinks(w.rows, SaveFirst(job, w, o, project).w.rows)
  {
  }

  lemma ThenPushKeepsLinks(job: Job, w: World, o: Activation, ok: bool)
    ensures KeepsLinks(w.rows, ThenPush(job, w, o, ok).rows)
  {
  }

  lemma {:induction false} ImportKeepsLinks(w: World, pid: nat, gitHash: string, files: Option<map<nat, File>>)
    requires Valid(w) && pid in w.projects
    ensures KeepsLinks(w.rows, Imported(w, pid, gitHash, files).rows)
  {
    hide Imported, ImportedRow, LinkedAs;
    ImportedIs(w, pid, gitHash, files);
    forall b | b in w.rows ensures LinkedAs(w.rows[b], Imported(w, pid, gitHash, files).rows[b]) {
      ImportedRowLinked(w, pid, gitHash, files, w.rows[b]);
    }
  }

  lemma ImportedRowLinked(w: World, pid: nat, gitHash: string, files: Option<map<nat, File>>, row: Activation)
    requires pid in w.projects
    ensures LinkedAs(row, ImportedRow(w, pid, gitHash, files, row))
  {
  }

  lemma LinksTidy(s: Sys, rows: map<nat, Activation>, after: map<nat, Rulebook>)
    requires AllTidy(s.w.rows, s.w.rulebooks) && KeepsLinks(s.w.rows, rows) && Evolves(s, after)
    ensures AllTidy(rows, after)
  {
    hide Restarting;
    forall b | b in rows ensures Tidy(rows[b], after) {
      assert LinkedAs(s.w.rows[b], rows[b]) && Tidy(s.w.rows[b], s.w.rulebooks);
    }
  }

  lemma {:induction false} RowsStayTidy(s: Sys, step: Step)
    requires Orderly(s)
    ensures AllTidy(Apply(s, step).w.rows, Apply(s, step).w.rulebooks)
  {
    hide SaveFirst, ThenPush, Rows, User, Imported, MayImport, Evolves, AllReads, DistinctTodos, Unknown, Tidy;
    var t := Apply(s, step);
    StepEvolves(s, step);
    match step
    case UserActs(id, row, requests) => UserKeepsTidy(s.w, id, row, requests);
    case DeleteProject(pid) => DeletionKeepsTidy(s.w, pid);
    case _ =>
      StepKeepsLinks(s, step);
      LinksTidy(s, t.w.rows, t.w.rulebooks);
  }

  lemma {:induction false} StepKeepsLinks(s: Sys, step: Step)
    requires Orderly(s) && !step.UserActs? && !step.DeleteProject?
    ensures KeepsLinks(s.w.rows, Apply(s, step).w.rows)
  {
    hide SaveFirst, ThenPush, Rows, Imported, AllReads, DistinctTodos, Unknown, Tidy, Restarting;
    match step
    case Save(k) =>
      if AtSave(s, k) {
        SaveFirstKeepsLinks(s.passes[k].job, s.w, s.passes[k].todo[0], s.passes[k].project);
      }
    case Push(k, ok) =>
      if AtPush(s, k) {
        ThenPushKeepsLinks(s.passes[k].job, s.w, s.passes[k].todo[0], ok);
      }
    case Import(pid, gitHash, files) =>
      if MayImport(s, pid, files) {
        ImportKeepsLinks(s.w, pid, gitHash, files);
      }
    case _ =>
  }

  lemma UserKeepsTidy(w: World, id: nat, row: Activation, requests: seq<Request>)
    requires AllTidy(w.rows, w.rulebooks)
    ensures AllTidy(User(w, id, row, requests).rows, User(w, id, row, requests).rulebooks)
  {
    PushAllKeepsTables(SaveRow(w, id, row.(id := id)), id, requests);
    hide PushAll;
  }

  lemma {:induction false} PushAllKeepsTables(w: World, id: nat, requests: seq<Request>)
    ensures PushAll(w, id, requests).rows == w.rows && PushAll(w, id, requests).rulebooks == w.rulebooks
  {
    if requests != [] {
      PushAllKeepsTables(w, id, requests[..|requests| - 1]);
    }
  }

  lemma DeletionKeepsTidy(w: World, pid: nat)
    requires AllTidy(w.rows, w.rulebooks)
    ensures AllTidy(WithoutProject(w, pid).rows, WithoutProject(w, pid).rulebooks)
  {
  }

  /** A pass reads every activation once, and only moves on through what it has read. */
  lemma {:induction false} TodosStayDistinct(s: Sys, step: Step)
    requires Valid(s.w) && DistinctTodos(s)
    ensures DistinctTodos(Apply(s, step))
  {
    hide SaveFirst, ThenPush, Rows, User, RemoveRow, SaveRow, Imported, MayImport, MayOpen, Unknown, WithoutProject;
    match step
    case Open(k, job, q, project) => RowsOf(s.w, q, 0);
    case _ =>
  }

  lemma LocalValid(w: World, t: World, id: nat)
    requires Valid(w) && OnlyTouches(w, t, id)
    ensures Valid(t)
  {
  }

  lemma FieldsValid(w: World, id: nat, row: Activation)
    requires Valid(w) && id in w.rows && row.id == id
    ensures Valid(SaveRow(w, id, row))
  {
  }

  lemma SameRowsValid(w: World, t: World)
    requires Valid(w) && t.rows == w.rows && t.order == w.order
    ensures Valid(t)
  {
  }

  lemma {:induction false} ValidKept(s: Sys, step: Step)
    requires Valid(s.w)
    ensures Valid(Apply(s, step).w)
  {
    hide SaveFirst, ThenPush, Rows, User, RemoveRow, SaveRow, Valid, OnlyTouches, Imported, WithoutProject, Unknown;
    match step
    case Save(k) =>
      if AtSave(s, k) {
        var p := s.passes[k];
        SaveFirstIsLocal(p.job, s.w, p.todo[0], p.project);
        LocalValid(s.w, SaveFirst(p.job, s.w, p.todo[0], p.project).w, p.todo[0].id);
      }
    case Push(k, ok) =>
      if AtPush(s, k) {
        var p := s.passes[k];
        ThenPushIsLocal(p.job, s.w, p.todo[0], ok);
        LocalValid(s.w, ThenPush(p.job, s.w, p.todo[0], ok), p.todo[0].id);
      }
    case Import(pid, gitHash, files) =>
      if MayImport(s, pid, files) {
        ImportedIs(s.w, pid, gitHash, files);
      }
    case AddRulebooks(added) => SameRowsValid(s.w, s.w.(rulebooks := s.w.rulebooks + added));
    case SetProjects(projects) => SameRowsValid(s.w, s.w.(projects := projects));
    case DeleteProject(pid) => DeletionValid(s.w, pid);
    case SetStatus(id, status) =>
      if id in s.w.rows {
        IdOf(s.w, id);
        FieldsValid(s.w, id, s.w.rows[id].(status := status));
      }
    case Remove(id) => RemoveKeepsValid(s.w, id);
    case UserActs(id, row, requests) =>
      UserIsLocal(s.w, id, row, requests);
      LocalValid(s.w, User(s.w, id, row, requests), id);
    case _ =>
  }

  lemma IdOf(w: World, id: nat)
    requires Valid(w) && id in w.rows
    ensures w.rows[id].id == id
  {
  }

  lemma DeletionValid(w: World, pid: nat)
    requires Valid(w)
    ensures Valid(WithoutProject(w, pid))
  {
  }

  /** What a task has just read. */
  lemma {:induction false} OpenReads(s: Sys, job: Job, q: Query, project: Project)
    requires Valid(s.w) && AllTidy(s.w.rows, s.w.rulebooks) && ReadsFor(job, q)
    ensures Reads(Pass(job, q, Rows(s.w, q), project, false), s.w.rulebooks)
  {
    hide Tidy, Select;
    RowsOf(s.w, q, 0);
    var todo := Rows(s.w, q);
    forall i | 0 <= i < |todo| ensures Tidy(todo[i], s.w.rulebooks) && Matches(q, todo[i]) {
    }
  }

  /** A pass as it is, or further on. */
  ghost predicate Shrunk(before: Pass, after: Pass) {
    && after.job == before.job && after.query == before.query
    && (after.todo == before.todo || (before.todo != [] && after.todo == before.todo[1..]))
  }

  lemma ShrunkReads(before: Pass, after: Pass, rulebooks: map<nat, Rulebook>)
    requires Reads(before, rulebooks) && Shrunk(before, after)
    ensures Reads(after, rulebooks)
  {
  }

  lemma {:induction false} StepShrinks(s: Sys, step: Step, k: nat)
    requires k in Apply(s, step).passes
    ensures k in s.passes ==> Shrunk(s.passes[k], Apply(s, step).passes[k])
    ensures k !in s.passes ==>
      && step.Open? && step.k == k && MayOpen(s, k, step.job, step.query)
      && Apply(s, step).passes[k] == Pass(step.job, step.query, Rows(s.w, step.query), step.project, false)
  {
    hide SaveFirst, ThenPush, Rows, User, RemoveRow, SaveRow, Imported, WithoutProject, Unknown, MayImport, Restarting;
  }

  lemma {:induction false} ReadsStay(s: Sys, step: Step)
    requires Orderly(s)
    ensures AllReads(Apply(s, step))
  {
    hide Reads, Apply, Evolves, Rows, Valid, Restarting, Shrunk, AllTidy, DistinctTodos;
    var t := Apply(s, step);
    StepEvolves(s, step);
    forall k | k in t.passes ensures Reads(t.passes[k], t.w.rulebooks) {
      StepShrinks(s, step, k);
      if k in s.passes {
        ReadsKept(s, k, t.w.rulebooks);
        ShrunkReads(s.passes[k], t.passes[k], t.w.rulebooks);
      } else {
        OpenReads(s, step.job, step.query, step.project);
        OpenKeepsRulebooks(s, step);
      }
    }
  }

  lemma OpenKeepsRulebooks(s: Sys, step: Step)
    requires step.Open?
    ensures Apply(s, step).w == s.w
  {
  }

  /** In every run. */
  lemma {:induction false} StepOrderly(s: Sys, step: Step)
    requires Orderly(s)
    ensures Orderly(Apply(s, step))
  {
    hide Apply, Valid, DistinctTodos, AllReads, AllTidy;
    ValidKept(s, step);
    TodosStayDistinct(s, step);
    RowsStayTidy(s, step);
    ReadsStay(s, step);
  }

  lemma {:induction false} RunOrderly(s: Sys, run: seq<Step>)
    requires Orderly(s)
    ensures Orderly(Exec(s, run))
    decreases |run|
  {
    hide Apply, Orderly;
    if run != [] {
      StepOrderly(s, run[0]);
      RunOrderly(Apply(s, run[0]), run[1..]);
    }
  }

  // ------------------------------------- what a step leaves of one activation

  /** A step of somebody else: neither its user, nor a pass that has come to it. */
  ghost predicate ByOthers(s: Sys, step: Step, a: nat) {
    && (step.UserActs? ==> step.id != a)
    && (step.Save? && AtSave(s, step.k) ==> s.passes[step.k].todo[0].id != a)
    && (step.Push? && AtPush(s, step.k) ==> s.passes[step.k].todo[0].id != a)
  }

  /** Switch, flag and requests of an activation are as they were. */
  ghost predicate Leaves(w: World, t: World, a: nat) {
    && (a in t.rows ==>
          a in w.rows && t.rows[a].enabled == w.rows[a].enabled && t.rows[a].awaiting == w.rows[a].awaiting)
    && PushesOf(t.pushes, a) == PushesOf(w.pushes, a)
  }

  lemma LocalLeaves(w: World, t: World, id: nat, a: nat)
    requires OnlyTouches(w, t, id) && id != a
    ensures Leaves(w, t, a)
  {
    hide PushesOf;
  }

  lemma {:induction false} StepLeaves(s: Sys, step: Step, a: nat)
    requires Valid(s.w) && ByOthers(s, step, a)
    ensures Leaves(s.w, Apply(s, step).w, a)
  {
    hide SaveFirst, ThenPush, Rows, User, Imported, Unknown, Restarting, PushesOf, OnlyTouches, Valid, Without;
    match step
    case Save(k) =>
      if AtSave(s, k) {
        SaveFirstIsLocal(s.passes[k].job, s.w, s.passes[k].todo[0], s.passes[k].project);
        LocalLeaves(s.w, SaveHead(s, k).w, s.passes[k].todo[0].id, a);
      }
    case Push(k, ok) =>
      if AtPush(s, k) {
        ThenPushIsLocal(s.passes[k].job, s.w, s.passes[k].todo[0], ok);
        LocalLeaves(s.w, PushHead(s, k, ok).w, s.passes[k].todo[0].id, a);
      }
    case Import(pid, gitHash, files) =>
      if MayImport(s, pid, files) {
        ImportLeaves(s.w, pid, gitHash, files, a);
      }
    case UserActs(id, row, requests) =>
      UserIsLocal(s.w, id, row, requests);
      LocalLeaves(s.w, User(s.w, id, row, requests), id, a);
    case _ =>
  }

  lemma {:induction false} ImportLeaves(w: World, pid: nat, gitHash: string, files: Option<map<nat, File>>, a: nat)
    requires Valid(w) && pid in w.projects
    ensures Leaves(w, Imported(w, pid, gitHash, files), a)
  {
    hide Imported, ImportedRow, PushesOf;
    ImportedIs(w, pid, gitHash, files);
    if a in w.rows {
      ImportedRowKeeps(w, pid, gitHash, files, w.rows[a]);
    }
  }
}
