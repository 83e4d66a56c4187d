/** The two project views that claim a sync, on the row they lock. */
module ProjectViews {
  import opened ActivationWorld
  import ImportStates

  datatype Response = Updated | Accepted | WorkersUnavailable | Conflict | Denied | NotFound | Raised

  /** A field and its new value, as validated. */
  datatype Assignment = Assignment(key: string, value: string)

  const IMPORT_STATE := "import_state"

  const SYNC_FIELDS := {"scm_branch", "scm_refspec", "url"}

  predicate NeedsProjectSync(updateFields: seq<string>) { exists f :: f in SYNC_FIELDS && f in updateFields }

  /** A change of where the project comes from. */
  ghost predicate MovesSource(keys: seq<string>) { "url" in keys || "scm_branch" in keys || "scm_refspec" in keys }

  function Assigned(fields: map<string, string>, changes: seq<Assignment>): map<string, string> {
    if changes == [] then fields
    else
      var last := changes[|changes| - 1];
      Assigned(fields, changes[..|changes| - 1])[last.key := last.value]
  }

  function KeysOf(changes: seq<Assignment>): seq<string> {
    seq(|changes|, i requires 0 <= i < |changes| => changes[i].key)
  }

  /** The project object a view has read, and how a claim changes it. */
  datatype ProjectObject = ProjectObject(importState: ImportState, fields: map<string, string>)

  /** The state after a view has claimed a sync, or found one claimed. */
  ghost function Claimed(state: ImportState): ImportState { if Busy(state) then state else ImportPending }

  /** What a view does to the state of an unlocked row is one transaction of the import states, logged if it claims. */
  lemma ViewIsTransaction(p: ImportStates.Record, view: ImportStates.Actor)
    requires ImportStates.IsView(view) && p.lock.None? && !p.gone
    ensures var t := ImportStates.Apply(ImportStates.Apply(p, ImportStates.Lock(view)), ImportStates.Commit);
      && t.committed == Claimed(p.committed) && t.lock.None? && !t.gone
      && t.log == p.log + if Busy(p.committed) then [] else [ImportStates.Change(view, p.committed, ImportPending)]
  {
  }

  /** An assigned field has its new value whatever it was before; any other keeps its value. */
  lemma {:induction false} AssignedAt(fields: map<string, string>, other: map<string, string>,
                                      changes: seq<Assignment>, k: string)
    ensures k in KeysOf(changes) ==> k in Assigned(fields, changes) && k in Assigned(other, changes)
    ensures k in KeysOf(changes) ==> Assigned(fields, changes)[k] == Assigned(other, changes)[k]
    ensures k !in KeysOf(changes) ==> (k in Assigned(fields, changes) <==> k in fields)
    ensures k !in KeysOf(changes) && k in fields ==> Assigned(fields, changes)[k] == fields[k]
  {
    if changes != [] {
      var n := |changes| - 1;
      AssignedAt(fields, other, changes[..n], k);
      assert KeysOf(changes) == KeysOf(changes[..n]) + [changes[n].key];
    }
  }

  /** Saving the named fields of an object that has been assigned to. */
  ghost predicate SavedFrom(before: map<string, string>, after: map<string, string>, from: map<string, string>,
                            named: seq<string>) {
    && (forall k :: k in after <==> k in before || (k in named && k in from))
    && (forall k | k in after :: after[k] == if k in named && k in from then from[k] else before[k])
  }

  lemma SavedIsAssigned(before: map<string, string>, after: map<string, string>, stale: map<string, string>,
                        changes: seq<Assignment>,
                        named: seq<string>)
    requires SavedFrom(before, after, Assigned(stale, changes), named)
    requires forall k | k in Assigned(stale, changes) :: k in named <==> k in KeysOf(changes)
    ensures after == Assigned(before, changes)
  {
    forall k
      ensures k in after <==> k in Assigned(before, changes)
      ensures k in after ==> after[k] == Assigned(before, changes)[k]
    {
      AssignedAt(before, stale, changes, k);
      AssignedAt(stale, before, changes, k);
    }
  }

  class ProjectRow {
    var importState: ImportState
    var fields: map<string, string>
    var dispatched: nat

    constructor (state: ImportState, initial: map<string, string>)
      ensures importState == state && fields == initial && dispatched == 0
    {
      importState, fields, dispatched := state, initial, 0;
    }

    /** Reads the state afresh under the lock; the object may be stale. */
    method MarkPendingIfIdle(project: ProjectObject, updateFields: seq<string>)
      returns (claimed: bool, marked: ProjectObject, named: seq<string>)
      ensures claimed == !Busy(importState)
      ensures marked == if claimed then project.(importState := ImportPending) else project
      ensures named == if claimed then updateFields + [IMPORT_STATE] else updateFields
    {
      marked, named := project, updateFields;
      if importState == ImportPending || importState == ImportRunning {
        return false, marked, named;
      }
      marked := marked.(importState := ImportPending);
      named := named + [IMPORT_STATE];
      claimed := true;
    }

    /** Saves the named fields of an object, and no other. */
    method Save(project: ProjectObject, named: seq<string>)
      modifies `importState, `fields
      ensures importState == if IMPORT_STATE in named then project.importState else old(importState)
      ensures SavedFrom(old(fields), fields, project.fields, named)
    {
      if IMPORT_STATE in named {
        importState := project.importState;
      }
      var saved := map k | k in named && k in project.fields :: project.fields[k];
      fields := fields + saved;
    }

    /**
     A change of the source control fields claims a sync, unless one is already
     claimed; the dispatch comes after the commit. `stale` was read before the lock.
     */
    method PartialUpdate(stale: ProjectObject, changes: seq<Assignment>, workersUp: bool, permitted: bool,
                         submits: bool)
      returns (r: Response)
      requires IMPORT_STATE !in KeysOf(changes) && IMPORT_STATE !in stale.fields
      modifies this
      ensures var needs := MovesSource(KeysOf(changes));
        if needs && !workersUp then
          && r == WorkersUnavailable
          && importState == old(importState) && fields == old(fields) && dispatched == old(dispatched)
        else if !permitted then
          r == Denied && importState == old(importState) && fields == old(fields) && dispatched == old(dispatched)
        else
          var claims := needs && !Busy(old(importState));
          && fields == Assigned(old(fields), changes)
          && importState == (if needs then Claimed(old(importState)) else old(importState))
          && r == (if claims && !submits then Raised else Updated)
          && dispatched == old(dispatched) + if claims && submits then 1 else 0
    {
      var project, updateFields := stale, [];
      for i := 0 to |changes|
        invariant updateFields == KeysOf(changes)[..i]
        invariant project == stale.(fields := Assigned(stale.fields, changes[..i]))
      {
        assert changes[..i + 1][..i] == changes[..i];
        project := project.(fields := project.fields[changes[i].key := changes[i].value]);
        updateFields := updateFields + [changes[i].key];
      }
      assert changes[..|changes|] == changes && updateFields == KeysOf(changes);
      var needsSync := NeedsProjectSync(updateFields);
      if needsSync && !workersUp {
        return WorkersUnavailable;
      }
      var syncNeeded := false;
      if needsSync {
        syncNeeded, project, updateFields := MarkPendingIfIdle(project, updateFields);
      }
      var savepoint := (importState, fields);
      Save(project, updateFields);
      NoStateField(stale.fields, changes);
      SavedIsAssigned(savepoint.1, fields, stale.fields, changes, updateFields);
      if !permitted {
        importState, fields := savepoint.0, savepoint.1;
        return Denied;
      }
      if syncNeeded {
        if !submits {
          return Raised;
        }
        dispatched := dispatched + 1;
      }
      return Updated;
    }

    /** An explicit sync: the dispatch comes before the commit, and undoes the claim if it fails. */
    method Sync(found: bool, workersUp: bool, permitted: bool, submits: bool) returns (r: Response)
      modifies `importState, `dispatched
      ensures r == Accepted <==> workersUp && found && permitted && !Busy(old(importState)) && submits
      ensures r == Accepted ==> importState == ImportPending && dispatched == old(dispatched) + 1
      ensures r != Accepted ==> importState == old(importState) && dispatched == old(dispatched)
      ensures r == WorkersUnavailable <==> !workersUp
      ensures r == NotFound <==> workersUp && !found
      ensures r == Denied <==> workersUp && found && !permitted
      ensures r == Conflict <==> workersUp && found && permitted && Busy(old(importState))
      ensures r == Raised <==> workersUp && found && permitted && !Busy(old(importState)) && !submits
    {
      if !workersUp {
        return WorkersUnavailable;
      }
      if !found {
        return NotFound;
      }
      if !permitted {
        return Denied;
      }
      if importState == ImportPending || importState == ImportRunning {
        return Conflict;
      }
      if !submits {
        return Raised;
      }
      dispatched := dispatched + 1;
      importState := ImportPending;
      return Accepted;
    }
  }

  lemma NoStateField(fields: map<string, string>, changes: seq<Assignment>)
    requires IMPORT_STATE !in KeysOf(changes) && IMPORT_STATE !in fields
    ensures IMPORT_STATE !in Assigned(fields, changes)
  {
    AssignedAt(fields, fields, changes, IMPORT_STATE);
  }
}
