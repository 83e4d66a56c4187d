/**
 What the import service makes of the tables when a sync succeeds: the rulebooks
 follow the files of the commit, and activations follow their rulebook as far as the
 service itself updates them.
 */
module ProjectImport {
  import opened Common
  import opened ActivationWorld

  /** A rulebook file of the commit, with its hash. */
  datatype File = File(text: string, sha: string)

  ghost predicate Mine(rulebooks: map<nat, Rulebook>, pid: nat, id: nat) {
    id in rulebooks && rulebooks[id].project == Some(pid)
  }

  ghost predicate HasRulebooks(rulebooks: map<nat, Rulebook>, pid: nat) {
    exists id :: id in rulebooks && Mine(rulebooks, pid, id)
  }

  /** The commit is the one already synced, and the project has rulebooks. */
  ghost predicate UpToDate(w: World, pid: nat, gitHash: string)
    requires pid in w.projects
  {
    w.projects[pid].gitHash == gitHash && HasRulebooks(w.rulebooks, pid)
  }

  /** The file behind a rulebook of the project. Ids without a rulebook are those that new files are given. */
  predicate Follows(rulebooks: map<nat, Rulebook>, pid: nat, files: map<nat, File>, id: nat) {
    id in files && (id in rulebooks ==> rulebooks[id].project == Some(pid))
  }

  /** A rulebook after its file was read: left alone when the hash is the same. */
  function RulebookAfter(rulebooks: map<nat, Rulebook>, pid: nat, files: map<nat, File>, id: nat): Rulebook
    requires id in rulebooks || id in files
  {
    if id in rulebooks && (!Follows(rulebooks, pid, files, id) || rulebooks[id].sha == files[id].sha) then rulebooks[id]
    else Rulebook(Some(pid), files[id].text, files[id].sha)
  }

  /**
   An activation after the files were read. An unchanged rulebook only passes the new
   git hash on. A changed one is copied into the activations that do not restart by
   themselves; of these a source-mapped one keeps its hash, so that it shows as stale.
   */
  function RowAfter(row: Activation, rulebooks: map<nat, Rulebook>, pid: nat, files: map<nat, File>, gitHash: string)
    : Activation {
    if row.rulebook.None? || row.rulebook.value !in files || row.rulebook.value !in rulebooks
      || rulebooks[row.rulebook.value].project != Some(pid)
    then row
    else
      var file := files[row.rulebook.value];
      if rulebooks[row.rulebook.value].sha == file.sha then row.(gitHash := gitHash)
      else if row.restartOnUpdate then row
      else row.(rulesets := file.text, sha := if row.mapped then row.sha else file.sha, gitHash := gitHash)
  }

  function RulebooksAfter(rulebooks: map<nat, Rulebook>, pid: nat, files: map<nat, File>): map<nat, Rulebook> {
    map id | id in rulebooks.Keys + files.Keys :: RulebookAfter(rulebooks, pid, files, id)
  }

  function RowsAfter(rows: map<nat, Activation>, rulebooks: map<nat, Rulebook>, pid: nat, files: map<nat, File>,
                     gitHash: string)
    : map<nat, Activation>
  {
    map a | a in rows :: RowAfter(rows[a], rulebooks, pid, files, gitHash)
  }

  function Reread(w: World, pid: nat, files: map<nat, File>, gitHash: string): World {
    w.(rulebooks := RulebooksAfter(w.rulebooks, pid, files),
        rows := RowsAfter(w.rows, w.rulebooks, pid, files, gitHash))
  }

  /** A rulebook of the project whose file is gone. */
  predicate Unseen(rulebooks: map<nat, Rulebook>, pid: nat, files: map<nat, File>, id: nat) {
    id in rulebooks && rulebooks[id].project == Some(pid) && id !in files
  }

  /** An activation loses a rulebook that is deleted. */
  function Detached(row: Activation, rulebooks: map<nat, Rulebook>, pid: nat, files: map<nat, File>): Activation {
    if row.rulebook.Some? && Unseen(rulebooks, pid, files, row.rulebook.value) then row.(rulebook := None) else row
  }

  function Pruned(w: World, pid: nat, files: map<nat, File>): World {
    w.(rulebooks := map id | id in w.rulebooks && !Unseen(w.rulebooks, pid, files, id) :: w.rulebooks[id],
       rows := map a | a in w.rows :: Detached(w.rows[a], w.rulebooks, pid, files))
  }

  function SetGitHash(w: World, pid: nat, gitHash: string): World
    requires pid in w.projects
  {
    w.(projects := w.projects[pid := w.projects[pid].(gitHash := gitHash)])
  }

  function Complete(w: World, pid: nat): World
    requires pid in w.projects
  {
    w.(projects := w.projects[pid := w.projects[pid].(importState := ImportCompleted)])
  }

  /**
   A sync that ends COMPLETED. Nothing is read again when the commit is the one already
   synced. Without a directory of rulebooks (`files` is None) the git hash moves on and
   the rulebooks stay; that, and a project left without rulebooks, is only a warning.
   */
  function Imported(w: World, pid: nat, gitHash: string, files: Option<map<nat, File>>): World
    requires pid in w.projects
  {
    if w.projects[pid].gitHash == gitHash && exists id | id in w.rulebooks :: w.rulebooks[id].project == Some(pid) then
      Complete(w, pid)
    else
      var moved := SetGitHash(w, pid, gitHash);
      if files.None? then Complete(moved, pid)
      else Complete(Pruned(Reread(moved, pid, files.value, gitHash), pid, files.value), pid)
  }

  /**
   What an import leaves of an activation, in one piece: nothing new unless it has a
   rulebook of the project; no rulebook when its file is gone; the new git hash when the
   file is unchanged; else the file's text, unless the activation restarts by itself, and
   the file's hash too, unless it is source-mapped.
   */
  ghost function ImportedRow(w: World, pid: nat, gitHash: string, files: Option<map<nat, File>>, row: Activation)
    : Activation
    requires pid in w.projects
  {
    if UpToDate(w, pid, gitHash) || files.None? then row
    else if row.rulebook.None? || !Mine(w.rulebooks, pid, row.rulebook.value) then row
    else if row.rulebook.value !in files.value then row.(rulebook := None)
    else
      var file := files.value[row.rulebook.value];
      if file.sha == w.rulebooks[row.rulebook.value].sha then row.(gitHash := gitHash)
      else if row.restartOnUpdate then row
      else if row.mapped then row.(rulesets := file.text, gitHash := gitHash)
      else row.(rulesets := file.text, sha := file.sha, gitHash := gitHash)
  }

  /** An import keeps who there is, what is queued, and all but the content fields of an activation. */
  ghost predicate OnlyContent(before: Activation, after: Activation) {
    after == before.(rulebook := after.rulebook, rulesets := after.rulesets, sha := after.sha, gitHash := after.gitHash)
  }

  lemma ImportedIs(w: World, pid: nat, gitHash: string, files: Option<map<nat, File>>)
    requires Valid(w) && pid in w.projects
    ensures var u := Imported(w, pid, gitHash, files);
      && Valid(u) && u.rows.Keys == w.rows.Keys && u.order == w.order && u.pushes == w.pushes
      && u.projects == w.projects[pid := w.projects[pid].(importState := ImportCompleted, gitHash := gitHash)]
      && (forall a | a in w.rows :: u.rows[a] == ImportedRow(w, pid, gitHash, files, w.rows[a]))
  {
    hide Imported, ImportedRow;
    ImportedTables(w, pid, gitHash, files);
    forall a | a in w.rows
      ensures Imported(w, pid, gitHash, files).rows[a] == ImportedRow(w, pid, gitHash, files, w.rows[a])
    {
      ImportedAt(w, pid, gitHash, files, a);
    }
    forall a | a in w.rows ensures ImportedRow(w, pid, gitHash, files, w.rows[a]).id == a {
      ImportedRowKeeps(w, pid, gitHash, files, w.rows[a]);
    }
  }

  lemma ImportedTables(w: World, pid: nat, gitHash: string, files: Option<map<nat, File>>)
    requires pid in w.projects
    ensures var u := Imported(w, pid, gitHash, files);
      && u.rows.Keys == w.rows.Keys && u.order == w.order && u.pushes == w.pushes
      && u.projects == w.projects[pid := w.projects[pid].(importState := ImportCompleted, gitHash := gitHash)]
  {
    hide RowAfter, RulebookAfter, Detached, Unseen;
  }

  lemma ImportedAt(w: World, pid: nat, gitHash: string, files: Option<map<nat, File>>, a: nat)
    requires pid in w.projects && a in w.rows
    ensures Imported(w, pid, gitHash, files).rows[a] == ImportedRow(w, pid, gitHash, files, w.rows[a])
  {
    hide RowAfter, Detached, ImportedRow;
    if UpToDate(w, pid, gitHash) || files.None? {
      ImportSkips(w, pid, gitHash, files, w.rows[a]);
    } else {
      RereadThenDetached(w, pid, gitHash, files.value, w.rows[a]);
    }
  }

  lemma ImportSkips(w: World, pid: nat, gitHash: string, files: Option<map<nat, File>>, row: Activation)
    requires pid in w.projects && (UpToDate(w, pid, gitHash) || files.None?)
    ensures ImportedRow(w, pid, gitHash, files, row) == row
  {
  }

  /** Rereading creates no rulebook without a file, so the same ones are unseen before and after. */
  lemma RereadThenDetached(w: World, pid: nat, gitHash: string, files: map<nat, File>, row: Activation)
    requires pid in w.projects && !UpToDate(w, pid, gitHash)
    ensures var reread := Reread(SetGitHash(w, pid, gitHash), pid, files, gitHash);
      Detached(RowAfter(row, w.rulebooks, pid, files, gitHash), reread.rulebooks, pid, files)
        == ImportedRow(w, pid, gitHash, Some(files), row)
  {
    hide Reread;
    if row.rulebook.Some? {
      StillUnseen(w, pid, gitHash, files, row.rulebook.value);
    }
  }

  lemma StillUnseen(w: World, pid: nat, gitHash: string, files: map<nat, File>, id: nat)
    requires pid in w.projects
    ensures Unseen(Reread(SetGitHash(w, pid, gitHash), pid, files, gitHash).rulebooks, pid, files, id)
       <==> Mine(w.rulebooks, pid, id) && id !in files
  {
  }

  lemma ImportedRowKeeps(w: World, pid: nat, gitHash: string, files: Option<map<nat, File>>, row: Activation)
    requires pid in w.projects
    ensures OnlyContent(row, ImportedRow(w, pid, gitHash, files, row))
  {
  }

  /**
   The rulebooks after an import: those of other projects as they were, those of this one
   with the text and hash of their files, an unchanged one with the text it has.
   */
  lemma ImportedRulebooks(w: World, pid: nat, gitHash: string, files: map<nat, File>, id: nat)
    requires pid in w.projects && !UpToDate(w, pid, gitHash)
    ensures var u := Imported(w, pid, gitHash, Some(files));
      && (id in u.rulebooks <==> id in files || (id in w.rulebooks && !Mine(w.rulebooks, pid, id)))
      && (id in w.rulebooks && !Mine(w.rulebooks, pid, id) ==> u.rulebooks[id] == w.rulebooks[id])
      && (id in files && (id in w.rulebooks ==> Mine(w.rulebooks, pid, id)) ==>
            && Mine(u.rulebooks, pid, id) && u.rulebooks[id].sha == files[id].sha
            && u.rulebooks[id].rulesets ==
              if id in w.rulebooks && w.rulebooks[id].sha == files[id].sha then w.rulebooks[id].rulesets
              else files[id].text)
  {
  }

  /** After a sync the commit counts as synced, if the project has any rulebook left. */
  lemma ImportSettles(w: World, pid: nat, gitHash: string, files: Option<map<nat, File>>)
    requires pid in w.projects
    ensures var u := Imported(w, pid, gitHash, files);
      && pid in u.projects && u.projects[pid].gitHash == gitHash
      && (UpToDate(u, pid, gitHash) <==> HasRulebooks(u.rulebooks, pid))
  {
  }

  /** Syncing the same commit again reads nothing, whatever files it would find. */
  lemma SameCommit(w: World, pid: nat, gitHash: string, files: Option<map<nat, File>>)
    requires pid in w.projects && UpToDate(w, pid, gitHash)
    ensures Imported(w, pid, gitHash, files) == Complete(w, pid)
    ensures UpToDate(Imported(w, pid, gitHash, files), pid, gitHash)
  {
  }
}
