/**
 A project sync and one pass of the project monitor, as functions on the world,
 and what they do to every activation.
 */
module ProjectSync {
  import opened Common
  import opened Arbitration
  import opened ActivationWorld
  import opened ProjectImport

  /** What the import service finds: a commit and its rulebook files, or an exception, which rolls everything back. */
  datatype SyncOutcome = Synced(gitHash: string, files: Option<map<nat, File>>) | SyncRaised

  const NO_PROJECT := Project(ImportFailed, 0, "")

  /** Error recovery: only a project still pending or running becomes failed. */
  function Recover(w: World, pid: nat): World {
    if pid in w.projects && w.projects[pid].importState in {ImportPending, ImportRunning} then
      w.(projects := w.projects[pid := w.projects[pid].(importState := ImportFailed)])
    else w
  }

  function FailWaiting(w: World, pid: nat): World {
    RunPass(FailJob, w, Rows(w, WaitingFor(pid)), NO_PROJECT, {})
  }

  /** First the restarts, then the resumptions; each reads its activations when it starts. */
  function AfterSync(w: World, pid: nat, broken: set<nat>): World
    requires pid in w.projects
  {
    var project := w.projects[pid];
    var restarted := RunPass(RestartJob, w, Rows(w, CheckedBy(pid)), project, broken);
    RunPass(ResumeJob, restarted, Rows(restarted, WaitingFor(pid)), project, broken)
  }

  function SyncProject(w: World, pid: nat, outcome: SyncOutcome, broken: set<nat>): World {
    if pid !in w.projects then FailWaiting(w, pid)
    else match outcome
      case SyncRaised => FailWaiting(Recover(w, pid), pid)
      case Synced(gitHash, files) => AfterSync(Imported(w, pid, gitHash, files), pid, broken)
  }

  // ------------------------------------------------- what a sync does

  /** The requests a step pushed for one activation. */
  ghost predicate NewRequests(w: World, t: World, a: nat, requests: seq<Request>) {
    PushesOf(t.pushes, a) == PushesOf(w.pushes, a) + requests
  }

  /** The rulebook of an activation, if it still exists. */
  ghost function RulebookOf(a: Activation, rulebooks: map<nat, Rulebook>): Option<Rulebook> {
    if a.rulebook.Some? && a.rulebook.value in rulebooks then Some(rulebooks[a.rulebook.value]) else None
  }

  /**
   Resumed after a good sync: enabled and started, or restarted, with the content its
   rulebook has now; or in error when the push failed.
   */
  ghost predicate Resumed(before: Activation, after: Activation, requests: seq<Request>, pushed: bool,
                          rulebooks: map<nat, Rulebook>, gitHash: string)
  {
    var r := RulebookOf(before, rulebooks);
    && !after.awaiting && after.enabled && after.gitHash == gitHash
    && after.rulesets == (if r.Some? then r.value.rulesets else before.rulesets)
    && after.sha == (if r.Some? && !before.mapped then r.value.sha else before.sha)
    && after.failures == (if before.enabled then before.failures else 0)
    && requests == (if !pushed then [] else if before.enabled then [Restart] else [Start])
    && after.status == if !pushed then Error else if before.enabled then before.status else Pending
  }

  ghost predicate FailedWaiting(before: Activation, after: Activation, requests: seq<Request>) {
    after == before.(status := Error, awaiting := false) && requests == []
  }

  /**
   A check asks for a restart when the rulebook changed and no mappings depend on it, or else when
   the activation failed.
   */
  ghost predicate WantsRestart(a: Activation, rulebooks: map<nat, Rulebook>) {
    var r := RulebookOf(a, rulebooks);
    r.Some? && if a.sha != r.value.sha then !a.mapped else HasFailed(a.status)
  }

  /** A check leaves the content alone when the rulebook is gone, or changed under source mappings. */
  ghost predicate KeepsContent(a: Activation, rulebooks: map<nat, Rulebook>) {
    var r := RulebookOf(a, rulebooks);
    r.None? || (a.sha != r.value.sha && a.mapped)
  }

  /** Flag, switch and settings as before. */
  ghost predicate SameSettings(before: Activation, after: Activation) {
    && after.enabled == before.enabled && after.awaiting == before.awaiting && after.project == before.project
    && after.restartOnUpdate == before.restartOnUpdate && after.mapped == before.mapped
    && after.rulebook == before.rulebook
  }

  ghost predicate RestartedIfWanted(before: Activation, after: Activation, requests: seq<Request>, pushed: bool,
                                    wants: bool) {
    && requests == (if wants && pushed then [Restart] else [])
    && after.status == (if wants && !pushed then Error else before.status)
    && after.failures == (if wants && pushed && HasFailed(before.status) then 0 else before.failures)
  }

  ghost predicate Refreshed(before: Activation, after: Activation, rulebooks: map<nat, Rulebook>, gitHash: string) {
    var r := RulebookOf(before, rulebooks);
    if KeepsContent(before, rulebooks) then
      after.sha == before.sha && after.gitHash == before.gitHash && after.rulesets == before.rulesets
    else
      && after.sha == r.value.sha && after.gitHash == gitHash
      && after.rulesets == if before.sha == r.value.sha && before.gitHash == gitHash then before.rulesets
          else r.value.rulesets
  }

  /** Checked for a restart: settings as before, content refreshed, and a restart exactly when it is wanted. */
  ghost predicate Checked(before: Activation, after: Activation, requests: seq<Request>, pushed: bool,
                          rulebooks: map<nat, Rulebook>, gitHash: string)
  {
    && SameSettings(before, after)
    && RestartedIfWanted(before, after, requests, pushed, WantsRestart(before, rulebooks))
    && Refreshed(before, after, rulebooks, gitHash)
  }

  lemma SamePushes(w: World, t: World, a: nat)
    requires PushesOf(t.pushes, a) == PushesOf(w.pushes, a)
    ensures NewRequests(w, t, a, [])
  {
  }

  lemma FailPass(w: World, pid: nat, a: nat)
    requires Valid(w) && a in w.rows
    ensures var t := FailWaiting(w, pid);
      && Valid(t) && SameTables(w, t)
      && (if WaitsFor(w.rows[a], pid) then
            FailedWaiting(w.rows[a], t.rows[a], []) && NewRequests(w, t, a, [])
          else Untouched(w, t, a))
  {
    hide Rows, RunPass;
    var todo := Rows(w, WaitingFor(pid));
    RowsOf(w, WaitingFor(pid), a);
    RunPassFrame(FailJob, w, todo, NO_PROJECT, {});
    PassEffect(FailJob, w, todo, NO_PROJECT, {}, a);
  }

  lemma {:induction false} ResumePass(w: World, pid: nat, project: Project, broken: set<nat>, a: nat)
    requires Valid(w) && a in w.rows
    ensures var t := RunPass(ResumeJob, w, Rows(w, WaitingFor(pid)), project, broken);
      && Valid(t) && SameTables(w, t)
      && (if WaitsFor(w.rows[a], pid) then
            HasEffect(w, t, a, ResumeEffect(w, w.rows[a], project, a !in broken))
          else Untouched(w, t, a))
  {
    hide Rows, RunPass, ResumeEffect;
    var todo := Rows(w, WaitingFor(pid));
    RowsOf(w, WaitingFor(pid), a);
    RunPassFrame(ResumeJob, w, todo, project, broken);
    PassEffect(ResumeJob, w, todo, project, broken, a);
  }

  lemma {:induction false} RestartPass(w: World, pid: nat, project: Project, broken: set<nat>, a: nat)
    requires Valid(w) && a in w.rows
    ensures var t := RunPass(RestartJob, w, Rows(w, CheckedBy(pid)), project, broken);
      && Valid(t) && SameTables(w, t)
      && (if Checkable(w.rows[a], pid) then
            HasEffect(w, t, a, CheckEffect(w, w.rows[a], project, a !in broken))
          else Untouched(w, t, a))
  {
    hide Rows, RunPass, CheckEffect;
    var todo := Rows(w, CheckedBy(pid));
    RowsOf(w, CheckedBy(pid), a);
    RunPassFrame(RestartJob, w, todo, project, broken);
    PassEffect(RestartJob, w, todo, project, broken, a);
  }

  /** The two passes after a good sync deal with disjoint activations, so each gets one effect at most. */
  lemma {:induction false} AfterSyncEffect(w: World, pid: nat, broken: set<nat>, a: nat)
    requires Valid(w) && a in w.rows && pid in w.projects
    ensures var t, project := AfterSync(w, pid, broken), w.projects[pid];
      && Valid(t) && SameTables(w, t)
      && (if WaitsFor(w.rows[a], pid) then
            HasEffect(w, t, a, ResumeEffect(w, w.rows[a], project, a !in broken))
          else if Checkable(w.rows[a], pid) then
            HasEffect(w, t, a, CheckEffect(w, w.rows[a], project, a !in broken))
          else Untouched(w, t, a))
  {
    hide RunPass, Rows, CheckEffect, ResumeEffect, PushesOf;
    var project := w.projects[pid];
    var mid := RunPass(RestartJob, w, Rows(w, CheckedBy(pid)), project, broken);
    RestartPass(w, pid, project, broken, a);
    ResumePass(mid, pid, project, broken, a);
    if Checkable(w.rows[a], pid) {
      CheckKeepsSettings(w, w.rows[a], project, a !in broken);
    }
    if WaitsFor(w.rows[a], pid) {
      ResumeEffectAgrees(w, mid, w.rows[a], project, a !in broken);
    }
  }

  lemma CheckKeepsSettings(w: World, a: Activation, project: Project, ok: bool)
    requires a.id in w.rows && w.rows[a.id] == a
    ensures SameSettings(a, CheckEffect(w, a, project, ok).row)
  {
  }

  lemma CheckRestarts(w: World, a: Activation, project: Project, ok: bool)
    requires a.id in w.rows && w.rows[a.id] == a
    ensures var e := CheckEffect(w, a, project, ok);
      RestartedIfWanted(a, e.row, e.requests, ok, WantsRestart(a, w.rulebooks)) && |e.requests| <= 1
  {
  }

  lemma CheckRefreshes(w: World, a: Activation, project: Project, ok: bool)
    requires a.id in w.rows && w.rows[a.id] == a
    ensures Refreshed(a, CheckEffect(w, a, project, ok).row, w.rulebooks, project.gitHash)
  {
  }

  lemma CheckMeans(w: World, a: Activation, project: Project, ok: bool)
    requires a.id in w.rows && w.rows[a.id] == a
    ensures var e := CheckEffect(w, a, project, ok);
      Checked(a, e.row, e.requests, ok, w.rulebooks, project.gitHash) && |e.requests| <= 1
  {
    hide CheckEffect, SameSettings, RestartedIfWanted, Refreshed;
    CheckKeepsSettings(w, a, project, ok);
    CheckRestarts(w, a, project, ok);
    CheckRefreshes(w, a, project, ok);
  }

  lemma ResumeMeans(w: World, a: Activation, project: Project, ok: bool)
    requires a.id in w.rows && w.rows[a.id] == a
    ensures var e := ResumeEffect(w, a, project, ok);
      Resumed(a, e.row, e.requests, ok, w.rulebooks, project.gitHash) && |e.requests| <= 1
  {
  }

  /** The tables between the import and the passes; after a failure, the error recovery. */
  ghost function AfterImport(w: World, pid: nat, outcome: SyncOutcome): World {
    if pid in w.projects && outcome.Synced? then Imported(w, pid, outcome.gitHash, outcome.files)
    else Recover(w, pid)
  }

  /** The requests and the row that a sync leaves of an activation, which the import left as `before`. */
  ghost predicate Resolved(u: World, pid: nat, good: bool, before: Activation, after: Activation,
                           requests: seq<Request>, pushed: bool) {
    if WaitsFor(before, pid) then
      if good && pid in u.projects then Resumed(before, after, requests, pushed, u.rulebooks, u.projects[pid].gitHash)
      else FailedWaiting(before, after, requests)
    else if good && pid in u.projects && Checkable(before, pid) then
      Checked(before, after, requests, pushed, u.rulebooks, u.projects[pid].gitHash)
    else after == before && requests == []
  }

  /**
   A sync leaves no activation of its project waiting. Each that waited ends in
   exactly one way; of the others the passes change only those to be checked, and no
   activation gets more than one request.
   */
  lemma {:induction false} SyncResolves(w: World, pid: nat, outcome: SyncOutcome, broken: set<nat>, a: nat)
    returns (requests: seq<Request>)
    requires Valid(w) && a in w.rows
    ensures var t, u := SyncProject(w, pid, outcome, broken), AfterImport(w, pid, outcome);
      && Valid(t) && a in t.rows && NewRequests(w, t, a, requests) && |requests| <= 1 && a in u.rows
      && OnlyContent(w.rows[a], u.rows[a])
      && Resolved(u, pid, outcome.Synced?, u.rows[a], t.rows[a], requests, a !in broken)
  {
    hide FailWaiting, AfterSync, PushesOf, Imported, Resumed, Checked, CheckEffect, ResumeEffect;
    var t, u := SyncProject(w, pid, outcome, broken), AfterImport(w, pid, outcome);
    if pid in w.projects && outcome.Synced? {
      ImportedIs(w, pid, outcome.gitHash, outcome.files);
      ImportedRowKeeps(w, pid, outcome.gitHash, outcome.files, w.rows[a]);
      requests := PassesResolve(u, pid, broken, a);
    } else {
      requests := [];
      FailPass(u, pid, a);
      if !WaitsFor(w.rows[a], pid) {
        SamePushes(w, t, a);
      }
    }
  }

  lemma {:induction false} PassesResolve(u: World, pid: nat, broken: set<nat>, a: nat) returns (requests: seq<Request>)
    requires Valid(u) && a in u.rows && pid in u.projects
    ensures var t := AfterSync(u, pid, broken);
      && Valid(t) && a in t.rows && NewRequests(u, t, a, requests) && |requests| <= 1
      && Resolved(u, pid, true, u.rows[a], t.rows[a], requests, a !in broken)
  {
    hide AfterSync, PushesOf, Resumed, Checked, CheckEffect, ResumeEffect;
    var project, ok, row := u.projects[pid], a !in broken, u.rows[a];
    AfterSyncEffect(u, pid, broken, a);
    if WaitsFor(row, pid) {
      requests := ResumeEffect(u, row, project, ok).requests;
      ResumeMeans(u, row, project, ok);
    } else if Checkable(row, pid) {
      requests := CheckEffect(u, row, project, ok).requests;
      CheckMeans(u, row, project, ok);
    } else {
      requests := [];
      SamePushes(u, AfterSync(u, pid, broken), a);
    }
  }

  /**
   Seen from before the sync, for an activation that does not restart by itself and does
   not wait: when its rulebook changed it has the new text, and the new hash unless it
   is source-mapped; when not, it keeps its text. It gets no request either way.
   */
  lemma {:induction false} UncheckedFollows(w: World, pid: nat, gitHash: string, files: map<nat, File>,
                                            broken: set<nat>, a: nat)
    requires Valid(w) && a in w.rows && pid in w.projects && !UpToDate(w, pid, gitHash)
    requires !w.rows[a].restartOnUpdate && !w.rows[a].awaiting
    requires w.rows[a].rulebook.Some? && Mine(w.rulebooks, pid, w.rows[a].rulebook.value)
    requires w.rows[a].rulebook.value in files
    ensures var t, row := SyncProject(w, pid, Synced(gitHash, Some(files)), broken), w.rows[a];
      var known, file := w.rulebooks[row.rulebook.value], files[row.rulebook.value];
      && a in t.rows && NewRequests(w, t, a, [])
      && t.rows[a] == if known.sha == file.sha then row.(gitHash := gitHash)
                      else row.(rulesets := file.text, sha := if row.mapped then row.sha else file.sha,
                                gitHash := gitHash)
  {
    hide SyncProject, Imported, PushesOf, Resumed, Checked;
    ImportedIs(w, pid, gitHash, Some(files));
    var requests := SyncResolves(w, pid, Synced(gitHash, Some(files)), broken, a);
  }

  /**
   A checked activation whose rulebook file is unchanged, and whose cached hash is its
   rulebook's, keeps the text it has: for a source-mapped one, the text with its event
   streams. The service has passed the git hash on before the check can see a new one.
   */
  lemma {:induction false} UnchangedFileKeepsText(w: World, pid: nat, gitHash: string, files: map<nat, File>,
                                                  broken: set<nat>, a: nat)
    requires Valid(w) && a in w.rows && pid in w.projects && !UpToDate(w, pid, gitHash)
    requires Checkable(w.rows[a], pid)
    requires w.rows[a].rulebook.Some? && Mine(w.rulebooks, pid, w.rows[a].rulebook.value)
    requires w.rows[a].rulebook.value in files
    requires w.rulebooks[w.rows[a].rulebook.value].sha == files[w.rows[a].rulebook.value].sha == w.rows[a].sha
    ensures var t := SyncProject(w, pid, Synced(gitHash, Some(files)), broken);
      && a in t.rows && t.rows[a].rulesets == w.rows[a].rulesets && t.rows[a].sha == w.rows[a].sha
      && t.rows[a].gitHash == gitHash
      && NewRequests(w, t, a, if HasFailed(w.rows[a].status) && a !in broken then [Restart] else [])
  {
    hide SyncProject, Imported, PushesOf, Resumed;
    ImportedIs(w, pid, gitHash, Some(files));
    ImportedRulebooks(w, pid, gitHash, files, w.rows[a].rulebook.value);
    var requests := SyncResolves(w, pid, Synced(gitHash, Some(files)), broken, a);
  }

  /**
   What a good sync does about an enabled activation of its project that restarts by
   itself and does not wait. If its rulebook is there after the import, it is restarted
   when the hash changed, unless it is source-mapped, and when the hash is the cached one
   and it has failed, source-mapped or not; a push that fails leaves it in error.
   */
  lemma {:induction false} SyncRestarts(w: World, pid: nat, gitHash: string, files: Option<map<nat, File>>,
                                        broken: set<nat>, a: nat)
    requires Valid(w) && pid in w.projects && a in w.rows
    requires w.rows[a].project == Some(pid) && w.rows[a].enabled && w.rows[a].restartOnUpdate && !w.rows[a].awaiting
    requires w.rows[a].rulebook.Some? && w.rows[a].rulebook.value in Imported(w, pid, gitHash, files).rulebooks
    ensures var t, row := SyncProject(w, pid, Synced(gitHash, files), broken), w.rows[a];
      var changed := row.sha != Imported(w, pid, gitHash, files).rulebooks[row.rulebook.value].sha;
      var failed := row.status == Failed || row.status == Error;
      var wanted := if changed then !row.mapped else failed;
      && a in t.rows && NewRequests(w, t, a, if wanted && a !in broken then [Restart] else [])
      && t.rows[a].status == (if wanted && a in broken then Error else row.status)
      && t.rows[a].failures == (if wanted && a !in broken && failed then 0 else row.failures)
  {
    hide SyncProject, Imported, PushesOf, UpToDate, Resumed, Refreshed;
    ImportedIs(w, pid, gitHash, files);
    RulebookStays(w, pid, gitHash, files, w.rows[a]);
    var requests := SyncResolves(w, pid, Synced(gitHash, files), broken, a);
  }

  /** An import detaches an activation only from a rulebook that it deletes. */
  lemma RulebookStays(w: World, pid: nat, gitHash: string, files: Option<map<nat, File>>, row: Activation)
    requires pid in w.projects && row.rulebook.Some? && row.rulebook.value in Imported(w, pid, gitHash, files).rulebooks
    ensures var after := ImportedRow(w, pid, gitHash, files, row);
      after.rulebook == row.rulebook && (row.restartOnUpdate ==> after == row.(gitHash := after.gitHash))
  {
    hide Imported, UpToDate;
    if !UpToDate(w, pid, gitHash) && files.Some? {
      ImportedRulebooks(w, pid, gitHash, files.value, row.rulebook.value);
    }
  }

  ghost predicate NobodyWaits(w: World, pid: nat) {
    forall a | a in w.rows :: w.rows[a].project == Some(pid) ==> !w.rows[a].awaiting
  }

  /**
   Seen over the project: nobody waits for it any more, and its import is no longer
   pending or running. A sync that raised leaves it FAILED exactly if it was claimed, or
   FAILED before; one that was launched on a completed project leaves it COMPLETED.
   */
  lemma SyncEndsWaiting(w: World, pid: nat, outcome: SyncOutcome, broken: set<nat>)
    requires Valid(w)
    ensures var t := SyncProject(w, pid, outcome, broken);
      && NobodyWaits(t, pid)
      && t.rows.Keys == w.rows.Keys && t.projects.Keys == w.projects.Keys
      && (pid in t.projects ==> !Busy(t.projects[pid].importState))
      && (pid in w.projects && outcome.Synced? ==> t.projects[pid].importState == ImportCompleted)
      && (pid in w.projects && outcome == SyncRaised ==>
            var before := w.projects[pid].importState;
            (t.projects[pid].importState == ImportFailed <==> Busy(before) || before == ImportFailed))
  {
    hide FailWaiting, AfterSync, Imported;
    var t := SyncProject(w, pid, outcome, broken);
    SyncTables(w, pid, outcome, broken);
    if pid in w.projects && outcome.Synced? {
      ImportedIs(w, pid, outcome.gitHash, outcome.files);
    }
    forall a | a in t.rows ensures t.rows[a].project == Some(pid) ==> !t.rows[a].awaiting {
      StopsWaiting(w, pid, outcome, broken, a);
    }
  }

  lemma StopsWaiting(w: World, pid: nat, outcome: SyncOutcome, broken: set<nat>, a: nat)
    requires Valid(w) && a in w.rows
    ensures var t := SyncProject(w, pid, outcome, broken);
      a in t.rows && (t.rows[a].project == Some(pid) ==> !t.rows[a].awaiting)
  {
    hide SyncProject, AfterImport, PushesOf;
    var requests := SyncResolves(w, pid, outcome, broken, a);
  }

  lemma SyncTables(w: World, pid: nat, outcome: SyncOutcome, broken: set<nat>)
    requires Valid(w)
    ensures var t, u := SyncProject(w, pid, outcome, broken), AfterImport(w, pid, outcome);
      Valid(t) && t.rows.Keys == w.rows.Keys && t.projects == u.projects && t.rulebooks == u.rulebooks
  {
    hide RunPass, Rows, Imported;
    var u := AfterImport(w, pid, outcome);
    if pid in w.projects && outcome.Synced? {
      ImportedIs(w, pid, outcome.gitHash, outcome.files);
      RunPassFrame(RestartJob, u, Rows(u, CheckedBy(pid)), u.projects[pid], broken);
      var mid := RunPass(RestartJob, u, Rows(u, CheckedBy(pid)), u.projects[pid], broken);
      RunPassFrame(ResumeJob, mid, Rows(mid, WaitingFor(pid)), u.projects[pid], broken);
    } else {
      RunPassFrame(FailJob, u, Rows(u, WaitingFor(pid)), NO_PROJECT, {});
    }
  }
}
