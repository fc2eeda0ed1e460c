/** The agent orchestrator of backend/app/services/orchestration_service.py:
    running a task's plugin and merging what it returns, and applying an
    approved diff to the code base as a commit. The plugin's `execute` is
    not run here: what it returned (or raised) for the task is a parameter. */
module Orchestration {
  import opened Wrappers
  import opened Text
  import opened Dicts
  import opened Models
  import opened Git
  import opened Crud
  import opened Plugins
  import opened Notifications

  // ---------------------------------------------------------------------
  // execute_task, as a function of the task

  function NoPluginMessage(taskId: int): string {
    "Task #" + IntToString(taskId) + " does not have a plugin_id specified. Cannot determine which plugin to run."
  }

  function UnknownPluginMessage(pluginId: string, taskId: int): string {
    "Plugin with ID '" + pluginId + "' not found for task #" + IntToString(taskId) + ". Task cannot be executed."
  }

  function CrashMessage(e: Exc): string {
    "Critical plugin execution error: " + e.msg
  }

  /** The dict merged once the plugin has run: what it returned, or ERROR
      with the exception's text when it raised. */
  function PluginResults(outcome: Result<Update>): Update {
    if outcome.Raise? then ErrorUpdate(CrashMessage(outcome.exc)) else outcome.value
  }

  /** The task record `execute_task` leaves behind, given whether its
      plugin id is registered and what the plugin's `execute` gave. */
  function Executed(taskId: int, t: AgentTask, registered: bool, outcome: Result<Update>): AgentTask
    requires outcome.Ok? ==> TaskUpdateFits(outcome.value)
  {
    if t.pluginId == "" then
      ErrorUpdateFits(NoPluginMessage(taskId));
      MergeTask(t, ErrorUpdate(NoPluginMessage(taskId)))
    else if !registered then
      ErrorUpdateFits(UnknownPluginMessage(t.pluginId, taskId));
      MergeTask(t, ErrorUpdate(UnknownPluginMessage(t.pluginId, taskId)))
    else
      StatusUpdateFits(Analyzing);
      if outcome.Raise? then ErrorUpdateFits(CrashMessage(outcome.exc)); Merged(t, PluginResults(outcome))
      else Merged(t, PluginResults(outcome))
  }

  /** The record once the orchestrator has set ANALYZING and merged the
      plugin's dict. */
  function Merged(t: AgentTask, results: Update): AgentTask
    requires TaskUpdateFits(results)
  {
    StatusUpdateFits(Analyzing);
    MergeTask(MergeTask(t, [("status", VStatus(Analyzing))]), results)
  }

  /** Without a plugin id, or with one the registry does not know, the task
      goes to ERROR with a message naming it, and the plugin never runs:
      what it would have returned makes no difference. */
  lemma NoPluginNoRun(taskId: int, t: AgentTask, registered: bool, o1: Result<Update>, o2: Result<Update>)
    requires o1.Ok? ==> TaskUpdateFits(o1.value)
    requires o2.Ok? ==> TaskUpdateFits(o2.value)
    requires t.pluginId == "" || !registered
    ensures Executed(taskId, t, registered, o1) == Executed(taskId, t, registered, o2)
    ensures Executed(taskId, t, registered, o1).status == Error
    ensures Executed(taskId, t, registered, o1).errorMessage ==
      Some(if t.pluginId == "" then NoPluginMessage(taskId) else UnknownPluginMessage(t.pluginId, taskId))
  {
    if t.pluginId == "" {
      MergeError(t, NoPluginMessage(taskId));
    } else {
      MergeError(t, UnknownPluginMessage(t.pluginId, taskId));
    }
  }

  /** A plugin that raises leaves the task in ERROR with the exception's
      text. */
  lemma PluginCrash(taskId: int, t: AgentTask, e: Exc)
    requires t.pluginId != ""
    ensures Executed(taskId, t, true, Raise(e)).status == Error
    ensures Executed(taskId, t, true, Raise(e)).errorMessage == Some(CrashMessage(e))
  {
    MergeError(MergeTask(t, [("status", VStatus(Analyzing))]), CrashMessage(e));
  }

  /** A plugin's dict sets the columns it names; the status is ANALYZING
      unless the dict sets it, and every other column is as before. In
      particular the empty dict leaves the task ANALYZING. */
  lemma PluginMerged(taskId: int, t: AgentTask, u: Update)
    requires TaskUpdateFits(u) && UniqueKeys(u) && t.pluginId != ""
    ensures var t' := Executed(taskId, t, true, Ok(u));
      forall k :: IsTaskField(k) ==>
        TaskGet(t', k) == if Lookup(u, k).Some? then Lookup(u, k).value
                          else if k == "status" then VStatus(Analyzing)
                          else TaskGet(t, k)
  {
    var a: Update := [("status", VStatus(Analyzing))];
    MergeTaskFields(t, a);
    MergeTaskFields(MergeTask(t, a), u);
  }

  /** The empty dict: the task is the one the orchestrator marked
      ANALYZING. */
  lemma EmptyResultsStayAnalyzing(taskId: int, t: AgentTask)
    requires t.pluginId != ""
    ensures Executed(taskId, t, true, Ok([])) == MergeTask(t, [("status", VStatus(Analyzing))])
    ensures Executed(taskId, t, true, Ok([])).status == Analyzing
  {
    var a: Update := [("status", VStatus(Analyzing))];
    MergeTaskFields(t, a);
    LookupAt(a, 0);
    assert TaskGet(MergeTask(t, a), "status") == VStatus(Analyzing);
  }

  // ---------------------------------------------------------------------
  // apply_and_commit_changes

  const NoChangesMessage := "No" + " changes to commit after patch application."

  function PatchFileName(taskId: int): string {
    "frankie_task_" + IntToString(taskId) + "_apply.patch"
  }

  function ApplyStashMessage(taskId: int): string {
    "frankie-autostash-before-apply-task-" + IntToString(taskId)
  }

  function CommitMessage(task: AgentTask, user: User): string {
    "feat(agent): Task #" + IntToString(task.id) + " - " + task.pluginId
    + "\n\nPrompt: " + task.prompt + "\nApproved and applied by: " + user.email
  }

  /** How a successful `git apply` ends: when the applied state is clean
      (`clean`), the no-changes answer with the history as it was;
      otherwise the sha of one new commit, with the message, whose tree is
      the `snapshot` that `git add -A` staged. */
  predicate Committed(before: seq<Commit>, after: seq<Commit>, answer: string, message: string,
                      clean: bool, snapshot: Tree) {
    if clean then answer == NoChangesMessage && after == before
    else answer == Sha(|before|) && after == before + [Commit(answer, message, snapshot)]
  }

  /** The no-changes answer comes exactly when the applied state is clean,
      and a commit is added exactly when it is not. */
  lemma CommittedAnswers(before: seq<Commit>, after: seq<Commit>, answer: string, message: string,
                         clean: bool, snapshot: Tree)
    requires Committed(before, after, answer, message, clean, snapshot)
    ensures answer == NoChangesMessage <==> clean
    ensures |after| == |before| + (if clean then 0 else 1)
  {
    if !clean {
      assert answer[0] == 'c';
      assert NoChangesMessage[0] == 'N';
    }
  }

  /** The guards that hold before any file or git action: a code-modifier
      task with a diff that is not blank. */
  predicate HasDiffToApply(task: AgentTask) {
    task.pluginId == "code_modifier" && task.proposedDiff.Some? && !IsBlank(task.proposedDiff.value)
  }

  /** The exception a failed guard raises, checked in the source's order. */
  function GuardFailure(task: AgentTask, hasRepo: bool): (r: Option<Exc>)
    ensures r.None? <==> hasRepo && HasDiffToApply(task)
    ensures task.pluginId != "code_modifier" ==> r.Some? && r.value.kind == ValueError
    ensures task.pluginId == "code_modifier" && !hasRepo ==> r.Some? && r.value.kind == RuntimeError
    ensures task.pluginId == "code_modifier" && hasRepo && !HasDiffToApply(task) ==>
      r.Some? && r.value.kind == ValueError
  {
    if task.pluginId != "code_modifier" then
      Some(Exc(ValueError, "Git commit is only applicable for 'code_modifier' plugin tasks. Task plugin: " + task.pluginId))
    else if !hasRepo then
      Some(Exc(RuntimeError, "Git repository not found or not initialized. Check backend startup logs."))
    else if task.proposedDiff.None? || IsBlank(task.proposedDiff.value) then
      Some(Exc(ValueError, "Task has no actual proposed changes (diff) to apply."))
    else None
  }

  class AgentOrchestrator {
    const db: Db
    const pluginManager: PluginManager
    const notifier: NotificationService
    /** `self.repo`: the repository at the code base path, or None when
        it could not be opened. */
    const repo: Repo?

    constructor (db: Db, pluginManager: PluginManager, notifier: NotificationService, repo: Repo?)
      ensures this.db == db && this.pluginManager == pluginManager
      ensures this.notifier == notifier && this.repo == repo
    {
      this.db := db;
      this.pluginManager := pluginManager;
      this.notifier := notifier;
      this.repo := repo;
    }

    /** `execute_task`: an unknown id does nothing; otherwise the task ends
        as `Executed` says and exactly one notification decision is made on
        the final record. The plugin shares the orchestrator's session, so
        the findings table is promised unchanged only when no plugin runs. */
    method ExecuteTask(taskId: int, outcome: Result<Update>)
      requires db.Valid()
      requires outcome.Ok? ==> TaskUpdateFits(outcome.value)
      modifies db, notifier
      ensures db.Valid()
      ensures taskId !in old(db.tasks) ==> db.tasks == old(db.tasks) && notifier.outbox == old(notifier.outbox)
      ensures taskId in old(db.tasks) ==>
        var t := Executed(taskId, old(db.tasks[taskId]),
                          pluginManager.GetPluginClass(old(db.tasks[taskId]).pluginId).Some?, outcome);
        db.tasks == old(db.tasks)[taskId := t] && notifier.outbox == old(notifier.outbox) + notifier.Mailed(t)
      ensures db.permissions == old(db.permissions) && db.trees == old(db.trees) && db.persons == old(db.persons)
      ensures db.families == old(db.families)
      ensures taskId !in old(db.tasks) || old(db.tasks[taskId]).pluginId == ""
              || pluginManager.GetPluginClass(old(db.tasks[taskId]).pluginId).None? ==>
        db.findings == old(db.findings)
    {
      var found := db.GetAgentTask(taskId);
      if found.None? {
        return;
      }
      var task := found.value;
      if task.pluginId == "" {
        FailTask(taskId, NoPluginMessage(taskId));
        return;
      }
      var pluginClass := pluginManager.GetPluginClass(task.pluginId);
      if pluginClass.None? {
        FailTask(taskId, UnknownPluginMessage(task.pluginId, taskId));
        return;
      }
      RunPlugin(taskId, outcome);
    }

    /** Records the ERROR dict with the message on the task and notifies. */
    method FailTask(taskId: int, message: string)
      requires db.Valid() && taskId in db.tasks
      modifies db, notifier
      ensures db.Valid()
      ensures var t := MergeTask(old(db.tasks[taskId]), ErrorUpdate(message));
        db.tasks == old(db.tasks)[taskId := t] && notifier.outbox == old(notifier.outbox) + notifier.Mailed(t)
      ensures db.permissions == old(db.permissions) && db.trees == old(db.trees) && db.persons == old(db.persons)
      ensures db.families == old(db.families) && db.findings == old(db.findings)
    {
      ErrorUpdateFits(message);
      var updated := db.UpdateAgentTask(taskId, ErrorUpdate(message));
      notifier.NotifyTaskStatusChange(updated);
    }

    /** Marks the task ANALYZING, merges what its plugin gave and notifies.
        What the plugin wrote to the findings table on the shared session is
        left open. */
    method RunPlugin(taskId: int, outcome: Result<Update>)
      requires db.Valid() && taskId in db.tasks
      requires outcome.Ok? ==> TaskUpdateFits(outcome.value)
      modifies db, notifier
      ensures db.Valid()
      ensures outcome.Raise? ==> TaskUpdateFits(PluginResults(outcome))
      ensures var t := Merged(old(db.tasks[taskId]), PluginResults(outcome));
        db.tasks == old(db.tasks)[taskId := t] && notifier.outbox == old(notifier.outbox) + notifier.Mailed(t)
      ensures db.permissions == old(db.permissions) && db.trees == old(db.trees) && db.persons == old(db.persons)
      ensures db.families == old(db.families)
    {
      StatusUpdateFits(Analyzing);
      var analyzing := db.UpdateAgentTask(taskId, [("status", VStatus(Analyzing))]);
      var results: Update;
      if outcome.Raise? {
        results := ErrorUpdate(CrashMessage(outcome.exc));
        ErrorUpdateFits(CrashMessage(outcome.exc));
      } else {
        results := outcome.value;
      }
      var updated := db.UpdateAgentTask(taskId, results);
      assert updated == Merged(old(db.tasks[taskId]), PluginResults(outcome));
      notifier.NotifyTaskStatusChange(updated);
    }

    /** `apply_and_commit_changes` as written: the patch file is written
        into the working tree before the dirtiness check, so the autostash
        (`stash push -u`) carries it away whenever it is not ignored, and
        `git apply` cannot open it. */
    method ApplyAndCommitChanges(task: AgentTask, user: User, patch: (Tree, string) -> Option<Tree>)
      returns (r: Result<string>)
      requires repo != null ==> repo.Valid()
      modifies repo
      ensures repo != null ==> repo.Valid()
      ensures GuardFailure(task, repo != null).Some? ==>
        r == Raise(GuardFailure(task, repo != null).value) && (repo != null ==> unchanged(repo))
      ensures GuardFailure(task, repo != null).None? ==> PatchFileName(task.id) !in repo.worktree
      ensures GuardFailure(task, repo != null).None? && r.Raise? ==>
        r.exc.kind == GitCommandError && repo.commits == old(repo.commits) && repo.index == repo.HeadTree()
      ensures GuardFailure(task, repo != null).None? ==>
        var name := PatchFileName(task.id);
        var staged := Autostashed(old(repo.worktree)[name := task.proposedDiff.value], old(repo.index),
                                  old(repo.HeadTree()), repo.ignored);
        (r.Ok? <==> name in staged && patch(staged, staged[name]).Some?)
        && (r.Ok? ==>
              var patched := patch(staged, staged[name]).value;
              var snapshot := VisibleOf(patched, old(repo.HeadTree()), repo.ignored);
              repo.worktree == patched - {name}
              && Committed(old(repo.commits), repo.commits, r.value, CommitMessage(task, user),
                           snapshot == old(repo.HeadTree()), snapshot))
      ensures GuardFailure(task, repo != null).None?
              && PatchFileName(task.id) !in old(repo.index) && PatchFileName(task.id) !in old(repo.HeadTree())
              && PatchFileName(task.id) !in repo.ignored ==>
        r == Raise(Exc(GitCommandError, NoPatchFile(PatchFileName(task.id))))
    {
      var guard := GuardFailure(task, repo != null);
      if guard.Some? {
        return Raise(guard.value);
      }
      var name := PatchFileName(task.id);
      ghost var headTree := repo.HeadTree();
      WriteAndStash(name, task.proposedDiff.value, ApplyStashMessage(task.id));
      ghost var staged := repo.worktree;
      assert repo.index == headTree;
      assert repo.HeadTree() == headTree;
      r := ApplyAndCommitFile(name, CommitMessage(task, user), patch);
      if r.Ok? {
        ghost var patched := patch(staged, staged[name]).value;
        assert !Dirty(patched, headTree, headTree, repo.ignored)
          <==> VisibleOf(patched, headTree, repo.ignored) == headTree;
      }
      repo.RemoveFile(name);
    }

    /** Writes the patch file into the working tree and then stashes a
        dirty tree, untracked files included: a patch file that is neither
        tracked nor ignored leaves with the stash. */
    method WriteAndStash(name: string, diff: string, stashMessage: string)
      requires repo != null && repo.Valid()
      modifies repo
      ensures repo.Valid() && repo.commits == old(repo.commits)
      ensures repo.branches == old(repo.branches) && repo.head == old(repo.head)
      ensures repo.worktree == Autostashed(old(repo.worktree)[name := diff], old(repo.index),
                                           old(repo.HeadTree()), repo.ignored)
      ensures repo.index == old(repo.HeadTree())
      ensures name !in old(repo.index) && name !in old(repo.HeadTree()) && name !in repo.ignored ==>
        name !in repo.worktree
    {
      repo.WriteFile(name, diff);
      assert name !in repo.index && name !in repo.ignored ==> repo.IsDirty() by {
        if name !in repo.index && name !in repo.ignored {
          assert name in repo.Visible();
        }
      }
      if repo.IsDirty() {
        repo.StashPush(stashMessage);
      }
    }

    /** `git apply` of the patch file, then a hard reset on failure, the
        no-changes answer on a clean tree, or a commit of everything. */
    method ApplyAndCommitFile(name: string, message: string, patch: (Tree, string) -> Option<Tree>)
      returns (r: Result<string>)
      requires repo != null && repo.Valid()
      modifies repo
      ensures repo.Valid()
      ensures r.Raise? ==> r.exc.kind == GitCommandError && repo.commits == old(repo.commits) && repo.index == repo.HeadTree()
      ensures name !in old(repo.worktree) ==> r == Raise(Exc(GitCommandError, NoPatchFile(name)))
      ensures r.Ok? <==> name in old(repo.worktree) && patch(old(repo.worktree), old(repo.worktree)[name]).Some?
      ensures r.Ok? ==>
        var patched := patch(old(repo.worktree), old(repo.worktree)[name]).value;
        repo.worktree == patched && !repo.IsDirty()
        && Committed(old(repo.commits), repo.commits, r.value, message,
                     !Dirty(patched, old(repo.index), old(repo.HeadTree()), repo.ignored),
                     VisibleOf(patched, old(repo.index), repo.ignored))
    {
      var applied := repo.Apply(name, patch);
      if applied.Raise? {
        repo.ResetHard();
        r := Raise(applied.exc);
      } else if !repo.IsDirty() {
        r := Ok(NoChangesMessage);
      } else {
        var staged := repo.index;
        repo.AddAll();
        var sha := repo.CommitIndex(message);
        CommitLeavesClean(repo.worktree, staged, repo.ignored);
        r := Ok(sha);
      }
    }

    /** `apply_and_commit_changes` with the patch text handed to `git
        apply` from outside the working tree: a dirty tree is stashed
        first, and the only git failure left is a patch that does not
        apply to the stashed tree. */
    method ApplyAndCommitIntended(task: AgentTask, user: User, patch: (Tree, string) -> Option<Tree>)
      returns (r: Result<string>)
      requires repo != null ==> repo.Valid()
      modifies repo
      ensures repo != null ==> repo.Valid()
      ensures GuardFailure(task, repo != null).Some? ==>
        r == Raise(GuardFailure(task, repo != null).value) && (repo != null ==> unchanged(repo))
      ensures GuardFailure(task, repo != null).None? ==>
        (r.Ok? <==> patch(old(AfterAutostash(repo)), task.proposedDiff.value).Some?)
      ensures GuardFailure(task, repo != null).None? && r.Raise? ==>
        r.exc == Exc(GitCommandError, PatchFailed) && repo.commits == old(repo.commits) && repo.index == repo.HeadTree()
      ensures GuardFailure(task, repo != null).None? && r.Ok? ==>
        var patched := patch(old(AfterAutostash(repo)), task.proposedDiff.value).value;
        var snapshot := VisibleOf(patched, old(repo.HeadTree()), repo.ignored);
        repo.worktree == patched && !repo.IsDirty()
        && Committed(old(repo.commits), repo.commits, r.value, CommitMessage(task, user),
                     snapshot == old(repo.HeadTree()), snapshot)
    {
      var guard := GuardFailure(task, repo != null);
      if guard.Some? {
        return Raise(guard.value);
      }
      var diff := task.proposedDiff.value;
      if repo.IsDirty() {
        repo.StashPush(ApplyStashMessage(task.id));
      }
      var applied := repo.ApplyText(diff, patch);
      if applied.Raise? {
        repo.ResetHard();
        r := Raise(applied.exc);
      } else if !repo.IsDirty() {
        r := Ok(NoChangesMessage);
      } else {
        var staged := repo.index;
        repo.AddAll();
        var sha := repo.CommitIndex(CommitMessage(task, user));
        CommitLeavesClean(repo.worktree, staged, repo.ignored);
        r := Ok(sha);
      }
    }
  }
}
