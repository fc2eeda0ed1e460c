/** The admin endpoints of backend/app/api/endpoints/admin.py that decide
    something: approving a task that awaits review (committing a code
    change, or moving an odyssey task on to its next milestone), and the
    guards on adding a permission rule and on deleting a user. FastAPI's
    request handling is reduced to the reply: the body of a 2xx answer or
    the status and detail of an HTTPException. */
module Admin {
  import opened Wrappers
  import opened Text
  import opened Dicts
  import opened Json
  import opened Models
  import opened Crud
  import opened Notifications
  import opened Odyssey

  /** What an endpoint answers: its body, or the HTTPException it raises. */
  datatype Reply<T> = Body(value: T) | HttpError(code: int, detail: string)

  /** `str(e)`: an HTTPException prints as "<code>: <detail>". */
  function ExcText(e: Exc): string {
    if e.kind.HttpException? then IntToString(e.kind.code) + ": " + e.msg else e.msg
  }

  // ---------------------------------------------------------------------
  // Python operations the odyssey approval applies to stored values

  /** The number a stored value stands for in `0 <= x`: ints and bools
      compare as numbers, other values raise TypeError. */
  function Numeric(j: Json): (r: Result<int>)
    ensures j.JInt? ==> r == Ok(j.i)
    ensures r.Ok? <==> j.JInt? || j.JBool?
  {
    match j
    case JInt(i) => Ok(i)
    case JBool(b) => Ok(if b then 1 else 0)
    case _ => Raise(Exc(TypeError, "'<=' not supported between instances of 'int' and '" + TypeName(j) + "'"))
  }

  /** `0 <= idx < len(milestones) - 1`, a chained comparison: `len` is not
      evaluated once `0 <= idx` is false. The index the approval stores
      next when it holds. */
  function NextIndex(idx: Json, milestones: Json): (r: Result<Option<int>>)
    ensures idx.JInt? && milestones.JArr? ==>
      r == Ok(if 0 <= idx.i < |milestones.items| - 1 then Some(idx.i + 1) else None)
    ensures idx.JInt? && idx.i < 0 ==> r == Ok(None)
  {
    var i :- Numeric(idx);
    if i < 0 then Ok(None)
    else
      var n :- PyLen(milestones);
      Ok(if i < n - 1 then Some(i + 1) else None)
  }

  // ---------------------------------------------------------------------
  // Approving an odyssey task

  /** The loaded context: `json.loads(text) if text else {}`; text that is
      not JSON raises JSONDecodeError. */
  function ApprovalContext(text: Option<string>): (r: Result<Json>)
    ensures text.None? || text == Some("") ==> r == Ok(JObj([]))
    ensures text.Some? && text.value != "" ==>
      (r.Ok? <==> Decode(text.value).Some?) && (r.Raise? ==> r.exc.kind == JsonDecodeError)
  {
    if text.None? || text.value == "" then Ok(JObj([]))
    else
      match Decode(text.value)
      case None => Raise(Exc(JsonDecodeError, ""))
      case Some(j) => Ok(j)
  }

  function UnexpectedPhaseMessage(phase: Json): string {
    "Odyssey task is in an unexpected phase ('" + Display(phase) + "') for an approval action."
  }

  /** The status the approval sets and the dict it stores, given the loaded
      dict: a plan under review starts the milestones at index 0; a
      reviewed milestone moves the index on when another milestone follows
      and finalises otherwise; any other phase raises HTTPException 400. */
  function Advance(ms: Members): (r: Result<(TaskStatus, Members)>)
  {
    var phase := Lookup(ms, PhaseKey).GetOr(JNull);
    if phase == JStr(PhaseName(PlanReviewPhase)) then
      Ok((ExecutingMilestone, Put(Put(ms, PhaseKey, JStr(PhaseName(MilestonePhase))), IndexKey, JInt(0))))
    else if phase == JStr(PhaseName(MilestoneReviewPhase)) then
      var idx := Lookup(ms, IndexKey).GetOr(JInt(-1));
      var milestones :- Get(Lookup(ms, PlanKey).GetOr(JObj([])), "milestones", JArr([]));
      var next :- NextIndex(idx, milestones);
      if next.Some? then
        Ok((ExecutingMilestone, Put(Put(ms, IndexKey, JInt(next.value)), PhaseKey, JStr(PhaseName(MilestonePhase)))))
      else Ok((Applied, Put(ms, PhaseKey, JStr(PhaseName(FinalizingPhase)))))
    else Raise(Exc(HttpException(400), UnexpectedPhaseMessage(phase)))
  }

  /** The three context keys differ. */
  lemma ContextKeysDiffer()
    ensures PhaseKey != IndexKey && PhaseKey != PlanKey && IndexKey != PlanKey
  {
    assert PhaseKey[8] != IndexKey[8];
    assert |PlanKey| != |PhaseKey| && |PlanKey| != |IndexKey|;
  }

  /** The two review phases have different names. */
  lemma ReviewNamesDiffer()
    ensures PhaseName(PlanReviewPhase) != PhaseName(MilestoneReviewPhase)
  {
    assert |PhaseName(PlanReviewPhase)| != |PhaseName(MilestoneReviewPhase)|;
  }

  /** A stored plan with milestones and an integer index: the milestone
      step goes on with the index one further. */
  lemma StartAfter(data: Members, plan: Members, items: seq<Json>, i: int)
    requires Lookup(data, PlanKey) == Some(JObj(plan)) && Lookup(plan, "milestones") == Some(JArr(items))
    requires |items| > 0 && Lookup(data, IndexKey) == Some(JInt(i))
    ensures MilestoneStart(data) == Go(items, i + 1)
  {
    MilestoneStartCases(data);
  }

  /** The plan review: phase EXECUTING_MILESTONE, index 0, status
      EXECUTING_MILESTONE, the other entries as they were. */
  lemma ApprovePlan(ms: Members)
    requires Lookup(ms, PhaseKey) == Some(JStr(PhaseName(PlanReviewPhase)))
    ensures Advance(ms).Ok? && Advance(ms).value.0 == ExecutingMilestone
    ensures var ms' := Advance(ms).value.1;
      PhaseOf(CurrentPhase(ms')) == Some(MilestonePhase) && Lookup(ms', IndexKey) == Some(JInt(0))
      && forall k :: k != PhaseKey && k != IndexKey ==> Lookup(ms', k) == Lookup(ms, k)
  {
    PhaseOfName(MilestonePhase);
  }

  /** A reviewed milestone with an integer index and a list of
      milestones: EXECUTING_MILESTONE with the index one further while a
      milestone follows, FINALIZING with status APPLIED otherwise. */
  lemma ApproveMilestone(ms: Members, i: int, plan: Members, items: seq<Json>)
    requires Lookup(ms, PhaseKey) == Some(JStr(PhaseName(MilestoneReviewPhase)))
    requires Lookup(ms, IndexKey) == Some(JInt(i))
    requires Lookup(ms, PlanKey) == Some(JObj(plan)) && Lookup(plan, "milestones") == Some(JArr(items))
    ensures Advance(ms).Ok?
    ensures 0 <= i < |items| - 1 ==>
      Advance(ms).value.0 == ExecutingMilestone && Lookup(Advance(ms).value.1, IndexKey) == Some(JInt(i + 1))
      && PhaseOf(CurrentPhase(Advance(ms).value.1)) == Some(MilestonePhase)
    ensures !(0 <= i < |items| - 1) ==>
      Advance(ms).value.0 == Applied && Lookup(Advance(ms).value.1, IndexKey) == Some(JInt(i))
      && PhaseOf(CurrentPhase(Advance(ms).value.1)) == Some(FinalizingPhase)
    ensures forall k :: k != PhaseKey && k != IndexKey ==> Lookup(Advance(ms).value.1, k) == Lookup(ms, k)
  {
    MilestoneBranch(ms, i, plan, items);
    ContextKeysDiffer();
    if 0 <= i < |items| - 1 {
      StoredPhase(Put(ms, IndexKey, JInt(i + 1)), MilestonePhase);
    } else {
      StoredPhase(ms, FinalizingPhase);
    }
  }

  /** The reviewed-milestone branch of `Advance`, written out. */
  lemma MilestoneBranch(ms: Members, i: int, plan: Members, items: seq<Json>)
    requires Lookup(ms, PhaseKey) == Some(JStr(PhaseName(MilestoneReviewPhase)))
    requires Lookup(ms, IndexKey) == Some(JInt(i))
    requires Lookup(ms, PlanKey) == Some(JObj(plan)) && Lookup(plan, "milestones") == Some(JArr(items))
    ensures 0 <= i < |items| - 1 ==>
      Advance(ms) == Ok((ExecutingMilestone,
                         Put(Put(ms, IndexKey, JInt(i + 1)), PhaseKey, JStr(PhaseName(MilestonePhase)))))
    ensures !(0 <= i < |items| - 1) ==>
      Advance(ms) == Ok((Applied, Put(ms, PhaseKey, JStr(PhaseName(FinalizingPhase)))))
  {
    ReviewNamesDiffer();
    assert Get(JObj(plan), "milestones", JArr([])) == Ok(JArr(items));
    assert NextIndex(JInt(i), JArr(items)) == Ok(if 0 <= i < |items| - 1 then Some(i + 1) else None);
  }

  /** Any phase other than the two reviews raises HTTPException 400 naming
      the phase. */
  lemma ApproveOtherPhase(ms: Members)
    requires Lookup(ms, PhaseKey).GetOr(JNull) != JStr(PhaseName(PlanReviewPhase))
    requires Lookup(ms, PhaseKey).GetOr(JNull) != JStr(PhaseName(MilestoneReviewPhase))
    ensures Advance(ms) == Raise(Exc(HttpException(400), UnexpectedPhaseMessage(Lookup(ms, PhaseKey).GetOr(JNull))))
  {
  }

  function ApprovedExplanation(phase: Json): string {
    "Admin approved " + Display(phase) + ". Proceeding to next step..."
  }

  /** The dict `update_agent_task` receives for an odyssey task. */
  function OdysseyUpdate(status: TaskStatus, phase: Json, ms: Members): (r: Update)
    ensures TaskUpdateFits(r) && UniqueKeys(r)
  {
    assert TaskColumn("status") == Some(StatusCol);
    assert TaskColumn("llm_explanation") == Some(OptStrCol);
    assert TaskColumn("task_context_data") == Some(OptStrCol);
    [("status", VStatus(status)), ("llm_explanation", VStr(ApprovedExplanation(phase))),
     ("task_context_data", VStr(Serialised(ms)))]
  }

  /** The dict a code-modifier approval stores. */
  function CommitUpdate(commitHash: string): (r: Update)
    ensures TaskUpdateFits(r) && UniqueKeys(r)
  {
    assert TaskColumn("status") == Some(StatusCol);
    assert TaskColumn("commit_hash") == Some(OptStrCol);
    [("status", VStatus(Applied)), ("commit_hash", VStr(commitHash))]
  }

  /** What the `try` block of the approval computes for `update_data`, or
      the exception it raises. `applied` is what
      `apply_and_commit_changes` returned or raised, used only for
      code-modifier tasks. */
  function ApprovalUpdate(task: AgentTask, applied: Result<string>): (r: Result<Update>)
    ensures r.Ok? ==> TaskUpdateFits(r.value)
    ensures task.pluginId == "code_modifier" ==>
      r == if applied.Ok? then Ok(CommitUpdate(applied.value)) else Raise(applied.exc)
    ensures task.pluginId != "code_modifier" && task.pluginId != "odyssey_agent" ==>
      r == Ok([("status", VStatus(Applied))])
  {
    if task.pluginId == "code_modifier" then
      if applied.Ok? then Ok(CommitUpdate(applied.value)) else Raise(applied.exc)
    else if task.pluginId == "odyssey_agent" then
      var context :- ApprovalContext(task.taskContextData);
      var phase :- Get(context, PhaseKey, JNull);
      var step :- Advance(context.members);
      Ok(OdysseyUpdate(step.0, phase, step.1))
    else
      StatusUpdateFits(Applied);
      Ok([("status", VStatus(Applied))])
  }

  // ---------------------------------------------------------------------
  // approve_and_process_agent_task

  function NotAwaitingMessage(s: TaskStatus): string {
    "Task is not awaiting review. Current status: " + StatusValue(s)
  }

  function FailureMessage(taskId: int, e: Exc): string {
    "Failed to approve/process task #" + IntToString(taskId) + ": " + ExcText(e)
  }

  /** What an approval leaves: the reply, the record stored back (and
      notified) if any, and whether the task is queued to run again. */
  datatype Approval = Approval(reply: Reply<AgentTask>, stored: Option<AgentTask>, requeued: bool)

  /** The approval of the task found under the id (None when there is
      none). */
  function Approve(found: Option<AgentTask>, applied: Result<string>): (r: Approval)
    ensures r.stored.Some? ==> r.reply.Body? || r.reply.code == 500
  {
    if found.None? then Approval(HttpError(404, "Task not found"), None, false)
    else if found.value.status != AwaitingReview then
      Approval(HttpError(400, NotAwaitingMessage(found.value.status)), None, false)
    else Decide(found.value, ApprovalUpdate(found.value, applied))
  }

  /** The end of the approval, given what the `try` block computed: the
      update is stored and answered; a ValueError answers 400 and stores
      nothing; any other exception stores ERROR with the message and
      answers 500. */
  function Decide(task: AgentTask, u: Result<Update>): (r: Approval)
    requires u.Ok? ==> TaskUpdateFits(u.value)
    ensures r.stored.Some? ==> r.reply.Body? || r.reply.code == 500
  {
    if u.Ok? then
      var updated := MergeTask(task, u.value);
      Approval(Body(updated), Some(updated), task.pluginId == "odyssey_agent")
    else if IsValueError(u.exc.kind) then Approval(HttpError(400, ExcText(u.exc)), None, false)
    else
      var message := FailureMessage(task.id, u.exc);
      ErrorUpdateFits(message);
      Approval(HttpError(500, message), Some(MergeTask(task, ErrorUpdate(message))), false)
  }

  /** An unknown task answers 404, a task not awaiting review 400; either
      way nothing is stored or queued. */
  lemma ApproveRefused(found: Option<AgentTask>, applied: Result<string>)
    requires found.None? || found.value.status != AwaitingReview
    ensures Approve(found, applied).stored.None? && !Approve(found, applied).requeued
    ensures Approve(found, applied).reply ==
      if found.None? then HttpError(404, "Task not found") else HttpError(400, NotAwaitingMessage(found.value.status))
  {
  }

  /** A code-modifier approval stores APPLIED and whatever the commit step
      returned (a sha or the no-changes message) as the commit hash, and
      answers with the stored record. */
  lemma ApproveCommit(task: AgentTask, commitHash: string)
    requires task.status == AwaitingReview && task.pluginId == "code_modifier"
    ensures var a := Approve(Some(task), Ok(commitHash));
      a.stored.Some? && a.reply == Body(a.stored.value) && !a.requeued
      && a.stored.value.status == Applied && a.stored.value.commitHash == Some(commitHash)
  {
    var u := CommitUpdate(commitHash);
    MergeTaskFields(task, u);
    LookupAt(u, 0);
    LookupAt(u, 1);
    assert TaskGet(MergeTask(task, u), "status") == VStatus(Applied);
    assert TaskGet(MergeTask(task, u), "commit_hash") == VStr(commitHash);
  }

  /** A task of any other plugin is simply marked APPLIED. */
  lemma ApproveOther(task: AgentTask, applied: Result<string>)
    requires task.status == AwaitingReview
    requires task.pluginId != "code_modifier" && task.pluginId != "odyssey_agent"
    ensures var a := Approve(Some(task), applied);
      a.stored.Some? && a.reply == Body(a.stored.value) && !a.requeued && a.stored.value.status == Applied
  {
    var u: Update := [("status", VStatus(Applied))];
    StatusUpdateFits(Applied);
    MergeTaskFields(task, u);
    LookupAt(u, 0);
    assert TaskGet(MergeTask(task, u), "status") == VStatus(Applied);
  }

  /** The error mapping: a ValueError (JSONDecodeError included) answers
      400 with its text and leaves the task alone; any other exception,
      the HTTPException for an unexpected phase among them, leaves the
      task in ERROR with the message it answers 500 with. */
  lemma ApproveFailure(task: AgentTask, e: Exc)
    ensures var a := Decide(task, Raise(e));
      !a.requeued
      && (IsValueError(e.kind) ==> a.reply == HttpError(400, e.msg) && a.stored.None?)
      && (!IsValueError(e.kind) ==>
            a.reply == HttpError(500, FailureMessage(task.id, e)) && a.stored.Some?
            && a.stored.value.status == Error && a.stored.value.errorMessage == Some(FailureMessage(task.id, e)))
  {
    if !IsValueError(e.kind) {
      MergeError(task, FailureMessage(task.id, e));
    }
  }

  /** Only odyssey tasks are queued to run again, and only when their
      update was stored. */
  lemma OnlyOdysseyRequeued(found: Option<AgentTask>, applied: Result<string>)
    ensures Approve(found, applied).requeued ==>
      found.Some? && found.value.pluginId == "odyssey_agent" && Approve(found, applied).reply.Body?
  {
  }

  /** The HTTPException for an unexpected odyssey phase is caught by the
      generic handler: the answer is 500, not the 400 it was raised with,
      and the task is left in ERROR. */
  lemma UnexpectedPhaseAnswers500(task: AgentTask, ms: Members)
    requires task.status == AwaitingReview && task.pluginId == "odyssey_agent"
    requires ApprovalContext(task.taskContextData) == Ok(JObj(ms))
    requires Lookup(ms, PhaseKey).GetOr(JNull) != JStr(PhaseName(PlanReviewPhase))
    requires Lookup(ms, PhaseKey).GetOr(JNull) != JStr(PhaseName(MilestoneReviewPhase))
    ensures var a := Approve(Some(task), Ok(""));
      a.reply.HttpError? && a.reply.code == 500 && a.stored.Some? && a.stored.value.status == Error
      && a.reply.detail == FailureMessage(task.id, Exc(HttpException(400), UnexpectedPhaseMessage(Lookup(ms, PhaseKey).GetOr(JNull))))
  {
    ApproveOtherPhase(ms);
    ApproveFailure(task, Exc(HttpException(400), UnexpectedPhaseMessage(Lookup(ms, PhaseKey).GetOr(JNull))));
  }

  /** `approve_and_process_agent_task`: the task store and the outbox end
      as `Approve` says. */
  method ApproveAndProcess(db: Db, notifier: NotificationService, taskId: int, applied: Result<string>)
    returns (reply: Reply<AgentTask>, requeued: bool)
    requires db.Valid()
    modifies db, notifier
    ensures db.Valid()
    ensures var a := Approve(old(db.GetAgentTask(taskId)), applied);
      reply == a.reply && requeued == a.requeued
      && db.tasks == (if a.stored.Some? then old(db.tasks)[taskId := a.stored.value] else old(db.tasks))
      && notifier.outbox == old(notifier.outbox) + (if a.stored.Some? then notifier.Mailed(a.stored.value) else [])
    ensures db.permissions == old(db.permissions) && db.trees == old(db.trees) && db.persons == old(db.persons)
    ensures db.families == old(db.families) && db.findings == old(db.findings)
  {
    var found := db.GetAgentTask(taskId);
    if found.None? {
      return HttpError(404, "Task not found"), false;
    }
    var task := found.value;
    if task.status != AwaitingReview {
      return HttpError(400, NotAwaitingMessage(task.status)), false;
    }
    var u := ApprovalUpdate(task, applied);
    if u.Raise? && IsValueError(u.exc.kind) {
      return HttpError(400, ExcText(u.exc)), false;
    }
    if u.Raise? {
      var message := FailureMessage(task.id, u.exc);
      ErrorUpdateFits(message);
      var failed := db.UpdateAgentTask(taskId, ErrorUpdate(message));
      notifier.NotifyTaskStatusChange(failed);
      return HttpError(500, message), false;
    }
    requeued := task.pluginId == "odyssey_agent";
    var updated := db.UpdateAgentTask(taskId, u.value);
    notifier.NotifyTaskStatusChange(updated);
    reply := Body(updated);
  }

  // ---------------------------------------------------------------------
  // The milestone index, approval and plugin together

  /** As written, the plan approval stores index 0 and the plugin then
      adds one before it runs a milestone, so the first milestone run is
      number 1: milestone 0 is skipped. */
  lemma PlanApprovalSkipsFirst(data: Members, plan: Members, items: seq<Json>)
    requires Lookup(plan, "milestones") == Some(JArr(items)) && |items| > 0
    ensures var ms := Planned(data, JObj(plan));
      Advance(ms).Ok? && MilestoneStart(Advance(ms).value.1) == Go(items, 1)
  {
    var ms := Planned(data, JObj(plan));
    ContextKeysDiffer();
    assert Lookup(ms, PhaseKey) == Some(JStr(PhaseName(PlanReviewPhase)));
    var ms' := Put(Put(ms, PhaseKey, JStr(PhaseName(MilestonePhase))), IndexKey, JInt(0));
    assert Advance(ms) == Ok((ExecutingMilestone, ms'));
    assert Lookup(ms', PlanKey) == Some(JObj(plan));
    StartAfter(ms', plan, items, 0);
  }

  /** As written, approving milestone `i` stores `i + 1` and the plugin
      adds one more: the next milestone run is `i + 2`. */
  lemma MilestoneApprovalSkipsOne(ms: Members, i: int, plan: Members, items: seq<Json>)
    requires Lookup(ms, PhaseKey) == Some(JStr(PhaseName(MilestoneReviewPhase)))
    requires Lookup(ms, IndexKey) == Some(JInt(i)) && 0 <= i < |items| - 1
    requires Lookup(ms, PlanKey) == Some(JObj(plan)) && Lookup(plan, "milestones") == Some(JArr(items))
    ensures Advance(ms).Ok? && MilestoneStart(Advance(ms).value.1) == Go(items, i + 2)
  {
    ApproveMilestone(ms, i, plan, items);
    var ms' := Advance(ms).value.1;
    assert Lookup(ms', PlanKey) == Some(JObj(plan));
  }

  /** A two-milestone plan: after the plan approval the plugin runs
      milestone 1 and reports it as the last, so milestone 0 never runs. */
  lemma TwoMilestonePlanSkipsFirst(data: Members, first: Json, second: Json)
    ensures var plan := [("milestones", JArr([first, second]))];
      var ms := Planned(data, JObj(plan));
      Advance(ms).Ok? && MilestoneStart(Advance(ms).value.1) == Go([first, second], 1)
      && !(1 < |[first, second]| - 1)
  {
    PlanApprovalSkipsFirst(data, [("milestones", JArr([first, second]))], [first, second]);
  }

  /** The approval with the index left to the plugin: the phase moves on
      as before, the index is not touched. */
  function AdvanceIntended(ms: Members): (r: Result<(TaskStatus, Members)>)
  {
    var phase := Lookup(ms, PhaseKey).GetOr(JNull);
    if phase == JStr(PhaseName(PlanReviewPhase)) then
      Ok((ExecutingMilestone, Put(ms, PhaseKey, JStr(PhaseName(MilestonePhase)))))
    else if phase == JStr(PhaseName(MilestoneReviewPhase)) then
      var idx := Lookup(ms, IndexKey).GetOr(JInt(-1));
      var milestones :- Get(Lookup(ms, PlanKey).GetOr(JObj([])), "milestones", JArr([]));
      var next :- NextIndex(idx, milestones);
      if next.Some? then Ok((ExecutingMilestone, Put(ms, PhaseKey, JStr(PhaseName(MilestonePhase)))))
      else Ok((Applied, Put(ms, PhaseKey, JStr(PhaseName(FinalizingPhase)))))
    else Raise(Exc(HttpException(400), UnexpectedPhaseMessage(phase)))
  }

  /** With the index left to the plugin, the first milestone run after
      the plan approval is milestone 0. */
  lemma PlanApprovalStartsAtFirst(data: Members, plan: Members, items: seq<Json>)
    requires Lookup(plan, "milestones") == Some(JArr(items)) && |items| > 0
    ensures var ms := Planned(data, JObj(plan));
      AdvanceIntended(ms).Ok? && MilestoneStart(AdvanceIntended(ms).value.1) == Go(items, 0)
  {
    var ms := Planned(data, JObj(plan));
    ContextKeysDiffer();
    assert Lookup(ms, PhaseKey) == Some(JStr(PhaseName(PlanReviewPhase)));
    var ms' := Put(ms, PhaseKey, JStr(PhaseName(MilestonePhase)));
    assert AdvanceIntended(ms) == Ok((ExecutingMilestone, ms'));
    assert Lookup(ms', PlanKey) == Some(JObj(plan)) && Lookup(ms', IndexKey) == Some(JInt(-1));
    StartAfter(ms', plan, items, -1);
  }

  /** With the index left to the plugin, approving milestone `i` runs
      milestone `i + 1` next, and the decision to finalise is as before. */
  lemma MilestoneApprovalRunsNext(ms: Members, i: int, plan: Members, items: seq<Json>)
    requires Lookup(ms, PhaseKey) == Some(JStr(PhaseName(MilestoneReviewPhase)))
    requires Lookup(ms, IndexKey) == Some(JInt(i))
    requires Lookup(ms, PlanKey) == Some(JObj(plan)) && Lookup(plan, "milestones") == Some(JArr(items))
    ensures AdvanceIntended(ms).Ok? && Advance(ms).Ok?
    ensures AdvanceIntended(ms).value.0 == Advance(ms).value.0
    ensures PhaseOf(CurrentPhase(AdvanceIntended(ms).value.1)) == PhaseOf(CurrentPhase(Advance(ms).value.1))
    ensures 0 <= i < |items| - 1 ==> MilestoneStart(AdvanceIntended(ms).value.1) == Go(items, i + 1)
  {
    MilestoneBranchIntended(ms, i, plan, items);
    ApproveMilestone(ms, i, plan, items);
    var next := if 0 <= i < |items| - 1 then MilestonePhase else FinalizingPhase;
    var ms' := Put(ms, PhaseKey, JStr(PhaseName(next)));
    StoredPhase(ms, next);
    if 0 <= i < |items| - 1 {
      ContextKeysDiffer();
      StartAfter(ms', plan, items, i);
    }
  }

  /** The reviewed-milestone branch of `AdvanceIntended`, written out. */
  lemma MilestoneBranchIntended(ms: Members, i: int, plan: Members, items: seq<Json>)
    requires Lookup(ms, PhaseKey) == Some(JStr(PhaseName(MilestoneReviewPhase)))
    requires Lookup(ms, IndexKey) == Some(JInt(i))
    requires Lookup(ms, PlanKey) == Some(JObj(plan)) && Lookup(plan, "milestones") == Some(JArr(items))
    ensures var goOn := 0 <= i < |items| - 1;
      AdvanceIntended(ms) == Ok((if goOn then ExecutingMilestone else Applied,
                                 Put(ms, PhaseKey, JStr(PhaseName(if goOn then MilestonePhase else FinalizingPhase)))))
  {
    ReviewNamesDiffer();
    assert Get(JObj(plan), "milestones", JArr([])) == Ok(JArr(items));
  }

  // ---------------------------------------------------------------------
  // Guards

  const DuplicatePathMessage := "Permission path already exists."

  /** No two permission rules share a path. */
  ghost predicate PathsUnique(ps: seq<AgentPermission>) {
    forall i, j :: 0 <= i < j < |ps| ==> ps[i].path != ps[j].path
  }

  /** `add_agent_permission`: an existing path answers 400 and stores
      nothing; otherwise the new rule is created. Rules added only
      through this endpoint keep their paths unique. */
  method AddAgentPermission(db: Db, path: string, comment: Option<string>)
    returns (reply: Reply<AgentPermission>)
    requires db.Valid()
    modifies db
    ensures db.Valid()
    ensures old(db.GetPermissionByPath(path)).Some? ==>
      reply == HttpError(400, DuplicatePathMessage) && db.permissions == old(db.permissions)
    ensures old(db.GetPermissionByPath(path)).None? ==>
      reply == Body(AgentPermission(old(db.nextId), path, comment)) && db.permissions == old(db.permissions) + [reply.value]
    ensures PathsUnique(old(db.permissions)) ==> PathsUnique(db.permissions)
    ensures db.tasks == old(db.tasks) && db.trees == old(db.trees) && db.persons == old(db.persons)
    ensures db.families == old(db.families) && db.findings == old(db.findings)
  {
    if db.GetPermissionByPath(path).Some? {
      return HttpError(400, DuplicatePathMessage);
    }
    var p := db.CreatePermission(path, comment);
    reply := Body(p);
  }

  const SelfDeleteMessage := "Admins cannot delete their own account."

  /** `delete_user_as_admin` on a user table keyed by id: an unknown id
      answers 404, the admin's own account 400, otherwise the user is
      removed. */
  function DeleteUser(users: map<int, User>, userId: int, current: User): (r: Reply<map<int, User>>)
    ensures r.Body? <==> userId in users && users[userId].id != current.id
    ensures r.Body? ==> r.value == users - {userId}
    ensures userId !in users ==> r == HttpError(404, "User not found.")
    ensures userId in users && users[userId].id == current.id ==> r == HttpError(400, SelfDeleteMessage)
  {
    if userId !in users then HttpError(404, "User not found.")
    else if users[userId].id == current.id then HttpError(400, SelfDeleteMessage)
    else Body(users - {userId})
  }

  /** The body FastAPI answers an uncaught exception with, status 500. */
  const InternalServerErrorMessage := "Internal Server Error"

  /** `delete_user_as_admin` as written: the `crud` module defines no
      `delete_user`, so once both guards pass the call raises
      AttributeError, which reaches FastAPI as a 500; nothing is deleted. */
  function DeleteUserAsWritten(users: map<int, User>, userId: int, current: User): (r: Reply<map<int, User>>)
    ensures r.HttpError?
    ensures r.code == 500 <==> userId in users && users[userId].id != current.id
    ensures userId !in users ==> r == DeleteUser(users, userId, current)
  {
    if userId !in users then HttpError(404, "User not found.")
    else if users[userId].id == current.id then HttpError(400, SelfDeleteMessage)
    else HttpError(500, InternalServerErrorMessage)
  }

  /** Every deletion the guards let through fails as written, where the
      intended endpoint removes the user. */
  lemma DeleteUserAsWrittenFails(users: map<int, User>, userId: int, current: User)
    requires userId in users && users[userId].id != current.id
    ensures DeleteUserAsWritten(users, userId, current) == HttpError(500, InternalServerErrorMessage)
    ensures DeleteUser(users, userId, current) == Body(users - {userId})
  {
  }

  /** In a table whose records carry their own key, an admin's account
      survives every deletion the admin makes. */
  lemma AdminKeepsOwnAccount(users: map<int, User>, userId: int, current: User)
    requires forall k :: k in users ==> users[k].id == k
    requires current.id in users
    ensures DeleteUser(users, userId, current).Body? ==> current.id in DeleteUser(users, userId, current).value
  {
  }
}
