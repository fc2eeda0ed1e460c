/** The odyssey plugin (backend/app/plugins/odyssey_plugin.py): a milestone
    state machine whose state is a JSON dict kept in the task's
    `task_context_data`. The plugin instance holds the task and the loaded
    dict, and each call of `execute` moves the dict on by one phase.

    The statuses the plugin names are looked up in an enumeration given as
    `statuses`: `DeclaredStatuses` is the enumeration as declared, where
    `TaskStatus.IN_PROGRESS` and `TaskStatus.COMPLETED` raise
    AttributeError; `CompletedStatuses` adds the two members. */
module Odyssey {
  import opened Wrappers
  import opened Text
  import opened Dicts
  import opened Json
  import opened Models

  // ---------------------------------------------------------------------
  // Phases

  datatype Phase =
    | PlanningPhase | PlanReviewPhase | MilestonePhase
    | MilestoneReviewPhase | FinalizingPhase | CompletedPhase

  function PhaseName(p: Phase): string {
    match p
    case PlanningPhase => "PLANNING"
    case PlanReviewPhase => "AWAITING_PLAN_REVIEW"
    case MilestonePhase => "EXECUTING_MILESTONE"
    case MilestoneReviewPhase => "AWAITING_MILESTONE_REVIEW"
    case FinalizingPhase => "FINALIZING"
    case CompletedPhase => "COMPLETED"
  }

  /** The phase a stored `current_phase` value names, if any: `==` against
      the phase strings. */
  function PhaseOf(j: Json): (r: Option<Phase>)
    ensures r.Some? ==> j == JStr(PhaseName(r.value))
  {
    if j == JStr("PLANNING") then Some(PlanningPhase)
    else if j == JStr("AWAITING_PLAN_REVIEW") then Some(PlanReviewPhase)
    else if j == JStr("EXECUTING_MILESTONE") then Some(MilestonePhase)
    else if j == JStr("AWAITING_MILESTONE_REVIEW") then Some(MilestoneReviewPhase)
    else if j == JStr("FINALIZING") then Some(FinalizingPhase)
    else if j == JStr("COMPLETED") then Some(CompletedPhase)
    else None
  }

  /** Storing a phase's name and reading it back gives the phase. */
  lemma PhaseOfName(p: Phase)
    ensures PhaseOf(JStr(PhaseName(p))) == Some(p)
  {
  }

  // ---------------------------------------------------------------------
  // The context dict

  const PhaseKey := "current_phase"
  const IndexKey := "current_milestone_index"
  const PlanKey := "plan"

  /** `{"current_phase": "PLANNING"}`. */
  const FreshContext: Members := [(PhaseKey, JStr("PLANNING"))]

  /** `_load_task_context_data`: an absent, empty or unparsable context
      starts at PLANNING; otherwise what `json.loads` gave is completed. */
  function Load(text: Option<string>): (r: Result<Members>)
    ensures r.Ok? ==> Lookup(r.value, PhaseKey).Some?
  {
    if text.None? || text.value == "" then Ok(FreshContext)
    else Loaded(Decode(text.value))
  }

  /** A parsed dict gets PLANNING only when it names no phase; a parsed
      value that is not a dict cannot be indexed by a string, which
      raises. */
  function Loaded(parsed: Option<Json>): (r: Result<Members>)
    ensures r.Ok? ==> Lookup(r.value, PhaseKey).Some?
  {
    match parsed
    case None => Ok(FreshContext)
    case Some(j) =>
      var present :- In(PhaseKey, j);
      match j
      case JObj(ms) => Ok(if present then ms else Put(ms, PhaseKey, JStr("PLANNING")))
      case JArr(_) => Raise(Exc(TypeError, "list indices must be integers or slices, not str"))
      case JStr(_) =>
        if present then Raise(Exc(TypeError, "string indices must be integers, not 'str'"))
        else Raise(Exc(TypeError, "'str' object does not support item assignment"))
      case _ => Raise(Exc(TypeError, "argument of type '" + TypeName(j) + "' is not iterable"))
  }

  /** `_get_serialized_task_context_data`: `json.dumps` of the dict. */
  function Serialised(data: Members): string {
    Print(JObj(data))
  }

  /** The defaults of loading: nothing parsed gives PLANNING, a dict
      naming no phase gets PLANNING appended, any other dict is kept; a
      value that is not a dict raises TypeError. */
  lemma LoadDefaults(parsed: Option<Json>)
    ensures parsed.None? ==> Loaded(parsed) == Ok(FreshContext)
    ensures parsed.Some? && parsed.value.JObj? ==>
      var ms := parsed.value.members;
      Loaded(parsed) == Ok(if Lookup(ms, PhaseKey).Some? then ms else ms + [(PhaseKey, JStr("PLANNING"))])
    ensures parsed.Some? && !parsed.value.JObj? ==> Loaded(parsed).Raise? && Loaded(parsed).exc.kind == TypeError
  {
    if parsed.Some? && parsed.value.JObj? {
      var ms := parsed.value.members;
      if Lookup(ms, PhaseKey).None? {
        PutNewKey(ms, PhaseKey, JStr("PLANNING"));
      }
    }
  }

  /** The round trip: loading what was serialised gives back the same
      dict. */
  lemma LoadSerialised(data: Members)
    requires WellFormed(JObj(data)) && Lookup(data, PhaseKey).Some?
    ensures Load(Some(Serialised(data))) == Ok(data)
  {
    DecodePrint(JObj(data));
    assert Serialised(data)[0] == '{';
    assert Load(Some(Serialised(data))) == Loaded(Some(JObj(data)));
  }

  /** Setting a key keeps a dict's keys unique. */
  lemma {:induction false} PutUnique(m: Members, k: string, v: Json)
    requires UniqueKeys(m)
    ensures UniqueKeys(Put(m, k, v))
  {
    if |m| > 0 && m[0].0 != k {
      PutUnique(m[1..], k, v);
      var r := Put(m, k, v);
      assert r == [m[0]] + Put(m[1..], k, v);
      forall i, j | 0 <= i < j < |r|
        ensures r[i].0 != r[j].0
      {
        if i == 0 {
          FirstKeyNotInTail(m);
          assert Lookup(Put(m[1..], k, v), m[0].0) == None;
          assert r[j] == Put(m[1..], k, v)[j - 1];
          LookupNone(Put(m[1..], k, v), m[0].0, j - 1);
        } else {
          assert r[i] == Put(m[1..], k, v)[i - 1] && r[j] == Put(m[1..], k, v)[j - 1];
        }
      }
    } else if |m| > 0 {
      var r := Put(m, k, v);
      forall i, j | 0 <= i < j < |r|
        ensures r[i].0 != r[j].0
      {
        assert r[i].0 == m[i].0 && r[j].0 == m[j].0;
      }
    }
  }

  lemma LookupNone(m: Members, k: string, i: nat)
    requires Lookup(m, k) == None && i < |m|
    ensures m[i].0 != k
  {
  }

  /** The phase `execute` dispatches on. */
  function CurrentPhase(data: Members): Json {
    Lookup(data, PhaseKey).GetOr(JStr("PLANNING"))
  }

  /** A phase stored in the dict is the phase `execute` dispatches on. */
  lemma StoredPhase(data: Members, p: Phase)
    ensures PhaseOf(CurrentPhase(Put(data, PhaseKey, JStr(PhaseName(p))))) == Some(p)
  {
    PhaseOfName(p);
  }

  // ---------------------------------------------------------------------
  // Python operations the phases apply

  /** `x += 1` on a stored value: ints and bools add, others raise. */
  function AddOne(j: Json): (r: Result<int>)
    ensures j.JInt? ==> r == Ok(j.i + 1)
  {
    match j
    case JInt(i) => Ok(i + 1)
    case JBool(b) => Ok(if b then 2 else 1)
    case JStr(_) => Raise(Exc(TypeError, "can only concatenate str (not \"int\") to str"))
    case JArr(_) => Raise(Exc(TypeError, "can only concatenate list (not \"int\") to list"))
    case _ => Raise(Exc(TypeError, "unsupported operand type(s) for +=: '" + TypeName(j) + "' and 'int'"))
  }

  /** `items[i]`, negative positions counting from the end. */
  function PyIndex(items: seq<Json>, i: int): (r: Result<Json>)
    ensures 0 <= i < |items| ==> r == Ok(items[i])
    ensures r.Raise? <==> !(-|items| <= i < |items|)
  {
    if 0 <= i < |items| then Ok(items[i])
    else if -|items| <= i < 0 then Ok(items[|items| + i])
    else Raise(Exc(IndexError, "list index out of range"))
  }

  /** `j[0]` on a truthy value. */
  function First(j: Json): Result<Json>
    requires Truthy(j)
  {
    match j
    case JArr(items) => Ok(items[0])
    case JStr(s) => Ok(JStr([s[0]]))
    case JObj(_) => Raise(Exc(KeyError, "0"))
    case _ => Raise(Exc(TypeError, "'" + TypeName(j) + "' object is not subscriptable"))
  }

  // ---------------------------------------------------------------------
  // The phases, as functions of the dict

  /** What a call leaves: its result, the plugin's dict and the task's
      in-memory status. */
  datatype Outcome = Outcome(result: Result<Update>, data: Members, status: TaskStatus)

  const MalformedPlan := "Malformed plan structure."
  const PlanningErrorPrefix := "LLM error during planning phase or malformed plan received: "
  const MissingPlanMessage := "Missing or invalid plan for milestone execution."
  const AllExecutedMessage := "All milestones executed. Proceeding to finalization."
  const FinalizedMessage := "Task finalization complete. All milestones processed."
  const AlreadyCompletedMessage := "This task has already been completed."
  const ReviewRequest := "Please review this plan. If you approve, I will begin with the first milestone."

  const PlanHeading := "## Proposed Plan: "
  const SummaryHeading := "\n\n**Summary:**\n"
  const QuestionsHeading := "**Clarifying Questions:**\n"
  const MilestonesHeading := "**Milestones:**\n"
  const ExecutionHeading := "**Milestone Execution: "
  const DescriptionLabel := "Description: "
  const ToolLabel := "Tool Used (Simulated): "
  const NoToolsNote := "No specific tools listed for this milestone; "
                       + "general processing simulated.\n"
  const ReviewNote := "' execution simulated. The results are now "
                      + "ready for your review. Next up: '"
  const FinalNote := "' (final milestone) execution simulated. "
                     + "Proceeding to finalization."

  /** The update a phase returns: status, explanation and the serialised
      dict. */
  function PhaseUpdate(status: TaskStatus, explanation: string, data: Members): Update {
    [("status", VStatus(status)), ("llm_explanation", VStr(explanation)),
     ("task_context_data", VStr(Serialised(data)))]
  }

  /** What the phase update carries under each of its keys. */
  lemma PhaseUpdateKeys(status: TaskStatus, explanation: string, data: Members)
    ensures var u := PhaseUpdate(status, explanation, data);
      u[0] == ("status", VStatus(status))
      && Lookup(u, "llm_explanation") == Some(VStr(explanation))
      && Lookup(u, "task_context_data") == Some(VStr(Serialised(data)))
  {
    var u := PhaseUpdate(status, explanation, data);
    assert u[0].0 != u[1].0 && u[0].0 != u[2].0 && u[1].0 != u[2].0;
    LookupAt(u, 1);
    LookupAt(u, 2);
  }

  /** The explanation of a milestone followed by the next one. */
  function ReviewText(report: (string, string), nextName: string): string {
    report.1 + "\nMilestone '" + report.0 + ReviewNote + nextName + "'."
  }

  /** The explanation of the last milestone. */
  function FinalText(report: (string, string)): string {
    report.1 + "\nMilestone '" + report.0 + FinalNote
  }

  /** The summary line of milestone number `n`. */
  function MilestoneLine(n: nat, m: Json): Result<string> {
    var name :- Get(m, "name", JStr("N/A"));
    var desc :- Get(m, "description", JStr("N/A"));
    Ok("  " + IntToString(n) + ". **" + Display(name) + "**\n     *Desc:* " + Display(desc) + "\n\n")
  }

  /** The summary lines of the milestones, numbered from `from + 1`. */
  function MilestoneLines(ms: seq<Json>, from: nat): Result<string>
    decreases |ms|
  {
    if |ms| == 0 then Ok("")
    else
      var line :- MilestoneLine(from + 1, ms[0]);
      var rest :- MilestoneLines(ms[1..], from + 1);
      Ok(line + rest)
  }

  /** The lines can be written only when every milestone is a dict. */
  lemma {:induction false} MilestoneLinesOk(ms: seq<Json>, from: nat)
    ensures MilestoneLines(ms, from).Ok? <==> forall i :: 0 <= i < |ms| ==> ms[i].JObj?
    ensures MilestoneLines(ms, from).Raise? ==> MilestoneLines(ms, from).exc.kind == AttributeError
    decreases |ms|
  {
    if |ms| > 0 {
      MilestoneLinesOk(ms[1..], from + 1);
      assert forall i :: 1 <= i < |ms| ==> ms[i] == ms[1..][i - 1];
    }
  }

  function Bullets(qs: seq<Json>): seq<string> {
    seq(|qs|, i requires 0 <= i < |qs| => "- " + Display(qs[i]))
  }

  /** The plan summary shown to the administrator. */
  function PlanSummary(plan: Json, milestones: seq<Json>): Result<string> {
    var title :- Get(plan, "project_title", JStr("New Project"));
    var overall :- Get(plan, "overall_summary", JStr("N/A"));
    var questions :- Get(plan, "clarifying_questions", JNull);
    var asked :-
      if Truthy(questions) then
        var qs :- Iterate(questions);
        Ok(QuestionsHeading + JoinWith(Bullets(qs), "\n") + "\n\n")
      else Ok("");
    var lines :- MilestoneLines(milestones, 0);
    Ok(PlanHeading + Display(title) + SummaryHeading + Display(overall) + "\n\n"
       + asked + MilestonesHeading + lines + ReviewRequest)
  }

  /** The dict once a plan is accepted for review. */
  function Planned(data: Members, plan: Json): Members {
    Put(Put(Put(data, PlanKey, plan), IndexKey, JInt(-1)), PhaseKey, JStr(PhaseName(PlanReviewPhase)))
  }

  /** `_phase_planning`, given what `generate_json` returned for the
      planning prompt. */
  function PlanningOutcome(data: Members, status: TaskStatus, response: Result<Json>): Outcome {
    if response.Raise? then Outcome(Raise(response.exc), data, status)
    else
      var plan := response.value;
      var failed := In("error", plan);
      if failed.Raise? then Outcome(Raise(failed.exc), data, status)
      else if failed.value then
        var err := Get(plan, "error", JStr(MalformedPlan));
        if err.Raise? then Outcome(Raise(err.exc), data, status)
        else Outcome(Ok(ErrorUpdate(PlanningErrorPrefix + Display(err.value))), data, status)
      else
        var ms := Get(plan, "milestones", JNull);
        if ms.Raise? then Outcome(Raise(ms.exc), data, status)
        else if !ms.value.JArr? then
          // `plan` is a dict without "error", so `.get` gives the default
          Outcome(Ok(ErrorUpdate(PlanningErrorPrefix + MalformedPlan)), data, status)
        else PlanAccepted(data, status, plan, ms.value.items)
  }

  /** A well-formed plan: stored, then summarised. */
  function PlanAccepted(data: Members, status: TaskStatus, plan: Json, milestones: seq<Json>): Outcome {
    var data' := Planned(data, plan);
    var summary := PlanSummary(plan, milestones);
    if summary.Raise? then Outcome(Raise(summary.exc), data', status)
    else Outcome(Ok(PhaseUpdate(AwaitingReview, summary.value, data')), data', status)
  }

  /** The explanation of an executed milestone, up to the next-phase
      sentence. */
  function MilestoneReport(m: Json, index: int): Result<(string, string)> {
    var name :- Get(m, "name", JStr("Milestone " + IntToString(index + 1)));
    var desc :- Get(m, "description", JStr("N/A"));
    var tools :- Get(m, "potential_tools", JArr([]));
    var head := ExecutionHeading + Display(name) + "**\n\n" + DescriptionLabel + Display(desc) + "\n";
    var used :-
      if Truthy(tools) then
        var tool :- First(tools);
        Ok(ToolLabel + Display(tool) + "\n")
      else Ok(NoToolsNote);
    Ok((Display(name), head + used))
  }

  /** `_phase_execute_milestone`: the index moves on by one and is stored
      first; past the end the plugin finalises, before the last milestone
      it waits for review, on the last one it finalises. `inProgress` is
      the IN_PROGRESS member `execute` has already looked up and set as the
      task's status; the phase names it again for its own update. */
  function MilestoneOutcome(data: Members, inProgress: TaskStatus): Outcome {
    match MilestoneStart(data)
    case Stop(result) => Outcome(result, data, inProgress)
    case Go(ms, i) => MilestoneAt(Put(data, IndexKey, JInt(i)), inProgress, ms, i)
  }

  /** How `_phase_execute_milestone` begins: either it stops with the dict
      untouched, or it goes on with the milestones and the next index. */
  datatype Start = Stop(result: Result<Update>) | Go(milestones: seq<Json>, index: int)

  /** The plan check and the index increment. */
  function MilestoneStart(data: Members): (r: Start)
    ensures r.Go? ==> |r.milestones| > 0
  {
    var ms := PlanMilestones(Lookup(data, PlanKey).GetOr(JNull));
    if ms.Raise? then Stop(Raise(ms.exc))
    else if |ms.value| == 0 then Stop(Ok(ErrorUpdate(MissingPlanMessage)))
    else
      var index := AddOne(Lookup(data, IndexKey).GetOr(JInt(-1)));
      if index.Raise? then Stop(Raise(index.exc))
      else Go(ms.value, index.value)
  }

  /** The milestones of a stored plan; an empty list when the plan is
      falsy or its "milestones" entry is not a list. A truthy plan that is
      not a dict raises on `.get`. */
  function PlanMilestones(plan: Json): (r: Result<seq<Json>>)
    ensures plan.JObj? ==> r.Ok?
    ensures plan.JObj? && Lookup(plan.members, "milestones").Some? && Lookup(plan.members, "milestones").value.JArr?
            ==> r == Ok(Lookup(plan.members, "milestones").value.items)
    ensures plan.JObj? && (Lookup(plan.members, "milestones").None? || !Lookup(plan.members, "milestones").value.JArr?)
            ==> r == Ok([])
    ensures Truthy(plan) && !plan.JObj? ==> r.Raise? && r.exc.kind == AttributeError
  {
    if !Truthy(plan) then Ok([])
    else
      var ms :- Get(plan, "milestones", JNull);
      if ms.JArr? then Ok(ms.items) else Ok([])
  }

  /** The milestone step once the new index `i` is stored in `data1`:
      the explanation decides nothing but the text and the failures. */
  function MilestoneAt(data1: Members, inProgress: TaskStatus, milestones: seq<Json>, i: int): Outcome {
    MilestoneRun(data1, inProgress, |milestones|, i, MilestoneText(milestones, i))
  }

  /** Where the step leaves the dict and what it returns, given the
      explanation (or the error raised while composing it). */
  function MilestoneRun(data1: Members, inProgress: TaskStatus, count: nat, i: int, text: Result<string>): Outcome {
    if text.Raise? then Outcome(Raise(text.exc), data1, inProgress)
    else if i < count - 1 then
      var data2 := Put(data1, PhaseKey, JStr(PhaseName(MilestoneReviewPhase)));
      Outcome(Ok(PhaseUpdate(AwaitingReview, text.value, data2)), data2, inProgress)
    else
      var data2 := Put(data1, PhaseKey, JStr(PhaseName(FinalizingPhase)));
      Outcome(Ok(PhaseUpdate(inProgress, text.value, data2)), data2, inProgress)
  }

  /** The explanation of milestone `i`: past the end a fixed sentence,
      otherwise the report followed by what comes next. */
  function MilestoneText(milestones: seq<Json>, i: int): (r: Result<string>)
    ensures i >= |milestones| ==> r == Ok(AllExecutedMessage)
  {
    if i >= |milestones| then Ok(AllExecutedMessage)
    else
      var m :- PyIndex(milestones, i);
      var report :- MilestoneReport(m, i);
      if i < |milestones| - 1 then
        var nextName :- Get(PyIndex(milestones, i + 1).value, "name", JStr("Milestone " + IntToString(i + 2)));
        Ok(ReviewText(report, Display(nextName)))
      else Ok(FinalText(report))
  }

  /** `execute`: the phase dispatch. The two members it names are looked
      up in `statuses`; the planning and milestone phases run their own
      steps. */
  function ExecuteOutcome(statuses: seq<TaskStatus>, data: Members, status: TaskStatus, response: Result<Json>): Outcome {
    var inProgress := StatusAttr(statuses, "IN_PROGRESS");
    PhaseStep(inProgress, StatusAttr(statuses, "COMPLETED"), PhaseOf(CurrentPhase(data)), data, status,
              PlanningOutcome(data, Planning, response),
              if inProgress.Ok? then MilestoneOutcome(data, inProgress.value) else Outcome(Raise(inProgress.exc), data, status))
  }

  /** What `execute` does in the given phase (`None` for a stored value
      that names none of them), given what `TaskStatus.IN_PROGRESS` and
      `TaskStatus.COMPLETED` evaluate to and what the planning and the
      milestone step come to. */
  function PhaseStep(inProgress: Result<TaskStatus>, completed: Result<TaskStatus>, phase: Option<Phase>,
                     data: Members, status: TaskStatus, planned: Outcome, stepped: Outcome): Outcome
  {
    match phase
    case Some(PlanningPhase) => planned
    case Some(MilestonePhase) =>
      if inProgress.Raise? then Outcome(Raise(inProgress.exc), data, status) else stepped
    case Some(PlanReviewPhase) => Outcome(Ok([]), data, status)
    case Some(MilestoneReviewPhase) => Outcome(Ok([]), data, status)
    case Some(FinalizingPhase) =>
      var data' := Put(data, PhaseKey, JStr(PhaseName(CompletedPhase)));
      if completed.Raise? then Outcome(Raise(completed.exc), data', status)
      else Outcome(Ok(PhaseUpdate(completed.value, FinalizedMessage, data')), data', completed.value)
    case Some(CompletedPhase) =>
      if completed.Raise? then Outcome(Raise(completed.exc), data, status)
      else Outcome(Ok(PhaseUpdate(completed.value, AlreadyCompletedMessage, data)), data, status)
    case None => Outcome(Ok(ErrorUpdate("Unhandled plugin phase: " + Display(CurrentPhase(data)))), data, status)
  }

  // ---------------------------------------------------------------------
  // What the phases promise

  /** A failed or malformed plan gives ERROR, stores nothing and does not
      put the context in the update. */
  lemma PlanningFailure(data: Members, status: TaskStatus, plan: Json)
    requires plan.JObj?
    requires Lookup(plan.members, "error").Some? || Lookup(plan.members, "milestones").None?
             || !Lookup(plan.members, "milestones").value.JArr?
    ensures var o := PlanningOutcome(data, status, Ok(plan));
      o.data == data && o.result.Ok? && o.result.value[0] == ("status", VStatus(Error))
      && Lookup(o.result.value, "task_context_data").None?
  {
  }

  /** A plan whose milestones are a list is stored with index -1 and phase
      AWAITING_PLAN_REVIEW; the update asks for review and carries the
      serialised dict. */
  lemma PlanningSuccess(data: Members, status: TaskStatus, plan: Json)
    requires plan.JObj? && Lookup(plan.members, "error").None?
    requires Lookup(plan.members, "milestones").Some? && Lookup(plan.members, "milestones").value.JArr?
    ensures var o := PlanningOutcome(data, status, Ok(plan));
      && Lookup(o.data, PlanKey) == Some(plan)
      && Lookup(o.data, IndexKey) == Some(JInt(-1))
      && PhaseOf(CurrentPhase(o.data)) == Some(PlanReviewPhase)
      && (o.result.Ok? ==> o.result.value[0] == ("status", VStatus(AwaitingReview))
                           && Lookup(o.result.value, "task_context_data") == Some(VStr(Serialised(o.data))))
  {
    var items := Lookup(plan.members, "milestones").value.items;
    assert PlanningOutcome(data, status, Ok(plan)) == PlanAccepted(data, status, plan, items);
    PlannedKeys(data, plan);
    var summary := PlanSummary(plan, items);
    if summary.Ok? {
      PhaseUpdateKeys(AwaitingReview, summary.value, Planned(data, plan));
    }
  }

  lemma PlannedKeys(data: Members, plan: Json)
    ensures var d := Planned(data, plan);
      Lookup(d, PlanKey) == Some(plan) && Lookup(d, IndexKey) == Some(JInt(-1))
      && CurrentPhase(d) == JStr(PhaseName(PlanReviewPhase))
  {
  }

  /** While a review is pending, `execute` returns `{}` and changes
      nothing. */
  lemma ReviewPhasesIdle(inProgress: Result<TaskStatus>, completed: Result<TaskStatus>, phase: Option<Phase>,
                         data: Members, status: TaskStatus, planned: Outcome, stepped: Outcome)
    requires phase == Some(PlanReviewPhase) || phase == Some(MilestoneReviewPhase)
    ensures PhaseStep(inProgress, completed, phase, data, status, planned, stepped) == Outcome(Ok([]), data, status)
  {
  }

  /** A falsy plan, or one without a list of milestones, gives ERROR and
      leaves the dict as it was; a stored list goes on with the stored
      index plus one (-1 when none is stored). */
  lemma MilestoneStartCases(data: Members)
    ensures PlanMilestones(Lookup(data, PlanKey).GetOr(JNull)) == Ok([]) ==>
      MilestoneStart(data) == Stop(Ok(ErrorUpdate(MissingPlanMessage)))
    ensures var ms := PlanMilestones(Lookup(data, PlanKey).GetOr(JNull));
      var index := Lookup(data, IndexKey).GetOr(JInt(-1));
      ms.Ok? && |ms.value| > 0 && index.JInt? ==> MilestoneStart(data) == Go(ms.value, index.i + 1)
  {
  }

  /** Once the milestone step goes on, the stored index is the new one,
      whatever happens next, and the task keeps the IN_PROGRESS status. */
  lemma MilestoneIndexStored(data: Members, inProgress: TaskStatus)
    ensures var o := MilestoneOutcome(data, inProgress);
      o.status == inProgress
      && (MilestoneStart(data).Stop? ==> o.data == data)
      && (MilestoneStart(data).Go? ==> Lookup(o.data, IndexKey) == Some(JInt(MilestoneStart(data).index)))
  {
    var start := MilestoneStart(data);
    if start.Go? {
      var data1 := Put(data, IndexKey, JInt(start.index));
      MilestoneData(data1, inProgress, |start.milestones|, start.index, MilestoneText(start.milestones, start.index));
    }
  }

  /** A milestone step stores at most the phase on top of `data1`, and
      keeps the status it was given. */
  lemma MilestoneData(data1: Members, inProgress: TaskStatus, count: nat, i: int, text: Result<string>)
    ensures var o := MilestoneRun(data1, inProgress, count, i, text);
      o.status == inProgress
      && (o.data == data1 || o.data == Put(data1, PhaseKey, JStr(PhaseName(FinalizingPhase)))
          || o.data == Put(data1, PhaseKey, JStr(PhaseName(MilestoneReviewPhase))))
  {
  }

  /** Where a milestone leaves the machine: past the end and on the last
      milestone it finalises with the IN_PROGRESS status, before the last
      one it waits for review; it never stays in EXECUTING_MILESTONE. */
  lemma MilestoneNextPhase(data1: Members, inProgress: TaskStatus, count: nat, i: int, text: Result<string>)
    ensures var o := MilestoneRun(data1, inProgress, count, i, text);
      o.result.Ok? <==> text.Ok?
    ensures var o := MilestoneRun(data1, inProgress, count, i, text);
      text.Ok? && i >= count - 1 ==>
        (o.data == Put(data1, PhaseKey, JStr(PhaseName(FinalizingPhase)))
         && o.result.value[0] == ("status", VStatus(inProgress)))
    ensures var o := MilestoneRun(data1, inProgress, count, i, text);
      text.Ok? && i < count - 1 ==>
        (o.data == Put(data1, PhaseKey, JStr(PhaseName(MilestoneReviewPhase)))
         && o.result.value[0] == ("status", VStatus(AwaitingReview)))
  {
  }

  /** EXECUTING_MILESTONE runs the milestone step with the IN_PROGRESS
      status, or raises before anything changes when the member is
      missing. */
  lemma MilestonePhaseRuns(statuses: seq<TaskStatus>, data: Members, status: TaskStatus, response: Result<Json>)
    requires PhaseOf(CurrentPhase(data)) == Some(MilestonePhase)
    ensures var inProgress := StatusAttr(statuses, "IN_PROGRESS");
      var o := ExecuteOutcome(statuses, data, status, response);
      (inProgress.Raise? ==> o.result == Raise(inProgress.exc) && o.data == data && o.status == status)
      && (inProgress.Ok? ==> o == MilestoneOutcome(data, inProgress.value) && o.status == inProgress.value)
  {
    var inProgress := StatusAttr(statuses, "IN_PROGRESS");
    if inProgress.Ok? {
      MilestoneIndexStored(data, inProgress.value);
    }
  }

  /** FINALIZING moves to COMPLETED: the dict names the COMPLETED phase and
      the task takes the COMPLETED status, which the update repeats; when
      the member is missing the phase is stored all the same and the call
      raises. */
  lemma FinalizingCompletes(inProgress: Result<TaskStatus>, completed: Result<TaskStatus>, data: Members,
                            status: TaskStatus, planned: Outcome, stepped: Outcome)
    ensures var o := PhaseStep(inProgress, completed, Some(FinalizingPhase), data, status, planned, stepped);
      o.data == Put(data, PhaseKey, JStr(PhaseName(CompletedPhase)))
      && PhaseOf(CurrentPhase(o.data)) == Some(CompletedPhase)
      && (completed.Ok? ==> o.result.Ok? && o.status == completed.value
                            && o.result.value[0] == ("status", VStatus(completed.value)))
      && (completed.Raise? ==> o.result == Raise(completed.exc) && o.status == status)
  {
    StoredPhase(data, CompletedPhase);
  }

  /** COMPLETED is final: the dict and the task's status stay as they are,
      and the update reports COMPLETED again. */
  lemma CompletedStays(inProgress: Result<TaskStatus>, completed: Result<TaskStatus>, data: Members,
                       status: TaskStatus, planned: Outcome, stepped: Outcome)
    ensures var o := PhaseStep(inProgress, completed, Some(CompletedPhase), data, status, planned, stepped);
      o.data == data && o.status == status
      && (completed.Ok? ==> o.result.Ok? && o.result.value[0] == ("status", VStatus(completed.value)))
      && (completed.Raise? ==> o.result == Raise(completed.exc))
  {
  }

  /** A stored phase outside the six gives ERROR naming it, and nothing
      changes. */
  lemma UnhandledPhase(inProgress: Result<TaskStatus>, completed: Result<TaskStatus>, data: Members,
                       status: TaskStatus, planned: Outcome, stepped: Outcome)
    ensures PhaseStep(inProgress, completed, None, data, status, planned, stepped)
            == Outcome(Ok(ErrorUpdate("Unhandled plugin phase: " + Display(CurrentPhase(data)))), data, status)
  {
  }

  /** As the enumeration is declared, both members `execute` names are
      missing: EXECUTING_MILESTONE, FINALIZING and COMPLETED raise
      AttributeError and leave the task's status alone, so no task reaches
      COMPLETED. */
  lemma DeclaredStatusesStall(data: Members, status: TaskStatus, response: Result<Json>)
    ensures var p := PhaseOf(CurrentPhase(data));
      var o := ExecuteOutcome(DeclaredStatuses, data, status, response);
      p == Some(MilestonePhase) || p == Some(FinalizingPhase) || p == Some(CompletedPhase) ==>
        o.result.Raise? && o.result.exc.kind == AttributeError && o.status == status
  {
    DeclaredStatusNames(DeclaredStatuses);
    var inProgress := StatusAttr(DeclaredStatuses, "IN_PROGRESS");
    var completed := StatusAttr(DeclaredStatuses, "COMPLETED");
    var planned := PlanningOutcome(data, Planning, response);
    var stepped := Outcome(Raise(inProgress.exc), data, status);
    FinalizingCompletes(inProgress, completed, data, status, planned, stepped);
    CompletedStays(inProgress, completed, data, status, planned, stepped);
  }

  /** With the two members added, EXECUTING_MILESTONE runs under
      IN_PROGRESS. */
  lemma CompletedStatusesRun(data: Members, status: TaskStatus, response: Result<Json>)
    requires PhaseOf(CurrentPhase(data)) == Some(MilestonePhase)
    ensures ExecuteOutcome(CompletedStatuses, data, status, response).status == InProgress
  {
    CompletedStatusNames(CompletedStatuses);
    MilestoneIndexStored(data, InProgress);
  }

  /** With the two members added, FINALIZING completes the task. */
  lemma CompletedStatusesFinish(data: Members, status: TaskStatus, response: Result<Json>)
    requires PhaseOf(CurrentPhase(data)) == Some(FinalizingPhase)
    ensures var o := ExecuteOutcome(CompletedStatuses, data, status, response);
      o.result.Ok? && o.status == Completed && PhaseOf(CurrentPhase(o.data)) == Some(CompletedPhase)
  {
    CompletedStatusNames(CompletedStatuses);
    var inProgress := StatusAttr(CompletedStatuses, "IN_PROGRESS");
    var completed := StatusAttr(CompletedStatuses, "COMPLETED");
    FinalizingCompletes(inProgress, completed, data, status,
                        PlanningOutcome(data, Planning, response), MilestoneOutcome(data, InProgress));
  }

  // ---------------------------------------------------------------------
  // The plugin object

  /** The summary lines, appended one milestone at a time as the `for`
      loop of `_phase_planning` does. */
  method SummaryLines(ms: seq<Json>) returns (r: Result<string>)
    ensures r == MilestoneLines(ms, 0)
  {
    var text := "";
    var i := 0;
    assert ms[0..] == ms;
    assert MilestoneLines(ms, 0).Ok? ==> "" + MilestoneLines(ms, 0).value == MilestoneLines(ms, 0).value;
    while i < |ms|
      invariant 0 <= i <= |ms|
      invariant MilestoneLines(ms, 0) == (var rest := MilestoneLines(ms[i..], i);
                                          if rest.Raise? then rest else Ok(text + rest.value))
    {
      assert ms[i..][1..] == ms[i + 1..];
      var line := MilestoneLine(i + 1, ms[i]);
      if line.Raise? {
        return Raise(line.exc);
      }
      var rest := MilestoneLines(ms[i + 1..], i + 1);
      assert MilestoneLines(ms[i..], i) == if rest.Raise? then rest else Ok(line.value + rest.value);
      assert rest.Ok? ==> (text + line.value) + rest.value == text + (line.value + rest.value);
      text := text + line.value;
      i := i + 1;
    }
    assert ms[i..] == [];
    assert MilestoneLines(ms[i..], i) == Ok("");
    assert text + "" == text;
    return Ok(text);
  }

  /** The plan summary, built up piece by piece as `_phase_planning`
      builds it. */
  method BuildSummary(plan: Json, milestones: seq<Json>) returns (r: Result<string>)
    ensures r == PlanSummary(plan, milestones)
  {
    var title := Get(plan, "project_title", JStr("New Project"));
    if title.Raise? {
      return Raise(title.exc);
    }
    var overall := Get(plan, "overall_summary", JStr("N/A"));
    if overall.Raise? {
      return Raise(overall.exc);
    }
    var summary := PlanHeading + Display(title.value) + SummaryHeading + Display(overall.value) + "\n\n";
    var questions := Get(plan, "clarifying_questions", JNull);
    if questions.Raise? {
      return Raise(questions.exc);
    }
    var asked := "";
    if Truthy(questions.value) {
      var qs := Iterate(questions.value);
      if qs.Raise? {
        return Raise(qs.exc);
      }
      asked := QuestionsHeading + JoinWith(Bullets(qs.value), "\n") + "\n\n";
    }
    summary := summary + asked + MilestonesHeading;
    var lines := SummaryLines(milestones);
    if lines.Raise? {
      return Raise(lines.exc);
    }
    summary := summary + lines.value + ReviewRequest;
    return Ok(summary);
  }

  /** The plugin bound to one task: the task record and the dict loaded
      from its `task_context_data`. */
  class OdysseyPlugin {
    /** The members of `TaskStatus` as the program sees them. */
    const statuses: seq<TaskStatus>
    /** The task record as it was handed to the plugin. */
    const task: AgentTask
    /** `self.task.status`, the one field of the task the plugin sets. */
    var status: TaskStatus
    /** `task_specific_data`. */
    var data: Members

    constructor (statuses: seq<TaskStatus>, task: AgentTask, data: Members)
      ensures this.statuses == statuses && this.task == task && status == task.status && this.data == data
    {
      this.statuses := statuses;
      this.task := task;
      status := task.status;
      this.data := data;
    }

    /** `__init__`: the plugin with its dict loaded; loading raises for a
        stored value that is not a dict. */
    static method Open(statuses: seq<TaskStatus>, task: AgentTask) returns (r: Result<OdysseyPlugin>)
      ensures Load(task.taskContextData).Raise? ==> r == Raise(Load(task.taskContextData).exc)
      ensures Load(task.taskContextData).Ok? ==>
        r.Ok? && fresh(r.value) && r.value.statuses == statuses && r.value.task == task
        && r.value.status == task.status && r.value.data == Load(task.taskContextData).value
    {
      var loaded := Load(task.taskContextData);
      if loaded.Raise? {
        return Raise(loaded.exc);
      }
      var plugin := new OdysseyPlugin(statuses, task, loaded.value);
      return Ok(plugin);
    }

    /** `_phase_planning`, given what `generate_json` returned. */
    method PhasePlanning(response: Result<Json>) returns (r: Result<Update>)
      modifies this
      ensures var o := PlanningOutcome(old(data), status, response);
        r == o.result && data == o.data
      ensures status == old(status)
    {
      if response.Raise? {
        return Raise(response.exc);
      }
      var plan := response.value;
      var failed := In("error", plan);
      if failed.Raise? {
        return Raise(failed.exc);
      }
      if failed.value {
        var err := Get(plan, "error", JStr(MalformedPlan));
        if err.Raise? {
          return Raise(err.exc);
        }
        return Ok(ErrorUpdate(PlanningErrorPrefix + Display(err.value)));
      }
      var ms := Get(plan, "milestones", JNull);
      if ms.Raise? {
        return Raise(ms.exc);
      }
      if !ms.value.JArr? {
        return Ok(ErrorUpdate(PlanningErrorPrefix + MalformedPlan));
      }
      data := Put(data, PlanKey, plan);
      data := Put(data, IndexKey, JInt(-1));
      data := Put(data, PhaseKey, JStr(PhaseName(PlanReviewPhase)));
      var summary := BuildSummary(plan, ms.value.items);
      if summary.Raise? {
        return Raise(summary.exc);
      }
      return Ok(PhaseUpdate(AwaitingReview, summary.value, data));
    }

    /** `_phase_execute_milestone`, with the task's status already set to
        IN_PROGRESS by `execute`. */
    method PhaseExecuteMilestone() returns (r: Result<Update>)
      modifies this
      ensures var o := MilestoneOutcome(old(data), status);
        r == o.result && data == o.data
      ensures status == old(status)
    {
      var start := MilestoneStart(data);
      if start.Stop? {
        return start.result;
      }
      var ms := start.milestones;
      var i := start.index;
      data := Put(data, IndexKey, JInt(i));
      var text := MilestoneText(ms, i);
      if text.Raise? {
        return Raise(text.exc);
      }
      if i < |ms| - 1 {
        data := Put(data, PhaseKey, JStr(PhaseName(MilestoneReviewPhase)));
        return Ok(PhaseUpdate(AwaitingReview, text.value, data));
      }
      data := Put(data, PhaseKey, JStr(PhaseName(FinalizingPhase)));
      return Ok(PhaseUpdate(status, text.value, data));
    }

    /** `execute`: one step of the state machine. */
    method Execute(response: Result<Json>) returns (r: Result<Update>)
      modifies this
      ensures Outcome(r, data, status) == ExecuteOutcome(statuses, old(data), old(status), response)
    {
      match PhaseOf(CurrentPhase(data))
      case Some(PlanningPhase) =>
        r := ExecutePlanning(response);
      case Some(MilestonePhase) =>
        r := ExecuteMilestone();
      case Some(PlanReviewPhase) =>
        r := Ok([]);
      case Some(MilestoneReviewPhase) =>
        r := Ok([]);
      case Some(FinalizingPhase) =>
        data := Put(data, PhaseKey, JStr(PhaseName(CompletedPhase)));
        var done := StatusAttr(statuses, "COMPLETED");
        if done.Raise? {
          r := Raise(done.exc);
        } else {
          status := done.value;
          r := Ok(PhaseUpdate(done.value, FinalizedMessage, data));
        }
      case Some(CompletedPhase) =>
        var done := StatusAttr(statuses, "COMPLETED");
        r := if done.Raise? then Raise(done.exc) else Ok(PhaseUpdate(done.value, AlreadyCompletedMessage, data));
      case None =>
        r := Ok(ErrorUpdate("Unhandled plugin phase: " + Display(CurrentPhase(data))));
    }

    /** The PLANNING branch of `execute`: the task's status becomes
        PLANNING and the planning phase runs. */
    method ExecutePlanning(response: Result<Json>) returns (r: Result<Update>)
      requires PhaseOf(CurrentPhase(data)) == Some(PlanningPhase)
      modifies this
      ensures Outcome(r, data, status) == ExecuteOutcome(statuses, old(data), old(status), response)
    {
      status := Planning;
      r := PhasePlanning(response);
    }

    /** The MILESTONE_EXECUTION branch of `execute`: the task's status
        becomes IN_PROGRESS and the next milestone runs. */
    method ExecuteMilestone() returns (r: Result<Update>)
      requires PhaseOf(CurrentPhase(data)) == Some(MilestonePhase)
      modifies this
      ensures forall response :: Outcome(r, data, status) == ExecuteOutcome(statuses, old(data), old(status), response)
    {
      var inProgress := StatusAttr(statuses, "IN_PROGRESS");
      if inProgress.Raise? {
        r := Raise(inProgress.exc);
      } else {
        status := inProgress.value;
        r := PhaseExecuteMilestone();
      }
    }
  }
}
