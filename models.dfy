/** The database records and enumerations of the backend (backend/app/db/models.py
    and the record shapes of backend/app/db/schemas.py), and `setattr` on them. */
module Models {
  import opened Wrappers
  import opened Dicts

  // ---------------------------------------------------------------------
  // Enumerations

  /** Task statuses. The first nine are the members `TaskStatus` declares;
      `InProgress` and `Completed` are the two the odyssey plugin refers to
      without the enumeration declaring them. */
  datatype TaskStatus =
    | Pending | Planning | Analyzing | Testing | AwaitingReview
    | ExecutingMilestone | Applied | Rejected | Error
    | InProgress | Completed

  /** The member's `.value` (equal to its name). */
  function StatusValue(s: TaskStatus): string {
    match s
    case Pending => "PENDING"
    case Planning => "PLANNING"
    case Analyzing => "ANALYZING"
    case Testing => "TESTING"
    case AwaitingReview => "AWAITING_REVIEW"
    case ExecutingMilestone => "EXECUTING_MILESTONE"
    case Applied => "APPLIED"
    case Rejected => "REJECTED"
    case Error => "ERROR"
    case InProgress => "IN_PROGRESS"
    case Completed => "COMPLETED"
  }

  /** The members `TaskStatus` declares, in declaration order. */
  const DeclaredStatuses: seq<TaskStatus> :=
    [Pending, Planning, Analyzing, Testing, AwaitingReview, ExecutingMilestone, Applied, TaskStatus.Rejected, Error]

  /** The enumeration once the two statuses the odyssey plugin needs are added. */
  const CompletedStatuses: seq<TaskStatus> := DeclaredStatuses + [InProgress, Completed]

  /** The member whose value is `name`, if any: the inverse of `StatusValue`. */
  function StatusNamed(name: string): (r: Option<TaskStatus>)
    ensures r.Some? ==> StatusValue(r.value) == name
  {
    match name
    case "PENDING" => Some(Pending)
    case "PLANNING" => Some(Planning)
    case "ANALYZING" => Some(Analyzing)
    case "TESTING" => Some(Testing)
    case "AWAITING_REVIEW" => Some(AwaitingReview)
    case "EXECUTING_MILESTONE" => Some(ExecutingMilestone)
    case "APPLIED" => Some(Applied)
    case "REJECTED" => Some(TaskStatus.Rejected)
    case "ERROR" => Some(Error)
    case "IN_PROGRESS" => Some(InProgress)
    case "COMPLETED" => Some(Completed)
    case _ => None
  }

  /** Every member is found by its value. */
  lemma NamedValue(s: TaskStatus)
    ensures StatusNamed(StatusValue(s)) == Some(s)
  {
  }

  /** `TaskStatus.<name>` on an enumeration with the given members: the member
      of that name, or AttributeError. */
  function StatusAttr(members: seq<TaskStatus>, name: string): (r: Result<TaskStatus>)
    ensures r.Ok? <==> exists i :: 0 <= i < |members| && StatusValue(members[i]) == name
    ensures r.Ok? ==> r.value in members && StatusValue(r.value) == name
    ensures r.Raise? ==> r.exc.kind == AttributeError
  {
    var named := StatusNamed(name);
    if named.Some? && named.value in members then Ok(named.value)
    else
      assert forall i :: 0 <= i < |members| ==> StatusValue(members[i]) != name by {
        forall i | 0 <= i < |members|
          ensures StatusValue(members[i]) != name
        {
          NamedValue(members[i]);
        }
      }
      Raise(Exc(AttributeError, "type object 'TaskStatus' has no attribute '" + name + "'"))
  }

  /** Distinct members have distinct values. */
  lemma StatusValueInjective(s: TaskStatus, t: TaskStatus)
    requires StatusValue(s) == StatusValue(t)
    ensures s == t
  {
    NamedValue(s);
    NamedValue(t);
  }

  /** On an enumeration, `TaskStatus.<value of m>` is `m` for every member `m`. */
  lemma StatusAttrOfMember(members: seq<TaskStatus>, s: TaskStatus, name: string)
    requires s in members && StatusValue(s) == name
    ensures StatusAttr(members, name) == Ok(s)
  {
    var r := StatusAttr(members, name);
    StatusValueInjective(r.value, s);
  }

  /** The declared enumeration holds every status but IN_PROGRESS and
      COMPLETED. */
  lemma DeclaredMembers(members: seq<TaskStatus>)
    requires members == DeclaredStatuses
    ensures forall s :: s in members <==> s != InProgress && s != Completed
  {
    forall s | s != InProgress && s != Completed
      ensures s in members
    {
      match s
      case Pending => assert members[0] == s;
      case Planning => assert members[1] == s;
      case Analyzing => assert members[2] == s;
      case Testing => assert members[3] == s;
      case AwaitingReview => assert members[4] == s;
      case ExecutingMilestone => assert members[5] == s;
      case Applied => assert members[6] == s;
      case Rejected => assert members[7] == s;
      case Error => assert members[8] == s;
    }
  }

  /** On the declared enumeration, `TaskStatus.IN_PROGRESS` and
      `TaskStatus.COMPLETED` raise. */
  lemma DeclaredStatusNames(members: seq<TaskStatus>)
    requires members == DeclaredStatuses
    ensures StatusAttr(members, "IN_PROGRESS").Raise?
    ensures StatusAttr(members, "COMPLETED").Raise?
  {
    DeclaredMembers(members);
    assert StatusNamed("IN_PROGRESS") == Some(InProgress);
    assert StatusNamed("COMPLETED") == Some(Completed);
  }

  /** The completed enumeration resolves the two names the odyssey plugin uses. */
  lemma CompletedStatusNames(members: seq<TaskStatus>)
    requires members == CompletedStatuses
    ensures StatusAttr(members, "IN_PROGRESS") == Ok(InProgress)
    ensures StatusAttr(members, "COMPLETED") == Ok(Completed)
  {
    assert members[9] == InProgress && members[10] == Completed;
    assert StatusNamed("IN_PROGRESS") == Some(InProgress);
    assert StatusNamed("COMPLETED") == Some(Completed);
  }

  datatype TestStatus = NotRun | Pass | Fail

  function TestStatusValue(s: TestStatus): string {
    match s
    case NotRun => "NOT_RUN"
    case Pass => "PASS"
    case Fail => "FAIL"
  }

  /** The review state of a research finding. */
  datatype FindingStatus = Unverified | Accepted | Rejected

  function FindingStatusValue(s: FindingStatus): string {
    match s
    case Unverified => "UNVERIFIED"
    case Accepted => "ACCEPTED"
    case Rejected => "REJECTED"
  }

  // ---------------------------------------------------------------------
  // Values an update dict carries

  /** A Python value stored into a column by `setattr`. `VTime` is an opaque
      timestamp. */
  datatype Value =
    | VNone
    | VStr(s: string)
    | VInt(i: int)
    | VStatus(status: TaskStatus)
    | VTest(test: TestStatus)
    | VFinding(finding: FindingStatus)
    | VTime(stamp: int)

  /** A dict of attribute names to new values. */
  type Update = seq<(string, Value)>

  /** `{"status": ERROR, "error_message": message}`. */
  function ErrorUpdate(message: string): Update {
    [("status", VStatus(Error)), ("error_message", VStr(message))]
  }

  /** The column kinds of the records below. */
  datatype Column = IntCol | OptIntCol | StrCol | OptStrCol | StatusCol | TestCol | FindingCol | OptTimeCol

  /** A value a column of that kind accepts. */
  predicate Fits(c: Column, v: Value) {
    match c
    case IntCol => v.VInt?
    case OptIntCol => v.VInt? || v.VNone?
    case StrCol => v.VStr?
    case OptStrCol => v.VStr? || v.VNone?
    case StatusCol => v.VStatus?
    case TestCol => v.VTest?
    case FindingCol => v.VFinding?
    case OptTimeCol => v.VTime? || v.VNone?
  }

  function OptStr(o: Option<string>): Value {
    if o.Some? then VStr(o.value) else VNone
  }

  function OptInt(o: Option<int>): Value {
    if o.Some? then VInt(o.value) else VNone
  }

  function AsOptStr(v: Value): Option<string> {
    if v.VStr? then Some(v.s) else None
  }

  function AsOptInt(v: Value): Option<int> {
    if v.VInt? then Some(v.i) else None
  }

  // ---------------------------------------------------------------------
  // AgentTask

  /** An `agent_tasks` row; the timestamps and the `owner` relationship are
      not modelled. */
  datatype AgentTask = AgentTask(
    id: int,
    prompt: string,
    pluginId: string,
    targetFiles: Option<string>,
    status: TaskStatus,
    llmExplanation: Option<string>,
    proposedDiff: Option<string>,
    errorMessage: Option<string>,
    commitHash: Option<string>,
    testStatus: TestStatus,
    testResults: Option<string>,
    targetTreeId: Option<int>,
    targetPersonId: Option<int>,
    taskContextData: Option<string>,
    ownerId: int)

  /** The task's columns and their kinds. */
  function TaskColumn(name: string): Option<Column> {
    match name
    case "id" => Some(IntCol)
    case "prompt" => Some(StrCol)
    case "plugin_id" => Some(StrCol)
    case "target_files" => Some(OptStrCol)
    case "status" => Some(StatusCol)
    case "llm_explanation" => Some(OptStrCol)
    case "proposed_diff" => Some(OptStrCol)
    case "error_message" => Some(OptStrCol)
    case "commit_hash" => Some(OptStrCol)
    case "test_status" => Some(TestCol)
    case "test_results" => Some(OptStrCol)
    case "target_tree_id" => Some(OptIntCol)
    case "target_person_id" => Some(OptIntCol)
    case "task_context_data" => Some(OptStrCol)
    case "owner_id" => Some(IntCol)
    case _ => None
  }

  /** `hasattr(task, name)` for the modelled attributes. */
  predicate IsTaskField(name: string) {
    TaskColumn(name).Some?
  }

  /** Every entry naming a task column carries a value that column accepts. */
  predicate TaskUpdateFits(u: Update) {
    forall i :: 0 <= i < |u| ==> TaskColumn(u[i].0).Some? ==> Fits(TaskColumn(u[i].0).value, u[i].1)
  }

  /** The ERROR dict fits the task's columns and names each once. */
  lemma ErrorUpdateFits(message: string)
    ensures TaskUpdateFits(ErrorUpdate(message)) && UniqueKeys(ErrorUpdate(message))
  {
    assert TaskColumn("status") == Some(StatusCol);
    assert TaskColumn("error_message") == Some(OptStrCol);
  }

  /** Merging the ERROR dict sets the status and the message and nothing
      else. */
  lemma MergeError(t: AgentTask, message: string)
    ensures var t' := MergeTask(t, ErrorUpdate(message));
      t'.status == Error && t'.errorMessage == Some(message)
      && forall k :: IsTaskField(k) && k != "status" && k != "error_message" ==> TaskGet(t', k) == TaskGet(t, k)
  {
    var u := ErrorUpdate(message);
    ErrorUpdateFits(message);
    MergeTaskFields(t, u);
    LookupAt(u, 0);
    LookupAt(u, 1);
    assert TaskGet(MergeTask(t, u), "status") == VStatus(Error);
    assert TaskGet(MergeTask(t, u), "error_message") == VStr(message);
  }

  /** A dict setting only the status fits the task's columns. */
  lemma StatusUpdateFits(s: TaskStatus)
    ensures TaskUpdateFits([("status", VStatus(s))]) && UniqueKeys([("status", VStatus(s))])
  {
    assert TaskColumn("status") == Some(StatusCol);
  }

  /** `getattr(task, name)`. */
  function TaskGet(t: AgentTask, name: string): Value {
    match name
    case "id" => VInt(t.id)
    case "prompt" => VStr(t.prompt)
    case "plugin_id" => VStr(t.pluginId)
    case "target_files" => OptStr(t.targetFiles)
    case "status" => VStatus(t.status)
    case "llm_explanation" => OptStr(t.llmExplanation)
    case "proposed_diff" => OptStr(t.proposedDiff)
    case "error_message" => OptStr(t.errorMessage)
    case "commit_hash" => OptStr(t.commitHash)
    case "test_status" => VTest(t.testStatus)
    case "test_results" => OptStr(t.testResults)
    case "target_tree_id" => OptInt(t.targetTreeId)
    case "target_person_id" => OptInt(t.targetPersonId)
    case "task_context_data" => OptStr(t.taskContextData)
    case "owner_id" => VInt(t.ownerId)
    case _ => VNone
  }

  /** `if hasattr(task, name): setattr(task, name, v)`. */
  function TaskSet(t: AgentTask, name: string, v: Value): (r: AgentTask)
    requires TaskColumn(name).Some? ==> Fits(TaskColumn(name).value, v)
    ensures forall k :: IsTaskField(k) ==> TaskGet(r, k) == if k == name then v else TaskGet(t, k)
    ensures !IsTaskField(name) ==> r == t
  {
    match name
    case "id" => t.(id := v.i)
    case "prompt" => t.(prompt := v.s)
    case "plugin_id" => t.(pluginId := v.s)
    case "target_files" => t.(targetFiles := AsOptStr(v))
    case "status" => t.(status := v.status)
    case "llm_explanation" => t.(llmExplanation := AsOptStr(v))
    case "proposed_diff" => t.(proposedDiff := AsOptStr(v))
    case "error_message" => t.(errorMessage := AsOptStr(v))
    case "commit_hash" => t.(commitHash := AsOptStr(v))
    case "test_status" => t.(testStatus := v.test)
    case "test_results" => t.(testResults := AsOptStr(v))
    case "target_tree_id" => t.(targetTreeId := AsOptInt(v))
    case "target_person_id" => t.(targetPersonId := AsOptInt(v))
    case "task_context_data" => t.(taskContextData := AsOptStr(v))
    case "owner_id" => t.(ownerId := v.i)
    case _ => t
  }

  /** The record the session holds once every entry of the dict has been
      applied with `setattr`, in dict order. */
  function MergeTask(t: AgentTask, u: Update): AgentTask
    requires TaskUpdateFits(u)
    decreases |u|
  {
    if |u| == 0 then t else MergeTask(TaskSet(t, u[0].0, u[0].1), u[1..])
  }

  /** Every column named in the dict takes the dict's value; every other
      column keeps its value. */
  lemma {:induction false} MergeTaskFields(t: AgentTask, u: Update)
    requires TaskUpdateFits(u) && UniqueKeys(u)
    ensures forall k :: IsTaskField(k) ==>
      TaskGet(MergeTask(t, u), k) == if Lookup(u, k).Some? then Lookup(u, k).value else TaskGet(t, k)
    decreases |u|
  {
    if |u| > 0 {
      var t' := TaskSet(t, u[0].0, u[0].1);
      assert UniqueKeys(u[1..]);
      MergeTaskFields(t', u[1..]);
      forall k | IsTaskField(k)
        ensures TaskGet(MergeTask(t, u), k) == if Lookup(u, k).Some? then Lookup(u, k).value else TaskGet(t, k)
      {
        if k == u[0].0 {
          FirstKeyNotInTail(u);
        }
      }
    }
  }

  /** A dict naming no column leaves the task as it was; in particular the
      empty dict does. */
  lemma {:induction false} MergeTaskNoFields(t: AgentTask, u: Update)
    requires TaskUpdateFits(u)
    requires forall i :: 0 <= i < |u| ==> !IsTaskField(u[i].0)
    ensures MergeTask(t, u) == t
    decreases |u|
  {
    if |u| > 0 {
      MergeTaskNoFields(t, u[1..]);
    }
  }

  /** A task as `AgentTask(prompt=…, plugin_id=…, target_files=…,
      target_tree_id=…, target_person_id=…, owner_id=…)` stores it: the
      column defaults fill the rest (status PENDING, test status NOT_RUN). */
  function NewTask(id: int, prompt: string, pluginId: string, targetFiles: Option<string>,
                   targetTreeId: Option<int>, targetPersonId: Option<int>, ownerId: int): (t: AgentTask)
    ensures t.status == Pending && t.testStatus == NotRun
    ensures t.id == id && t.prompt == prompt && t.pluginId == pluginId && t.targetFiles == targetFiles
    ensures t.targetTreeId == targetTreeId && t.targetPersonId == targetPersonId && t.ownerId == ownerId
    ensures t.llmExplanation == None && t.proposedDiff == None && t.errorMessage == None
    ensures t.commitHash == None && t.testResults == None && t.taskContextData == None
  {
    AgentTask(id, prompt, pluginId, targetFiles, Pending, None, None, None, None, NotRun, None,
              targetTreeId, targetPersonId, None, ownerId)
  }

  /** The `plugin_id` column default. */
  const DefaultPluginId: string := "code_modifier"

  // ---------------------------------------------------------------------
  // Users, permissions, genealogy records

  datatype User = User(id: int, email: string, fullName: Option<string>, role: string)

  /** An allow-list rule of the code-modifier plugin. */
  datatype AgentPermission = AgentPermission(id: int, path: string, comment: Option<string>)

  datatype FamilyTree = FamilyTree(id: int, fileName: string, ownerId: int)

  datatype Person = Person(
    id: int,
    treeId: int,
    gedcomId: string,
    firstName: Option<string>,
    lastName: Option<string>,
    sex: Option<string>,
    birthDate: Option<string>,
    birthPlace: Option<string>,
    deathDate: Option<string>,
    deathPlace: Option<string>)

  /** The nullable text attributes of a person, which a finding may set. */
  predicate IsPersonTextField(name: string) {
    name in {"first_name", "last_name", "sex", "birth_date", "birth_place", "death_date", "death_place"}
  }

  /** `getattr(person, name)` for the nullable text attributes. */
  function PersonGet(p: Person, name: string): Option<string> {
    match name
    case "first_name" => p.firstName
    case "last_name" => p.lastName
    case "sex" => p.sex
    case "birth_date" => p.birthDate
    case "birth_place" => p.birthPlace
    case "death_date" => p.deathDate
    case "death_place" => p.deathPlace
    case _ => None
  }

  /** `setattr(person, name, v)` for the nullable text attributes. */
  function PersonSet(p: Person, name: string, v: Option<string>): (r: Person)
    ensures forall k :: IsPersonTextField(k) ==> PersonGet(r, k) == if k == name then v else PersonGet(p, k)
    ensures r.id == p.id && r.treeId == p.treeId && r.gedcomId == p.gedcomId
    ensures !IsPersonTextField(name) ==> r == p
  {
    match name
    case "first_name" => p.(firstName := v)
    case "last_name" => p.(lastName := v)
    case "sex" => p.(sex := v)
    case "birth_date" => p.(birthDate := v)
    case "birth_place" => p.(birthPlace := v)
    case "death_date" => p.(deathDate := v)
    case "death_place" => p.(deathPlace := v)
    case _ => p
  }

  /** A family; `children` keeps every appended person, in append order. */
  datatype Family = Family(id: int, treeId: int, gedcomId: string, husbandId: Option<int>,
                           wifeId: Option<int>, children: seq<int>)

  datatype ResearchFinding = ResearchFinding(
    id: int,
    personId: int,
    agentTaskId: int,
    dataField: string,
    originalValue: Option<string>,
    suggestedValue: Option<string>,
    sourceName: string,
    sourceUrl: Option<string>,
    citationText: string,
    confidenceScore: Option<int>,
    llmReasoning: Option<string>,
    status: FindingStatus,
    reviewedAt: Option<int>,
    reviewedById: Option<int>)

  function FindingColumn(name: string): Option<Column> {
    match name
    case "id" => Some(IntCol)
    case "person_id" => Some(IntCol)
    case "agent_task_id" => Some(IntCol)
    case "data_field" => Some(StrCol)
    case "original_value" => Some(OptStrCol)
    case "suggested_value" => Some(OptStrCol)
    case "source_name" => Some(StrCol)
    case "source_url" => Some(OptStrCol)
    case "citation_text" => Some(StrCol)
    case "confidence_score" => Some(OptIntCol)
    case "llm_reasoning" => Some(OptStrCol)
    case "status" => Some(FindingCol)
    case "reviewed_at" => Some(OptTimeCol)
    case "reviewed_by_id" => Some(OptIntCol)
    case _ => None
  }

  predicate IsFindingField(name: string) {
    FindingColumn(name).Some?
  }

  predicate FindingUpdateFits(u: Update) {
    forall i :: 0 <= i < |u| ==> FindingColumn(u[i].0).Some? ==> Fits(FindingColumn(u[i].0).value, u[i].1)
  }

  function FindingGet(f: ResearchFinding, name: string): Value {
    match name
    case "id" => VInt(f.id)
    case "person_id" => VInt(f.personId)
    case "agent_task_id" => VInt(f.agentTaskId)
    case "data_field" => VStr(f.dataField)
    case "original_value" => OptStr(f.originalValue)
    case "suggested_value" => OptStr(f.suggestedValue)
    case "source_name" => VStr(f.sourceName)
    case "source_url" => OptStr(f.sourceUrl)
    case "citation_text" => VStr(f.citationText)
    case "confidence_score" => OptInt(f.confidenceScore)
    case "llm_reasoning" => OptStr(f.llmReasoning)
    case "status" => VFinding(f.status)
    case "reviewed_at" => if f.reviewedAt.Some? then VTime(f.reviewedAt.value) else VNone
    case "reviewed_by_id" => OptInt(f.reviewedById)
    case _ => VNone
  }

  function FindingSet(f: ResearchFinding, name: string, v: Value): (r: ResearchFinding)
    requires FindingColumn(name).Some? ==> Fits(FindingColumn(name).value, v)
    ensures forall k :: IsFindingField(k) ==> FindingGet(r, k) == if k == name then v else FindingGet(f, k)
    ensures !IsFindingField(name) ==> r == f
  {
    match name
    case "id" => f.(id := v.i)
    case "person_id" => f.(personId := v.i)
    case "agent_task_id" => f.(agentTaskId := v.i)
    case "data_field" => f.(dataField := v.s)
    case "original_value" => f.(originalValue := AsOptStr(v))
    case "suggested_value" => f.(suggestedValue := AsOptStr(v))
    case "source_name" => f.(sourceName := v.s)
    case "source_url" => f.(sourceUrl := AsOptStr(v))
    case "citation_text" => f.(citationText := v.s)
    case "confidence_score" => f.(confidenceScore := AsOptInt(v))
    case "llm_reasoning" => f.(llmReasoning := AsOptStr(v))
    case "status" => f.(status := v.finding)
    case "reviewed_at" => f.(reviewedAt := if v.VTime? then Some(v.stamp) else None)
    case "reviewed_by_id" => f.(reviewedById := AsOptInt(v))
    case _ => f
  }

  function MergeFinding(f: ResearchFinding, u: Update): ResearchFinding
    requires FindingUpdateFits(u)
    decreases |u|
  {
    if |u| == 0 then f else MergeFinding(FindingSet(f, u[0].0, u[0].1), u[1..])
  }

  /** The findings merge has the task merge's semantics. */
  lemma {:induction false} MergeFindingFields(f: ResearchFinding, u: Update)
    requires FindingUpdateFits(u) && UniqueKeys(u)
    ensures forall k :: IsFindingField(k) ==>
      FindingGet(MergeFinding(f, u), k) == if Lookup(u, k).Some? then Lookup(u, k).value else FindingGet(f, k)
    decreases |u|
  {
    if |u| > 0 {
      var f' := FindingSet(f, u[0].0, u[0].1);
      assert UniqueKeys(u[1..]);
      MergeFindingFields(f', u[1..]);
      forall k | IsFindingField(k)
        ensures FindingGet(MergeFinding(f, u), k) == if Lookup(u, k).Some? then Lookup(u, k).value else FindingGet(f, k)
      {
        if k == u[0].0 {
          FirstKeyNotInTail(u);
        }
      }
    }
  }
}
