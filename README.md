# Franken-agent backend core, modelled in Dafny

Franken-agent is a FastAPI backend that runs *agent tasks*. A task names a
plugin. The agent orchestrator resolves that plugin in the plugin registry,
marks the task ANALYZING, runs the plugin, and merges the dict the plugin
returns into the task row. It then sends an e-mail notification.

This project models that engine and the plugins and endpoints around it:

- **Code modifier.** It parses the target paths and checks them against an
  allow-list. It reads the target files, formats the new code and assembles
  a unified diff. It then runs the tests in a sandbox branch of the git
  repository and always cleans the branch up afterwards.
- **Odyssey.** A milestone state machine whose state is a JSON dict stored
  in the task.
- **Genealogy researcher.** It asks its configured tools about a person's
  missing facts. It lets the LLM weigh the answers and stores every
  confident suggestion as a research finding.
- **Admin approval.** Approving a task commits an approved diff, or moves
  an odyssey task to its next phase.
- **GEDCOM import.** An upload creates a family tree in two passes.
- **Finding review.** An administrator accepts or rejects each research
  finding.
- **Smaller rules.** The Ollama server and model selection, the
  notification decision, the Find a Grave search tool, and the CRUD helpers
  over an in-memory store.

## Modules

There is one module per source file:

| module | source file |
|---|---|
| `Models` | `backend/app/db/models.py`, and `backend/app/db/schemas.py` for the records noted below |
| `Crud` | `backend/app/db/crud.py` |
| `Plugins` | `base_plugin.py` and `plugin_manager.py` |
| `Notifications` | `notification_service.py` |
| `Ollama` | `ollama_service.py` |
| `Orchestration` | `orchestration_service.py` |
| `CodeModifier` | `code_modifier_plugin.py` |
| `Odyssey` | `odyssey_plugin.py` |
| `Admin` | `admin.py` |
| `GenealogyResearch` | `genealogy_research_plugin.py` |
| `FindAGrave` | `findagrave_tool.py` |
| `GenealogyService` | `genealogy_service.py` |
| `GenealogyApi` | `genealogy.py` |

backend/app/db/models.py defines only `User`, `ChatHistory`, `TaskStatus`,
`TestStatus` and `AgentTask` (it ends at line 77). The `AgentPermission`,
`FamilyTree`, `Person`, `Family` and `ResearchFinding` records of `Models`
therefore take their fields from the response schemas in
backend/app/db/schemas.py (lines 86-153).

These modules share helper modules for the library behaviour they rely on:

- `Text`: Python `str` operations.
- `Json`: JSON values, with a serialiser and a parser proved to round-trip.
- `Dicts`: dicts as association lists.
- `Paths`: `pathlib` and `os.path` normalisation.
- `Difflib`: `splitlines` and the shape of `unified_diff`.
- `Git`: a repository as GitPython drives it.
- `Wrappers`: `Option`, and a `Result` that carries a Python exception
  instead of raising it.

## How the model works

Code that changes state in place is written as classes with `modifies`
clauses:

- the database session `Crud.Db`;
- the repository `Git.Repo`;
- the plugin registry;
- the notification outbox;
- the orchestrator;
- the odyssey and code-modifier plugin instances.

Each such method is proved against a specification function on values, and
the lemmas are stated about those functions.

Outside effects arrive as parameters:

- what the LLM answered;
- what a tool, the formatter or the test run returned;
- the bytes of a file;
- the clock.

The code-modifier plugin carries a `Reading`. `AsWritten` runs the rule
test, the containment test and the diff's line terminator exactly as
backend/app/plugins/code_modifier_plugin.py has them. `Intended` runs the
corrections of findings (a), (d) and (g) below. Every contract of the
plugin's operations is stated and proved for both readings.

The notification service is modelled as intended (finding (i)): the status
is compared as an enumeration member, and a task in ERROR gets its mail.
As written, a configured and enabled service evaluates `enum.Enum` before
it looks at the status, so it raises NameError for every task it is asked
about (`Notifications.NotifyAsWritten`); the ERROR case is shown by
`Notifications.ErrorMailAsWritten`. `Orchestration.AgentOrchestrator.ExecuteTask`,
`Orchestration.AgentOrchestrator.RunPlugin`, `Orchestration.AgentOrchestrator.FailTask`
and `Admin.ApproveAndProcess` send the intended mail; what the NameError does
to them as written is listed under "## Left out".

## Model

| member | source | states |
|---|---|---|
| Models.StatusNamed | backend/app/db/models.py:36-45 | the member found for a name has that name as its value |
| Models.NamedValue | backend/app/db/models.py:36-45 | every status is found again by its value |
| Models.StatusAttr | backend/app/db/models.py:36-45 | `TaskStatus.<name>` succeeds exactly when some member has that value, and gives that member; otherwise AttributeError |
| Models.StatusValueInjective | backend/app/db/models.py:36-45 | distinct statuses have distinct values |
| Models.StatusAttrOfMember | backend/app/db/models.py:36-45 | on any enumeration, the attribute named by a member's value is that member |
| Models.DeclaredMembers | backend/app/db/models.py:36-45 | the declared enumeration holds every status except IN_PROGRESS and COMPLETED |
| Models.DeclaredStatusNames | backend/app/db/models.py:36-45 | on the declared enumeration, `TaskStatus.IN_PROGRESS` and `TaskStatus.COMPLETED` raise |
| Models.CompletedStatusNames | backend/app/db/models.py:36-45 | once the two members are added, both names resolve to their members |
| Models.ErrorUpdateFits | backend/app/db/models.py:59-62 | the ERROR dict fits the status and error-message columns and names each once |
| Models.MergeError | backend/app/db/crud.py:68-75 | merging the ERROR dict sets the status and the message, and no other column |
| Models.StatusUpdateFits | backend/app/db/models.py:59 | a dict that sets only the status fits the task's columns |
| Models.TaskSet | backend/app/db/crud.py:70-71 | `setattr` changes exactly the named column; a name that is not a column changes nothing |
| Models.MergeTaskFields | backend/app/db/crud.py:68-75 | after the dict is merged, every column it names has the dict's value and every other column keeps its value |
| Models.MergeTaskNoFields | backend/app/db/crud.py:69-71 | a dict that names no column leaves the task as it was |
| Models.NewTask | backend/app/db/models.py:53-72 | a new task takes the given columns; the defaults are PENDING status and NOT_RUN test status, and every other nullable column is empty |
| Models.PersonSet | backend/app/api/endpoints/genealogy.py:143-145 | `setattr` on a person changes exactly the named text attribute and keeps id, tree and GEDCOM id |
| Models.FindingSet | backend/app/db/crud.py:142-143 | `setattr` on a finding changes exactly the named column; a name that is not a column changes nothing |
| Models.MergeFindingFields | backend/app/db/crud.py:140-147 | after the dict is merged, every finding column it names has the dict's value and every other column keeps its value |
| Crud.PathLeTotal | backend/app/db/crud.py:82 | the path order used by `order_by(path)` is total |
| Crud.InsertByPath | backend/app/db/crud.py:82 | insertion adds exactly the one rule |
| Crud.InsertByPathSorted | backend/app/db/crud.py:82 | inserting into a path-sorted list keeps it sorted |
| Crud.SortByPath | backend/app/db/crud.py:82 | the ordered rules are a permutation of the stored ones |
| Crud.SortByPathSorted | backend/app/db/crud.py:82 | the ordered rules are sorted by path |
| Crud.Descending | backend/app/db/crud.py:151 | every key of the set appears exactly once, in strictly decreasing order |
| Crud.Page | backend/app/db/crud.py:82 | `offset(skip).limit(limit)` keeps at most `limit` rows, exactly the rows from `skip` on, in order |
| Crud.PermissionPage | backend/app/db/crud.py:81-82 | `get_permissions(limit=1000)` is sorted and holds every rule when there are at most 1000, and 1000 of them otherwise |
| Crud.Db.constructor | backend/app/db/database.py:17 | a new session over an empty database has empty tables and hands out key 1 first |
| Crud.Db.GetAgentTask | backend/app/db/crud.py:48-49 | the task is found exactly when its key is stored |
| Crud.Db.CreateAgentTask | backend/app/db/crud.py:54-66 | a new task under an unused key with the request's fields and the column defaults; other tables unchanged |
| Crud.Db.UpdateAgentTask | backend/app/db/crud.py:68-75 | the stored task becomes the merge of the update's known columns into it; nothing else changes |
| Crud.Db.GetPermissionByPath | backend/app/db/crud.py:78-79 | a rule is found exactly when some stored rule has the path, and it is one of them |
| Crud.Db.GetPermissions | backend/app/db/crud.py:81-82 | the rules in path order, paged |
| Crud.Db.CreatePermission | backend/app/db/crud.py:84-89 | the new rule gets the next key and is appended; other tables unchanged |
| Crud.Db.DeletePermission | backend/app/db/crud.py:91-96 | the rule with the id, or None; exactly the rules without that id remain |
| Crud.FirstMatching | backend/app/db/crud.py:92 | `.filter(...).first()` on the rules: a rule is found exactly when one matches, and it is the first match in stored order |
| Crud.RemovePermission | backend/app/db/crud.py:93-95 | exactly the rules with another id remain; an absent id removes nothing |
| Crud.RemoveKeepsDistinct | backend/app/db/crud.py:91-96 | deleting a rule keeps the ids distinct |
| Crud.Db.CreateFamilyTree | backend/app/db/crud.py:99-104 | a new tree under the next key, owned by the user; other tables unchanged |
| Crud.Db.AddPerson | backend/app/services/genealogy_service.py:73-79 | a person row is stored under the next key |
| Crud.Db.AddFamilies | backend/app/services/genealogy_service.py:111-134 | the families prepared in the session are stored under their keys |
| Crud.StoreFamiliesSnoc | backend/app/services/genealogy_service.py:111-134 | storing one more family adds it under its key |
| Crud.Db.FreshId | backend/app/services/genealogy_service.py:111-115 | a flush hands out the next key without storing a row |
| Crud.Db.GetPerson | backend/app/db/crud.py:127-128 | the person is found exactly when its key is stored |
| Crud.Db.GetOwnedTree | backend/app/db/crud.py:109-116 | the tree is found exactly when it exists and belongs to the owner |
| Crud.Db.GetFinding | backend/app/db/crud.py:130-131 | the finding is found exactly when its key is stored |
| Crud.Db.FindingsForPerson | backend/app/db/crud.py:149-152 | findings about the person only, newest (largest key) first, after `skip` and at most `limit`; with no skip and no more than `limit` of them, every one is listed |
| Crud.Db.CreateResearchFinding | backend/app/db/crud.py:133-138 | a new finding under an unused key, UNVERIFIED and unreviewed; other tables unchanged |
| Crud.Db.UpdateResearchFinding | backend/app/db/crud.py:140-147 | the stored finding becomes the merge of the update's known columns into it; nothing else changes |
| Crud.Db.PutPerson | backend/app/api/endpoints/genealogy.py:143-146 | the changed person row is written back under its key; nothing else changes |
| Plugins.ModuleName | backend/app/services/plugin_manager.py:26-27 | the module name is the file name with `.py` removed |
| Plugins.Candidates | backend/app/services/plugin_manager.py:24-32 | every candidate class comes from an importable file that follows the `*_plugin.py`, not `base_*` naming |
| Plugins.LastWithId | backend/app/services/plugin_manager.py:34-39 | the class found for an id is the last registrable class with that id; none exactly when no class registers it |
| Plugins.LookupRegisterClasses | backend/app/services/plugin_manager.py:32-39 | after registering a sequence of classes, an id that one of them registers finds the last such class; any other id finds what it did before |
| Plugins.RegisterClassesAppend | backend/app/services/plugin_manager.py:24-39 | registering two runs of classes one after the other is registering them together |
| Plugins.RegisterFilesCandidates | backend/app/services/plugin_manager.py:24-46 | loading file by file is registering all the candidate classes in order |
| Plugins.LastRegistrationWins | backend/app/services/plugin_manager.py:17-46 | a missing directory registers nothing; an id maps to the last proper plugin subclass that registers it, from an importable plugin file; duplicates are overwritten and the base class never appears |
| Plugins.Listing | backend/app/services/plugin_manager.py:60-72 | never more entries than registered plugins |
| Plugins.ListingSound | backend/app/services/plugin_manager.py:63-69 | every listed entry is a registered id, with the name and description its class gives |
| Plugins.ListingComplete | backend/app/services/plugin_manager.py:63-71 | every registered class whose name and description accessors both answer is listed |
| Plugins.PluginManager.constructor | backend/app/services/plugin_manager.py:10-15 | the registry is what loading the directory builds |
| Plugins.PluginManager.LoadPlugins | backend/app/services/plugin_manager.py:17-46 | the nested loops register each file's classes into the existing registry, exactly as `RegisterFiles` does; a missing directory changes nothing |
| Plugins.PluginManager.GetPluginClass | backend/app/services/plugin_manager.py:53-58 | a class is found exactly when the id is registered |
| Plugins.PluginManager.ListPlugins | backend/app/services/plugin_manager.py:60-72 | the appending loop returns exactly `Listing` |
| Plugins.ListingStep | backend/app/services/plugin_manager.py:63-71 | one step of the listing loop keeps the loop's invariant |
| Plugins.GetPluginManager | backend/app/services/plugin_manager.py:77-85 | the startup instance when it exists, and a RuntimeError exactly when it does not |
| Notifications.ComposeDecision | backend/app/services/notification_service.py:85-139 | a message is composed exactly for a task awaiting review, applied, or in error, each behind its own flag, and the subject says which |
| Notifications.CommitHashListed | backend/app/services/notification_service.py:104-115 | the applied message lists the commit hash exactly when the task has one |
| Notifications.NotifyAsWritten | backend/app/services/notification_service.py:63-73 | as written, a configured and enabled service raises NameError on `enum` and sends nothing; otherwise it returns quietly |
| Notifications.ErrorMailAsWritten | backend/app/services/notification_service.py:73 | for an ERROR task that is to be reported, the code as written raises, while the intended status test sends exactly one error message |
| Notifications.NotificationService.constructor | backend/app/services/notification_service.py:9-18 | configured exactly when notifications are enabled and the recipient and every SMTP setting are present; the outbox starts empty |
| Notifications.NotificationService.SendEmail | backend/app/services/notification_service.py:26-34 | an unconfigured service sends nothing; a configured one sends the message with the application name bracketed before the subject |
| Notifications.NotificationService.Mailed | backend/app/services/notification_service.py:63-142 | at most one message, and one exactly when the service is configured and enabled and the status notifies; it is the composed message with the bracketed subject |
| Notifications.NotificationService.NotifyTaskStatusChange | backend/app/services/notification_service.py:63-142 | the outbox grows by exactly `Mailed(task)` |
| Ollama.ServerMapOf | backend/app/services/ollama_service.py:10 | every server is stored under its own name, and the map is empty exactly when no server is configured |
| Ollama.NamedPut | backend/app/services/ollama_service.py:10 | adding a server under its name keeps every entry stored under its own server's name |
| Ollama.DefaultServer | backend/app/services/ollama_service.py:13-17 | none exactly when no server is configured, otherwise the first configured server |
| Ollama.ModelsOf | backend/app/services/ollama_service.py:19-32 | one entry per model the server lists, in order, each tagged with that server; an unreachable server lists none |
| Ollama.AllModels | backend/app/services/ollama_service.py:34-40 | every listed model was listed by one of the configured servers, and is tagged with it |
| Ollama.FindListed | backend/app/services/ollama_service.py:60-64 | a hit is a listed entry with the wanted name; no hit exactly when no entry has that name |
| Ollama.FirstIndex | backend/app/services/ollama_service.py:49 | the position of the first occurrence of the character |
| Ollama.SplitOnce | backend/app/services/ollama_service.py:49 | splitting at the first `/`: the two parts rejoin to the name, and the first part holds no `/` |
| Ollama.Target | backend/app/services/ollama_service.py:42-77 | with no configured server, a ValueError |
| Ollama.TargetCases | backend/app/services/ollama_service.py:48-77 | a known server prefix is used as it is, with no listing consulted; any chosen server is a configured one; with no model name, the default server's first model, or a ValueError when it lists none |
| Ollama.LookupIn | backend/app/services/ollama_service.py:62 | a server found by name is one of the configured servers |
| Ollama.UnknownServerPrefix | backend/app/services/ollama_service.py:54-64 | an unknown server prefix is dropped, and the model runs on the first server that lists it |
| Ollama.OllamaService.constructor | backend/app/services/ollama_service.py:9-11 | the service keeps the servers keyed by name |
| Ollama.OllamaService.ListModels | backend/app/services/ollama_service.py:34-40 | the loop that extends the list returns exactly `AllModels` |
| Ollama.Generate | backend/app/services/ollama_service.py:105 | a failure to choose a server and model propagates unchanged, before any request is sent |
| Ollama.GenerateJson | backend/app/services/ollama_service.py:120 | a failure to choose a server and model propagates unchanged, before any request is sent |
| Ollama.GenerateResults | backend/app/services/ollama_service.py:103-116 | with a target chosen: an error reply is returned as it is; otherwise the answer is the reply's `response` text (empty when absent) stripped, which neither starts nor ends with whitespace, together with the model used; a response that is not a string raises AttributeError |
| Ollama.GenerateJsonResults | backend/app/services/ollama_service.py:118-133 | with a target chosen: an error reply is returned as a dict; an absent response gives the empty dict; a string response gives its parsed value, or the invalid-JSON error dict when it does not parse; a response that is not a string raises TypeError |
| Ollama.GenerateJsonRoundTrip | backend/app/services/ollama_service.py:128-130 | a model that answers with the JSON text of a value with unique keys gets exactly that value back |
| Ollama.JsonAnswerCases | backend/app/services/ollama_service.py:124-133 | on the reply alone: an error reply is returned as a dict, an absent response gives the empty dict, a string response its parsed value or the invalid-JSON error dict, and any other response raises TypeError |
| Ollama.EmptyObjectDecodes | backend/app/services/ollama_service.py:128 | the default response text `{}` parses as the empty dict |
| Orchestration.NoPluginNoRun | backend/app/services/orchestration_service.py:40-53 | with no plugin id, or one the registry does not know, the task goes to ERROR with a message naming it, whatever the plugin would have returned |
| Orchestration.PluginCrash | backend/app/services/orchestration_service.py:59-65 | a plugin that raises leaves the task in ERROR with the exception's text |
| Orchestration.PluginMerged | backend/app/services/orchestration_service.py:55-68 | every column the plugin's dict names takes its value; the status is otherwise ANALYZING; every other column is as before |
| Orchestration.EmptyResultsStayAnalyzing | backend/app/services/orchestration_service.py:56-68 | an empty dict leaves the task ANALYZING with nothing else changed |
| Orchestration.GuardFailure | backend/app/services/orchestration_service.py:81-92 | nothing is raised exactly for a code-modifier task with a repository and a non-blank diff; otherwise ValueError for another plugin, RuntimeError without a repository and ValueError for a blank diff, in that order |
| Orchestration.CommittedAnswers | backend/app/services/orchestration_service.py:116-124 | after a successful `git apply`, the no-changes message is answered exactly when the state is clean, and a commit is added exactly when it is not |
| Orchestration.AgentOrchestrator.constructor | backend/app/services/orchestration_service.py:13-28 | the orchestrator holds the database, the plugin registry, the notifier and the repository (null when it could not be opened) |
| Orchestration.AgentOrchestrator.ExecuteTask | backend/app/services/orchestration_service.py:30-74 | an unknown task id changes nothing; otherwise the task becomes `Executed` and exactly the mail for the final record is sent; the permissions, trees, persons and families are untouched, and so are the findings when no plugin runs |
| Orchestration.AgentOrchestrator.FailTask | backend/app/services/orchestration_service.py:41-45 | the ERROR dict is merged into the task, and the mail for the result is sent |
| Orchestration.AgentOrchestrator.RunPlugin | backend/app/services/orchestration_service.py:55-73 | the task is marked ANALYZING, then merged with the plugin's dict (or the crash's ERROR dict), and the mail for the result is sent; the permissions, trees, persons and families are untouched |
| Orchestration.AgentOrchestrator.ApplyAndCommitChanges | backend/app/services/orchestration_service.py:76-143 | guard failures raise before touching the repository; `git apply` reads the patch file from the tree left by writing it and then autostashing; success holds exactly when that file is there and applies; then the no-changes answer comes exactly when the patched tree as `git status` sees it is HEAD's tree, and otherwise one commit of that tree with the task's message; the patch file is removed; a git failure leaves the commits alone and resets the index to HEAD; a patch file that is neither tracked nor ignored always makes `git apply` fail |
| Orchestration.AgentOrchestrator.WriteAndStash | backend/app/services/orchestration_service.py:99-106 | the working tree is the autostash of the tree with the patch file written, the index is HEAD's tree, and history and branches are kept; a patch file that is neither tracked nor ignored is carried off by the autostash |
| Orchestration.AgentOrchestrator.ApplyAndCommitFile | backend/app/services/orchestration_service.py:112-137 | success holds exactly when the patch file exists and applies; then the working tree is the patched tree, the no-changes answer comes exactly when that state is clean, and otherwise one commit of the visible patched tree with the message, leaving a clean repository; a missing patch file raises GitCommandError; a failure resets to HEAD with the commits unchanged |
| Orchestration.AgentOrchestrator.ApplyAndCommitIntended | backend/app/services/orchestration_service.py:76-137 | with the patch applied from outside the working tree, success holds exactly when the patch applies to the stashed tree; then the no-changes answer comes exactly when the patched tree as `git status` sees it is HEAD's tree, and otherwise one commit of that tree with the task's message, leaving a clean repository; a failure resets the repository and adds no commit |
| CodeModifier.StrippedNonBlankSound | backend/app/plugins/code_modifier_plugin.py:331 | every parsed target is a non-empty, stripped piece of the comma-separated string |
| CodeModifier.StrippedNonBlankEmpty | backend/app/plugins/code_modifier_plugin.py:331-334 | no target is parsed exactly when every piece is blank |
| CodeModifier.RuleAllowsExactly | backend/app/plugins/code_modifier_plugin.py:64-76 | as written, `as_posix()` drops the trailing slash, so a rule other than `/` admits only its own path, and `/` admits every absolute path (finding g) |
| CodeModifier.DirectoryRuleCounterexample | backend/app/plugins/code_modifier_plugin.py:68-76 | a rule `dir/` does not admit `dir/<rest>` as written, and does under the corrected test (finding g) |
| CodeModifier.RuleAllowsIntendedExtends | backend/app/plugins/code_modifier_plugin.py:68-76 | the corrected rule test admits everything the written one admits |
| CodeModifier.AllowedIntendedExtends | backend/app/plugins/code_modifier_plugin.py:68-76 | every target some rule admits as written is admitted by the corrected rule test |
| CodeModifier.ReadableIntendedNarrows | backend/app/plugins/code_modifier_plugin.py:95-99 | a target readable under the corrected containment test is readable as written |
| CodeModifier.RawValue | backend/app/plugins/code_modifier_plugin.py:372 | a string explanation is stored as that string, and a null one as NULL |
| CodeModifier.RulePaths | backend/app/plugins/code_modifier_plugin.py:60-61 | the rule set holds exactly the paths of the stored permissions |
| CodeModifier.CheckFrom | backend/app/plugins/code_modifier_plugin.py:63-81 | under either reading of the rule test, the check of the targets from position `i` passes exactly when each is admitted; otherwise a PermissionError naming the first denied target |
| CodeModifier.PermissionCheck | backend/app/plugins/code_modifier_plugin.py:55-82 | under either reading: no targets is a ValueError; otherwise it passes exactly when every normalised target is admitted by some rule, and raises PermissionError for the first one that is not |
| CodeModifier.DeniedMessageNamesPath | backend/app/plugins/code_modifier_plugin.py:79 | the denial message contains the normalised path |
| CodeModifier.CodeModifierPlugin.Admits | backend/app/plugins/code_modifier_plugin.py:66-76 | the inner rule loop answers exactly whether some rule admits the target under the given reading (as written, `RuleAllows`) |
| CodeModifier.CodeModifierPlugin.CheckPermissions | backend/app/plugins/code_modifier_plugin.py:55-82 | the looping check returns exactly `PermissionCheck` over the stored rules under the instance's reading |
| CodeModifier.Resolve | backend/app/plugins/code_modifier_plugin.py:95 | a target resolves to an absolute path |
| CodeModifier.CodebaseBase | backend/app/plugins/code_modifier_plugin.py:98 | `abspath(CODEBASE_PATH)` is `/` followed by one plain directory name |
| CodeModifier.InsideIntendedIsStricter | backend/app/plugins/code_modifier_plugin.py:98 | the corrected containment test admits only what the written prefix test admits |
| CodeModifier.EscapeAsWritten | backend/app/plugins/code_modifier_plugin.py:95-99 | `../<sibling>` whose name extends the codebase's name resolves outside the codebase yet passes the written prefix test, and fails the corrected one (finding a) |
| CodeModifier.SiblingInside | backend/app/plugins/code_modifier_plugin.py:98 | a sibling directory whose name starts with the codebase's name passes the string-prefix test but is not inside (finding a) |
| CodeModifier.PlainPathInside | backend/app/plugins/code_modifier_plugin.py:95-98 | a relative path of plain segments resolves below the codebase and passes the corrected test |
| CodeModifier.ReadFromSucceeds | backend/app/plugins/code_modifier_plugin.py:90-111 | under either containment test, the read loop succeeds exactly when every remaining target is readable; otherwise it raises PermissionError or FileNotFoundError |
| CodeModifier.ReadFromKeys | backend/app/plugins/code_modifier_plugin.py:90-110 | a successful read keeps earlier keys and adds every remaining stripped target |
| CodeModifier.ReadFromFaithful | backend/app/plugins/code_modifier_plugin.py:101-110 | a successful read maps every key to its file's text, or `""` for a missing path |
| CodeModifier.FilesReadOutcome | backend/app/plugins/code_modifier_plugin.py:84-111 | under either containment test (as written, the string-prefix test that lets `../frankie_codebase_old/x.py` through), reading succeeds exactly when every target is readable, and then maps every stripped target to its file's text or `""` |
| CodeModifier.CodeModifierPlugin.ReadFiles | backend/app/plugins/code_modifier_plugin.py:84-111 | the read loop returns exactly `FilesRead` under the instance's reading |
| CodeModifier.CodeModifierPlugin.ReadTarget | backend/app/plugins/code_modifier_plugin.py:91-110 | one pass of the read loop, under the instance's reading, raises what the specification raises at that target or continues it with the new map |
| CodeModifier.LastDot | backend/app/plugins/code_modifier_plugin.py:156 | the position of the last dot, or none when there is no dot |
| CodeModifier.Suffix | backend/app/plugins/code_modifier_plugin.py:155-156 | a suffix is empty or a dot followed by no slash |
| CodeModifier.FormatCode | backend/app/plugins/code_modifier_plugin.py:150-196 | an unknown suffix leaves the code alone; the result is the code or the formatter's output: Black for `.py`, Prettier for the frontend suffixes (`.js`, `.jsx`, `.ts`, `.tsx`, `.json`, `.css`, `.scss`, `.html`, `.md`) when the frontend directory exists |
| CodeModifier.FormatEntry | backend/app/plugins/code_modifier_plugin.py:202-210 | one entry either formats or raises the AttributeError or TypeError Python would raise |
| CodeModifier.FormatEntryShape | backend/app/plugins/code_modifier_plugin.py:202-210 | a well-formed entry becomes a two-key dict with formatted code; a dict without a truthy path or string code passes through unchanged |
| CodeModifier.FormatAll | backend/app/plugins/code_modifier_plugin.py:199-211 | formatting succeeds exactly when every entry does, and then keeps the count and formats each entry in place |
| CodeModifier.CodeModifierPlugin.FormatModifications | backend/app/plugins/code_modifier_plugin.py:199-211 | the formatting loop returns exactly `FormatAll` |
| CodeModifier.UnchangedEntryContributesNothing | backend/app/plugins/code_modifier_plugin.py:227-238 | an entry whose code equals its original adds no diff lines |
| CodeModifier.DiffText | backend/app/plugins/code_modifier_plugin.py:240 | no diff lines give the "no textual changes" placeholder |
| CodeModifier.HeaderCounterexample | backend/app/plugins/code_modifier_plugin.py:230-240 | as written, with `lineterm=""`, a changed file's `---` header runs into its `+++` header; the corrected reading puts each on its own line (finding d) |
| CodeModifier.DiffOfText | backend/app/plugins/code_modifier_plugin.py:213-240 | under either reading the diff is the joined diff lines, or the placeholder |
| CodeModifier.HeaderStart | backend/app/plugins/code_modifier_plugin.py:230-236 | a changed file's diff starts with its `--- a/` and `+++ b/` headers, each ended by the line terminator |
| CodeModifier.CodeModifierPlugin.GenerateDiff | backend/app/plugins/code_modifier_plugin.py:213-240 | the diff loop returns exactly `DiffOf` with the instance's line terminator (`""` as written, a newline as corrected) |
| CodeModifier.BackendDirResolved | backend/app/plugins/code_modifier_plugin.py:282 | the backend directory is the codebase path joined with `backend` |
| CodeModifier.PytestOutcome | backend/app/plugins/code_modifier_plugin.py:287-301 | a test run passes exactly when pytest finished with exit code 0 |
| CodeModifier.SandboxPass | backend/app/plugins/code_modifier_plugin.py:243-308 | the tests pass exactly when a repository is there, the temporary branch could be created, the diff (when applied) applied, the backend directory exists and pytest exits 0 |
| CodeModifier.PlaceholderNotApplied | backend/app/plugins/code_modifier_plugin.py:269 | a blank diff and the placeholder are never applied |
| CodeModifier.CodeModifierPlugin.TestOnTemp | backend/app/plugins/code_modifier_plugin.py:265-301 | the sandbox run on the temporary branch reports `SandboxRun`; commits, stash and index are unchanged, and the branch is created only when it did not exist |
| CodeModifier.CodeModifierPlugin.RunTests | backend/app/plugins/code_modifier_plugin.py:243-320 | the outcome is `Sandbox`; the repository is back on its original branch with its commits, the temporary branch is gone, and a dirty tree was stashed |
| CodeModifier.CodeModifierPlugin.TestInSandbox | backend/app/plugins/code_modifier_plugin.py:249-320 | with a repository: autostash, test on the temporary branch, then restore, with the same outcome and repository state as `RunTests` |
| CodeModifier.CodeModifierPlugin.Autostash | backend/app/plugins/code_modifier_plugin.py:261-263 | a dirty repository is stashed with untracked files, leaving the work tree at HEAD; a clean one is left alone |
| CodeModifier.CodeModifierPlugin.Restore | backend/app/plugins/code_modifier_plugin.py:309-320 | the original branch is force-checked out, the temporary branch deleted, commits and stash kept |
| CodeModifier.AppendNote | backend/app/plugins/code_modifier_plugin.py:354 | appending the note works exactly on a string explanation |
| CodeModifier.ProposedOnlyWhenPermitted | backend/app/plugins/code_modifier_plugin.py:327-364 | under either reading, a proposal exists only when targets were given and every target is admitted by a rule and readable under that reading's containment test (below the codebase, for the corrected reading) |
| CodeModifier.DeniedBeforeReading | backend/app/plugins/code_modifier_plugin.py:336-338 | under either reading, with a target that reading denies, the outcome does not depend on the files or the LLM, and it is a PermissionError naming a denied target |
| CodeModifier.ProposeDenied | backend/app/plugins/code_modifier_plugin.py:336-337 | under either reading, a failed permission check is the outcome of the proposal steps |
| CodeModifier.UnsizedModificationsRaise | backend/app/plugins/code_modifier_plugin.py:350-361 | truthy modifications without a length (a non-zero integer, `true`) raise the TypeError of `len` before any formatting |
| CodeModifier.CodeModifierPlugin.ProposeChanges | backend/app/plugins/code_modifier_plugin.py:336-364 | the imperative proposal steps return exactly `Propose` under the instance's reading |
| CodeModifier.CodeModifierPlugin.ReadAndAsk | backend/app/plugins/code_modifier_plugin.py:338-342 | reading the files and asking the LLM returns exactly `Consult` under the instance's reading |
| CodeModifier.CodeModifierPlugin.InterpretResponse | backend/app/plugins/code_modifier_plugin.py:344-364 | the handling of the LLM answer returns exactly `Interpret` under the instance's reading; the explanation is kept as the raw value |
| CodeModifier.CodeModifierPlugin.Execute | backend/app/plugins/code_modifier_plugin.py:323-388 | under the instance's reading (the code as written, or the corrected tests): a refused task stores ERROR with its message, no modifications store AWAITING_REVIEW with the note, and changes store the raw explanation and the diff with the sandbox's test outcome; only the last touches the repository, and it leaves it on its original ref with the same commits, the index at HEAD, the autostash entry added and the temporary branch gone |
| CodeModifier.CodeModifierPlugin.constructor | backend/app/plugins/code_modifier_plugin.py:26-40 | the plugin holds the session, the task, the repository (null when it could not be opened) and the reading it runs |
| CodeModifier.StrippedNonBlank | backend/app/plugins/code_modifier_plugin.py:331 | never more targets than pieces |
| CodeModifier.ReadFromAll | backend/app/plugins/code_modifier_plugin.py:84-111 | under either containment test, reading all targets succeeds exactly when each is readable, and then every stripped target is a key holding its file's starting content; under the corrected test every read path lies below the codebase |
| CodeModifier.PutFaithful | backend/app/plugins/code_modifier_plugin.py:110 | storing a file's content keeps every key mapped to its file's content |
| CodeModifier.ResolveEscape | backend/app/plugins/code_modifier_plugin.py:95 | `../<name>` resolves to the sibling directory `/<name>` of the code base |
| CodeModifier.SiblingNotBelow | backend/app/plugins/code_modifier_plugin.py:98 | a sibling whose name extends the code base's name passes the string-prefix test, yet is not below the code base |
| Odyssey.PhaseOf | backend/app/plugins/odyssey_plugin.py:183-216 | a stored value names a phase only when it equals that phase's string |
| Odyssey.PhaseOfName | backend/app/plugins/odyssey_plugin.py:11-16 | the six phase strings are told apart: storing a phase's name and dispatching on it gives back that phase |
| Odyssey.Load | backend/app/plugins/odyssey_plugin.py:42-52 | a loaded context always names a phase; an absent or empty context starts at PLANNING |
| Odyssey.Loaded | backend/app/plugins/odyssey_plugin.py:44-50 | unparsable text gives PLANNING; a parsed dict always ends up naming a phase |
| Odyssey.LoadDefaults | backend/app/plugins/odyssey_plugin.py:44-52 | a dict without a phase gets PLANNING added and any other dict is kept as it is; a parsed value that is not a dict raises TypeError |
| Odyssey.LoadSerialised | backend/app/plugins/odyssey_plugin.py:42-57 | loading the JSON the plugin serialised gives back the same dict |
| Odyssey.PutUnique | backend/app/plugins/odyssey_plugin.py:92-94 | setting a key keeps the dict's keys distinct |
| Odyssey.StoredPhase | backend/app/plugins/odyssey_plugin.py:180 | a phase written into the dict is the phase `execute` dispatches on next |
| Odyssey.AddOne | backend/app/plugins/odyssey_plugin.py:125 | `+= 1` on a stored integer adds one; strings, lists and other types raise TypeError |
| Odyssey.PyIndex | backend/app/plugins/odyssey_plugin.py:138 | list indexing succeeds exactly for indices in `-len..len-1`, and gives the element for a non-negative one |
| Odyssey.PhaseUpdateKeys | backend/app/plugins/odyssey_plugin.py:105-109 | a phase update leads with its status and carries the explanation and the serialised dict |
| Odyssey.MilestoneLinesOk | backend/app/plugins/odyssey_plugin.py:100-101 | the milestone lines of the summary can be written exactly when every milestone is a dict, and otherwise raise AttributeError |
| Odyssey.MilestoneStart | backend/app/plugins/odyssey_plugin.py:118-126 | the milestone step goes on only with a non-empty list of milestones |
| Odyssey.PlanMilestones | backend/app/plugins/odyssey_plugin.py:118-123 | a dict plan yields its milestones list, or nothing when that entry is missing or not a list; a truthy plan that is not a dict raises AttributeError |
| Odyssey.MilestoneText | backend/app/plugins/odyssey_plugin.py:128-136 | an index past the last milestone gives the all-executed sentence |
| Odyssey.PlanningFailure | backend/app/plugins/odyssey_plugin.py:88-90 | an LLM error or a plan with no milestones list gives ERROR, stores nothing and leaves the context out of the update |
| Odyssey.PlanningSuccess | backend/app/plugins/odyssey_plugin.py:92-109 | an accepted plan is stored with index -1 and phase AWAITING_PLAN_REVIEW, and the update asks for review and carries the stored dict |
| Odyssey.PlannedKeys | backend/app/plugins/odyssey_plugin.py:92-94 | after planning, the dict holds the plan, index -1 and the plan-review phase |
| Odyssey.ReviewPhasesIdle | backend/app/plugins/odyssey_plugin.py:192-194 | in either review phase `execute` returns `{}` and changes neither the dict nor the task |
| Odyssey.MilestoneStartCases | backend/app/plugins/odyssey_plugin.py:118-126 | a missing or empty plan gives the missing-plan ERROR; otherwise the index moves on from the stored one, or from -1 when none is stored |
| Odyssey.MilestoneIndexStored | backend/app/plugins/odyssey_plugin.py:124-126 | once the step goes on, the new index is stored whatever follows; a stopped step leaves the dict alone |
| Odyssey.MilestoneData | backend/app/plugins/odyssey_plugin.py:126-170 | a milestone step changes the dict only by storing a review or finalizing phase |
| Odyssey.MilestoneNextPhase | backend/app/plugins/odyssey_plugin.py:128-176 | the last milestone and an index past the end go to FINALIZING under IN_PROGRESS; any earlier milestone goes to AWAITING_MILESTONE_REVIEW under AWAITING_REVIEW |
| Odyssey.MilestonePhaseRuns | backend/app/plugins/odyssey_plugin.py:187-190 | EXECUTING_MILESTONE sets the task to IN_PROGRESS and runs the milestone step, or raises with nothing changed when that member is missing |
| Odyssey.FinalizingCompletes | backend/app/plugins/odyssey_plugin.py:196-207 | FINALIZING stores the COMPLETED phase, and the task takes the COMPLETED status, which the update reports |
| Odyssey.CompletedStays | backend/app/plugins/odyssey_plugin.py:209-215 | COMPLETED is final: dict and status unchanged, and the update repeats COMPLETED |
| Odyssey.UnhandledPhase | backend/app/plugins/odyssey_plugin.py:217-219 | an unknown phase gives ERROR naming it and changes nothing |
| Odyssey.DeclaredStatusesStall | backend/app/plugins/odyssey_plugin.py:189 | with `TaskStatus` as declared, the milestone, finalizing and completed phases all raise AttributeError and leave the status alone |
| Odyssey.CompletedStatusesRun | backend/app/plugins/odyssey_plugin.py:187-190 | with the two members added, a milestone step leaves the task IN_PROGRESS |
| Odyssey.CompletedStatusesFinish | backend/app/plugins/odyssey_plugin.py:196-207 | with the two members added, FINALIZING completes the task and stores the COMPLETED phase |
| Odyssey.SummaryLines | backend/app/plugins/odyssey_plugin.py:99-101 | the loop over the milestones returns exactly the milestone lines, or the first error |
| Odyssey.BuildSummary | backend/app/plugins/odyssey_plugin.py:96-102 | the summary built piece by piece is the plan summary |
| Odyssey.OdysseyPlugin.constructor | backend/app/plugins/odyssey_plugin.py:37-40 | the plugin holds the task, the task's status and the given dict |
| Odyssey.OdysseyPlugin.Open | backend/app/plugins/odyssey_plugin.py:37-53 | the plugin's dict is the loaded context; a context that does not load raises |
| Odyssey.OdysseyPlugin.PhasePlanning | backend/app/plugins/odyssey_plugin.py:59-109 | the result and the new dict are those of the planning outcome; the status is unchanged |
| Odyssey.OdysseyPlugin.PhaseExecuteMilestone | backend/app/plugins/odyssey_plugin.py:111-176 | the result and the new dict are those of the milestone outcome; the status is unchanged |
| Odyssey.OdysseyPlugin.Execute | backend/app/plugins/odyssey_plugin.py:178-219 | result, dict and status after one step are the dispatch outcome of the old state |
| Odyssey.OdysseyPlugin.ExecutePlanning | backend/app/plugins/odyssey_plugin.py:183-185 | the PLANNING branch leaves the state of the dispatch outcome |
| Odyssey.OdysseyPlugin.ExecuteMilestone | backend/app/plugins/odyssey_plugin.py:187-190 | the milestone branch leaves the state of the dispatch outcome |
| Admin.Numeric | backend/app/api/endpoints/admin.py:146 | the value `0 <= idx` compares: an int is itself, ints and bools are numbers, anything else raises |
| Json.PyLen | backend/app/api/endpoints/admin.py:146 | `len(...)` of a list is its length; it succeeds exactly on lists, strings and dicts |
| Admin.NextIndex | backend/app/api/endpoints/admin.py:144-147 | with an int index and a milestone list, the next index is `idx + 1` exactly when `0 <= idx < len - 1`; a negative index never evaluates `len` |
| Admin.ApprovalContext | backend/app/api/endpoints/admin.py:137 | a missing or empty context loads as `{}`; other text is parsed as JSON |
| Admin.ApprovePlan | backend/app/api/endpoints/admin.py:139-142 | approving AWAITING_PLAN_REVIEW sets status EXECUTING_MILESTONE, phase EXECUTING_MILESTONE and index 0, and keeps every other key |
| Admin.ApproveMilestone | backend/app/api/endpoints/admin.py:143-152 | approving milestone `i`: index `i + 1` and EXECUTING_MILESTONE when a later milestone exists, otherwise phase FINALIZING and status APPLIED; other keys kept |
| Admin.ApproveOtherPhase | backend/app/api/endpoints/admin.py:153-154 | any other phase raises HTTPException 400 naming the phase |
| Admin.OdysseyUpdate | backend/app/api/endpoints/admin.py:155-159 | the odyssey update dict has distinct keys and only columns of the task record, with values of their types |
| Admin.CommitUpdate | backend/app/api/endpoints/admin.py:135 | the code-modifier update dict has distinct keys and fits the task columns |
| Admin.ApprovalUpdate | backend/app/api/endpoints/admin.py:132-162 | a code-modifier task stores APPLIED and the commit hash or re-raises the commit error; an unknown plugin stores only APPLIED; every update fits the task columns |
| Admin.Approve | backend/app/api/endpoints/admin.py:113-176 | a record is stored only when the answer is the stored task or a 500 |
| Admin.Decide | backend/app/api/endpoints/admin.py:164-176 | a record is stored only when the answer is the stored task or a 500 |
| Admin.ApproveRefused | backend/app/api/endpoints/admin.py:123-128 | an unknown task answers 404 and a task not AWAITING_REVIEW answers 400 with its status; nothing is stored or queued |
| Admin.ApproveCommit | backend/app/api/endpoints/admin.py:133-135 | a code-modifier approval stores APPLIED and the commit hash and answers the stored record |
| Admin.ApproveOther | backend/app/api/endpoints/admin.py:161-162 | a task of another plugin is stored as APPLIED and answered |
| Admin.ApproveFailure | backend/app/api/endpoints/admin.py:168-176 | a ValueError answers 400 with its text and stores nothing; any other exception stores ERROR with the failure message and answers 500 with it |
| Admin.OnlyOdysseyRequeued | backend/app/api/endpoints/admin.py:160 | only an odyssey task whose update was stored is queued to run again |
| Admin.UnexpectedPhaseAnswers500 | backend/app/api/endpoints/admin.py:153-154 | the 400 raised for an unexpected phase is caught by the generic handler: the answer is 500 and the task is left in ERROR |
| Admin.ApproveAndProcess | backend/app/api/endpoints/admin.py:113-176 | the reply, the requeue flag, the task table and the notification outbox are exactly what `Approve` says; the other tables are unchanged |
| Admin.PlanApprovalSkipsFirst | backend/app/api/endpoints/admin.py:139-142 | after the plan approval stores index 0, the next milestone run starts at milestone 1 (finding c) |
| Admin.MilestoneApprovalSkipsOne | backend/app/api/endpoints/admin.py:146-147 | after milestone `i` is approved, the next run starts at `i + 2` (finding c) |
| Admin.TwoMilestonePlanSkipsFirst | backend/app/api/endpoints/admin.py:139-142 | a two-milestone plan never runs its first milestone (finding c) |
| Admin.PlanApprovalStartsAtFirst | backend/app/api/endpoints/admin.py:139-142 | with the index left to the plugin, the first run after the plan approval is milestone 0 |
| Admin.MilestoneApprovalRunsNext | backend/app/api/endpoints/admin.py:143-152 | the corrected approval agrees with the written one on status and phase, and the next run after milestone `i` is `i + 1` |
| Admin.AddAgentPermission | backend/app/api/endpoints/admin.py:192-198 | an existing path answers 400 and stores nothing; a new path is stored; unique paths stay unique; other tables unchanged |
| Admin.DeleteUser | backend/app/api/endpoints/admin.py:49-66 | an unknown id answers 404, deleting oneself 400; otherwise exactly that user is removed |
| Admin.AdminKeepsOwnAccount | backend/app/api/endpoints/admin.py:62-63 | a successful delete never removes the calling admin |
| Admin.DeleteUserAsWritten | backend/app/api/endpoints/admin.py:58-65 | as written, the guards answer 404 and 400 as intended, and every deletion they let through answers 500 (finding h) |
| Admin.DeleteUserAsWrittenFails | backend/app/api/endpoints/admin.py:65 | a deletion the guards admit fails as written and removes exactly that user as intended (finding h) |
| Admin.StartAfter | backend/app/plugins/odyssey_plugin.py:118-126 | with a stored plan holding milestones and an integer index, the next milestone step starts one index further |
| Admin.MilestoneBranch | backend/app/api/endpoints/admin.py:143-152 | approving milestone `i` before the last stores index `i + 1` and the executing phase |
| Admin.MilestoneBranchIntended | backend/app/api/endpoints/admin.py:143-152 | with the index left to the plugin, approving a milestone stores only the next phase: executing before the last milestone, finalizing (and APPLIED) after it |
| GenealogyResearch.ExplainedUpdate | backend/app/plugins/genealogy_research_plugin.py:171 | the answer sets status APPLIED and the explanation, with distinct keys that fit the task columns |
| GenealogyResearch.Configured | backend/app/plugins/genealogy_research_plugin.py:45 | exactly the configured tools are kept |
| GenealogyResearch.Tagged | backend/app/plugins/genealogy_research_plugin.py:182-194 | every result of a tool carries the tool's name; a tool that raised contributes nothing |
| GenealogyResearch.GatheredNamesItsTool | backend/app/plugins/genealogy_research_plugin.py:180-194 | every gathered finding names one of the tools asked |
| GenealogyResearch.FailingToolsSkipped | backend/app/plugins/genealogy_research_plugin.py:193-194 | a tool that raised is skipped and the others' findings are kept |
| GenealogyResearch.MissingFields | backend/app/plugins/genealogy_research_plugin.py:48-68 | the fields researched are exactly the unset dates and places, plus `parents` when no family lists the person as a child |
| GenealogyResearch.AtLeast | backend/app/plugins/genealogy_research_plugin.py:131 | `score >= 30` compares ints and bools and raises for other values |
| GenealogyResearch.Confident | backend/app/plugins/genealogy_research_plugin.py:131 | an answer counts exactly when it is a non-empty dict without `error` whose score (0 when absent) is at least 30 |
| GenealogyResearch.OptText | backend/app/plugins/genealogy_research_plugin.py:140-142 | an optional text field validates exactly when absent, null or a string |
| GenealogyResearch.CitationText | backend/app/plugins/genealogy_research_plugin.py:147 | an absent citation gets the default text; otherwise it must be a string |
| GenealogyResearch.Score | backend/app/plugins/genealogy_research_plugin.py:141 | a stored score is an integer from 0 to 100; an integer outside that range fails validation |
| GenealogyResearch.NamedSources | backend/app/plugins/genealogy_research_plugin.py:144 | exactly the non-empty source names of the raw findings |
| GenealogyResearch.Distinct | backend/app/plugins/genealogy_research_plugin.py:144 | each source name once |
| GenealogyResearch.FirstUrl | backend/app/plugins/genealogy_research_plugin.py:146 | the first non-empty source URL, or None when there is none |
| GenealogyResearch.StoredFindingShape | backend/app/plugins/genealogy_research_plugin.py:131-149 | a stored finding is about the researched person, field and task, UNVERIFIED, with the joined sources and first URL |
| GenealogyResearch.ConfidentAnswerStored | backend/app/plugins/genealogy_research_plugin.py:131-149 | a confident, well-typed answer about gathered findings is stored |
| GenealogyResearch.UnconfidentAnswerIgnored | backend/app/plugins/genealogy_research_plugin.py:131-153 | an answer reporting an error, or scored below 30, stores nothing |
| GenealogyResearch.RaisesAtFirstFailure | backend/app/plugins/genealogy_research_plugin.py:196-198 | the field loop raises exactly when some field's synthesis raises, and with the exception of the first such field |
| GenealogyResearch.RaisesAfterwards | backend/app/plugins/genealogy_research_plugin.py:176-198 | once a synthesis has raised, no later field is researched |
| GenealogyResearch.RunKeepsEarlierFindings | backend/app/plugins/genealogy_research_plugin.py:176-200 | earlier findings are kept unchanged, and every finding the loop adds sits at a fresh key and is one field's suggestion |
| GenealogyResearch.EverySuggestionStored | backend/app/plugins/genealogy_research_plugin.py:196-198 | in a loop that raises nowhere, every field's confident suggestion ends up in the table |
| GenealogyResearch.RunStoresResearched | backend/app/plugins/genealogy_research_plugin.py:131-149 | every finding the loop adds is about the person, this task and a missing field, scored 30 to 100 and UNVERIFIED |
| GenealogyResearch.UnverifiedCounted | backend/app/plugins/genealogy_research_plugin.py:203-206 | a table holding an UNVERIFIED finding of the task counts at least one |
| GenealogyResearch.ReportDiffers | backend/app/plugins/genealogy_research_plugin.py:214-217 | a positive count gives the "potential new findings" text, never the "no new suggestions" one |
| GenealogyResearch.StoredFindingReported | backend/app/plugins/genealogy_research_plugin.py:196-217 | when some field stores a suggestion and nothing raises, the answer reports a positive number of findings |
| GenealogyResearch.GenealogyResearchPlugin.constructor | backend/app/plugins/genealogy_research_plugin.py:30-46 | the plugin starts with the configured Find a Grave tool and no person |
| GenealogyResearch.GenealogyResearchPlugin.IdentifyMissingInfoFields | backend/app/plugins/genealogy_research_plugin.py:48-68 | nothing without a person, otherwise `MissingFields` with the person's number of families as child |
| GenealogyResearch.GenealogyResearchPlugin.GatherRawFindings | backend/app/plugins/genealogy_research_plugin.py:177-194 | the tool loop returns exactly `Gathered` over every tool |
| GenealogyResearch.GenealogyResearchPlugin.AppendTagged | backend/app/plugins/genealogy_research_plugin.py:187-189 | the result loop appends the tool's results tagged with its name |
| GenealogyResearch.GenealogyResearchPlugin.SynthesizeFindings | backend/app/plugins/genealogy_research_plugin.py:70-153 | a confident answer stores its finding under the next key and advances the key; an exception propagates and, like an unconfident answer, stores nothing; other tables unchanged |
| GenealogyResearch.GenealogyResearchPlugin.Execute | backend/app/plugins/genealogy_research_plugin.py:156-217 | a missing target or unknown person answers ERROR and a person with nothing missing answers APPLIED, all storing nothing; otherwise the findings table is the field loop `AfterFields` over the missing fields, the first exception of a synthesis propagates, and without one the answer is APPLIED with the count of the task's UNVERIFIED findings |
| GenealogyResearch.GenealogyResearchPlugin.ResearchFields | backend/app/plugins/genealogy_research_plugin.py:175-200 | the field loop leaves the findings table and next key exactly as `AfterFields` over every missing field, and raises exactly the exception that ends that run |
| GenealogyResearch.GenealogyResearchPlugin.ResearchField | backend/app/plugins/genealogy_research_plugin.py:176-200 | one field: a raising synthesis changes nothing and reports its exception, a field with nothing gathered or no confident answer changes nothing, a confident one is inserted under the next key |
| FindAGrave.LastYear | backend/app/genealogy_tools/findagrave_tool.py:57-61 | no year exactly when no part is four digits; otherwise the year is a four-digit part with none after it |
| FindAGrave.ScanForYear | backend/app/genealogy_tools/findagrave_tool.py:58-61 | the loop over the reversed parts returns exactly `LastYear` |
| FindAGrave.ExtractYear | backend/app/genealogy_tools/findagrave_tool.py:55-69 | the year searched for, "" for a missing or empty date |
| FindAGrave.YearIsLastFourDigitPart | backend/app/genealogy_tools/findagrave_tool.py:56-61 | a year found in a date is one of its four-digit parts |
| FindAGrave.Cleaned | backend/app/genealogy_tools/findagrave_tool.py:81 | exactly the parameters with a non-empty value are kept |
| FindAGrave.QueryOfPerson | backend/app/genealogy_tools/findagrave_tool.py:51-81 | the query holds only non-empty values, always asks for the best order and the first page, and holds a name exactly when the person has one |
| FindAGrave.MemorialLinks | backend/app/genealogy_tools/findagrave_tool.py:97-100 | exactly the links whose href points at a memorial and not at the search page |
| FindAGrave.MemorialFinding | backend/app/genealogy_tools/findagrave_tool.py:109-119 | a finding about existence on the site, with the memorial URL as source and at the end of the citation |
| FindAGrave.Considered | backend/app/genealogy_tools/findagrave_tool.py:92-104 | at most three links are considered, all memorial links |
| FindAGrave.MakeFindings | backend/app/genealogy_tools/findagrave_tool.py:104-119 | the link loop returns one finding per link, in order |
| FindAGrave.SearchPerson | backend/app/genealogy_tools/findagrave_tool.py:46-127 | the query sent is the cleaned parameters and the findings are those of `Found` |
| FindAGrave.FoundShape | backend/app/genealogy_tools/findagrave_tool.py:92-127 | at most three findings, each about the person's existence on the site with a memorial URL |
| FindAGrave.NothingWithoutContainer | backend/app/genealogy_tools/findagrave_tool.py:86-88 | no response, or a page with neither container, gives no findings |
| GenealogyService.Given | backend/app/services/genealogy_service.py:54-59 | an absent or empty value is None, any other is stripped |
| GenealogyService.NamePart | backend/app/services/genealogy_service.py:48-49 | a name part is None exactly when the parser gave fewer parts or an empty one |
| GenealogyService.PersonOf | backend/app/services/genealogy_service.py:41-73 | the person row carries the tree, the pointer, sex defaulting to "U", the stripped name parts and the birth and death data |
| GenealogyService.Individuals | backend/app/services/genealogy_service.py:39-44 | only individual records with a pointer, never more than the elements |
| GenealogyService.People | backend/app/services/genealogy_service.py:39-79 | the first pass stores one person per individual, under consecutive keys |
| GenealogyService.PointerIds | backend/app/services/genealogy_service.py:75 | every mapped key is one of the keys the first pass handed out |
| GenealogyService.PointersMapped | backend/app/services/genealogy_service.py:75 | the pointers mapped are exactly those of the individual records |
| GenealogyService.LastIndividualWins | backend/app/services/genealogy_service.py:75 | a pointer shared by several individuals maps to the last one's key |
| GenealogyService.LastIndexOf | backend/app/services/genealogy_service.py:75 | the last individual carrying the pointer, or -1 |
| GenealogyService.PointerIdsStep | backend/app/services/genealogy_service.py:73-75 | one step of the first pass keeps the pointer map in step with the stored persons |
| GenealogyService.Spouse | backend/app/services/genealogy_service.py:103-109 | a spouse link is set exactly for a non-empty known pointer, to that person's key |
| GenealogyService.ChildIds | backend/app/services/genealogy_service.py:124-128 | the children are exactly the known pointers among the sub-element values |
| GenealogyService.SecondPass | backend/app/services/genealogy_service.py:90-130 | every family stored gets a key handed out during the second pass |
| GenealogyService.FamiliesLinkKnownPersons | backend/app/services/genealogy_service.py:98-128 | every stored family belongs to the tree and links only persons of the first pass |
| GenealogyService.AllFamiliesStored | backend/app/services/genealogy_service.py:91-130 | with no flush failure, every family record with a pointer is stored in file order under consecutive keys |
| GenealogyService.SpouseListedAsChild | backend/app/services/genealogy_service.py:103-128 | a spouse also listed among the sub-element values is appended as a child of the family |
| GenealogyService.PeopleAdded | backend/app/services/genealogy_service.py:73-79 | the first pass adds exactly its persons under fresh keys and keeps every earlier row |
| GenealogyService.StorePeopleStep | backend/app/services/genealogy_service.py:73-75 | one step of the first pass adds the next person under the next key |
| GenealogyService.ImportedFamiliesOf | backend/app/services/genealogy_service.py:89-134 | the second pass seen from the import equals the pass over the first pass's pointer map |
| GenealogyService.GenealogyService.constructor | backend/app/services/genealogy_service.py:10-11 | the service holds the session |
| GenealogyService.GenealogyService.ParseAndStoreGedcom | backend/app/services/genealogy_service.py:13-142 | a parse failure and an empty file raise their ValueErrors and change nothing; otherwise the tree, its persons and its families are stored as `Imported` says |
| GenealogyService.GenealogyService.Import | backend/app/services/genealogy_service.py:31-142 | the tree row gets the next key, then both passes store their rows as `Imported` says |
| GenealogyService.GenealogyService.StoreTree | backend/app/services/genealogy_service.py:38-134 | after both passes the persons and families are those of the specification functions |
| GenealogyService.GenealogyService.StorePersons | backend/app/services/genealogy_service.py:38-79 | the first pass returns the pointer map and stores one person per individual under consecutive keys |
| GenealogyService.GenealogyService.StoreIndividual | backend/app/services/genealogy_service.py:39-75 | one iteration of the first pass keeps the persons, pointer map and next key in step with the elements seen |
| GenealogyService.GenealogyService.LinkFamilies | backend/app/services/genealogy_service.py:89-130 | the second pass returns the families of `SecondPass` and advances the key counter the same way |
| GenealogyService.GenealogyService.AppendChildren | backend/app/services/genealogy_service.py:124-128 | the child loop returns exactly `ChildIds` |
| GenealogyApi.Latin1 | backend/app/api/endpoints/genealogy.py:36-38 | Latin-1 decoding maps each byte to the character with the same code, so it never fails |
| GenealogyApi.Latin1Bytes | backend/app/api/endpoints/genealogy.py:36-38 | the bytes of a text whose characters are all below 256 |
| GenealogyApi.Latin1RoundTrip | backend/app/api/endpoints/genealogy.py:36-38 | Latin-1 decoding loses nothing: encoding the decoded text gives the bytes back |
| GenealogyApi.UploadText | backend/app/api/endpoints/genealogy.py:33-45 | the UTF-8 text when the bytes decode, otherwise the Latin-1 text of exactly those bytes |
| GenealogyApi.ServiceReply | backend/app/api/endpoints/genealogy.py:51-64 | the new tree is answered exactly when the import succeeded; a ValueError answers 400 with its text and anything else the 500 message |
| GenealogyApi.UploadNewGedcomTree | backend/app/api/endpoints/genealogy.py:13-64 | a file name not ending in `.ged` and a blank upload answer 400 and change nothing; otherwise the parse and empty-file errors answer 400 and a good file is imported and answered as a new tree |
| GenealogyApi.ResearchFindingsForPerson | backend/app/api/endpoints/genealogy.py:93-113 | an unknown person answers 404, a person whose tree the user does not own 403; otherwise the first page of 100 of that person's findings, newest first, which holds all of them when there are at most 100 |
| GenealogyApi.ReviewUpdate | backend/app/api/endpoints/genealogy.py:154-158 | the review update has distinct keys, all finding columns with values of their types |
| GenealogyApi.ReviewUpdateMerges | backend/app/api/endpoints/genealogy.py:154-159 | merging the review update sets the status, the review time and the reviewer and nothing else |
| GenealogyApi.DecideReview | backend/app/api/endpoints/genealogy.py:126-185 | an unknown finding answers 404 and a reviewed one 400; accepting without a person answers 404; otherwise the finding is reviewed, and an accepted text field is copied to the person |
| GenealogyApi.AcceptAppliesSuggestion | backend/app/api/endpoints/genealogy.py:143-145 | accepting a finding on a person text field stores the suggested value in that field |
| GenealogyApi.ReviewedOnce | backend/app/api/endpoints/genealogy.py:134-135 | a finding once reviewed cannot be reviewed again |
| GenealogyApi.ReviewTimeAsWritten | backend/app/api/endpoints/genealogy.py:156 | `datetime.timezone` on the class raises AttributeError (finding f) |
| GenealogyApi.ReviewAsWrittenFails | backend/app/api/endpoints/genealogy.py:154-159 | as written, every accept or reject of an unverified finding answers 500 and changes nothing (finding f) |
| GenealogyApi.AdminAcceptResearchFinding | backend/app/api/endpoints/genealogy.py:116-161 | the reply, the persons and the findings are those of `DecideReview` with the clock reading; other tables unchanged |
| GenealogyApi.AdminRejectResearchFinding | backend/app/api/endpoints/genealogy.py:163-185 | the reply and the findings are those of `DecideReview` for a rejection; persons and other tables unchanged |
| Json.In | backend/app/plugins/odyssey_plugin.py:47 | on a dict, membership of the key; TypeError exactly for values that are not a dict, list or string |
| Json.Get | backend/app/plugins/odyssey_plugin.py:88 | on a dict, the stored value or the default; AttributeError on anything else |
| Json.Iterate | backend/app/plugins/odyssey_plugin.py:98 | a list yields its items; only lists, strings and dicts are iterable |
| Json.Print | backend/app/plugins/odyssey_plugin.py:55-57 | the dumped text is non-empty and begins with a character that opens a value |
| Json.ParseValue | backend/app/plugins/odyssey_plugin.py:46 | a successful parse consumes at least one character |
| Json.Hex4RoundTrip | backend/app/plugins/odyssey_plugin.py:46-57 | reading back the four hex digits written for a code unit gives the code unit |
| Json.SurrogateArithmetic | backend/app/plugins/odyssey_plugin.py:46-57 | the surrogate pair written for a character outside the BMP decodes to that character |
| Json.EscapeCharParses | backend/app/plugins/odyssey_plugin.py:46-57 | the escape written for any character parses back to that character |
| Json.QuoteParses | backend/app/plugins/odyssey_plugin.py:46-57 | a quoted string parses back to the string, leaving the rest of the text |
| Json.IntParses | backend/app/plugins/odyssey_plugin.py:46-57 | a printed integer parses back to the integer |
| Json.PrintParses | backend/app/plugins/odyssey_plugin.py:46-57 | behind any whitespace, the dumped text of a value whose objects have unique keys parses back to the value, leaving what follows |
| Json.DecodePrint | backend/app/plugins/odyssey_plugin.py:46-57 | `json.loads(json.dumps(j)) == j` for every value whose objects have unique keys |
| Paths.Root | backend/app/plugins/code_modifier_plugin.py:95 | the kept root is empty, `/` or `//`, and is empty exactly for a relative path |
| Paths.NamedSegments | backend/app/plugins/code_modifier_plugin.py:64-68 | only segments of the path that name something are kept |
| Paths.AsPosix | backend/app/plugins/code_modifier_plugin.py:64-68 | the normalised path is never empty |
| Paths.AsPosixTrailingSlash | backend/app/plugins/code_modifier_plugin.py:68 | a normalised path ends in `/` only when it is a bare root, so a rule written as `dir/` loses its slash |
| Paths.Join | backend/app/plugins/code_modifier_plugin.py:95 | an absolute second part replaces the first, and joining onto an absolute path stays absolute |
| Paths.Normpath | backend/app/plugins/code_modifier_plugin.py:95-98 | never empty, and absolute paths stay absolute |
| Paths.SplitJoin | backend/app/plugins/code_modifier_plugin.py:95 | splitting a `/`-join of slash-free pieces gives the pieces back |
| Paths.NormpathOfPlain | backend/app/plugins/code_modifier_plugin.py:95-98 | an absolute path of plain segments is already normal |
| Paths.NormStackPop | backend/app/plugins/code_modifier_plugin.py:95 | in an absolute path, `..` after a named segment removes that segment |
| Paths.NormpathOfDir | backend/app/plugins/code_modifier_plugin.py:98 | a directory path with a trailing slash normalises to the path without it |
| Paths.NormpathOfParent | backend/app/plugins/code_modifier_plugin.py:95 | `/<dir>/../<name>` normalises to `/<name>` |
| Text.LeadingSpaces | backend/app/plugins/code_modifier_plugin.py:91 | the length of the longest whitespace prefix |
| Text.TrailingSpaces | backend/app/plugins/code_modifier_plugin.py:91 | the length of the longest whitespace suffix |
| Text.Strip | backend/app/plugins/code_modifier_plugin.py:91 | an infix of the text with no whitespace at either end; empty exactly when the text is blank |
| Text.StripIdempotent | backend/app/plugins/code_modifier_plugin.py:331 | stripping twice is stripping once |
| Text.StripUnpadded | backend/app/plugins/code_modifier_plugin.py:331 | a string with no whitespace at either end is its own strip |
| Text.Split | backend/app/plugins/code_modifier_plugin.py:331 | at least one piece, no piece holds the separator, and joining the pieces with it gives the text back |
| Text.WordLength | backend/app/genealogy_tools/findagrave_tool.py:57 | the length of the run of non-whitespace at the start |
| Text.Words | backend/app/genealogy_tools/findagrave_tool.py:57 | every word is non-empty and free of whitespace |
| Text.ReplaceChar | backend/app/genealogy_tools/findagrave_tool.py:57 | the same length, with exactly the occurrences of the character replaced |
| Text.Lower | backend/app/api/endpoints/genealogy.py:24 | the same length, with exactly the ASCII capitals lowered |
| Text.NatToString | backend/app/services/orchestration_service.py:95 | non-empty decimal digits with no leading zero |
| Text.DigitsValueOfNatToString | backend/app/services/orchestration_service.py:95 | reading the digits back gives the number |
| Difflib.FirstLineLength | backend/app/plugins/code_modifier_plugin.py:231 | the first line, with its terminator, is a non-empty prefix of the text |
| Difflib.SplitLines | backend/app/plugins/code_modifier_plugin.py:231-232 | the lines are non-empty and concatenate back to the text; no lines exactly for the empty text |
| Difflib.SplitLinesInjective | backend/app/plugins/code_modifier_plugin.py:231-232 | two texts have the same lines exactly when they are equal |
| Difflib.ConcatStart | backend/app/plugins/code_modifier_plugin.py:236 | joined lines start with their first two lines |
| Difflib.Prefixed | backend/app/plugins/code_modifier_plugin.py:230-235 | each line gets the mark in front, and nothing else changes |
| Difflib.UnifiedDiff | backend/app/plugins/code_modifier_plugin.py:230-235 | nothing exactly for equal inputs; otherwise the `---` and `+++` headers, each ending in the line terminator given, followed by at least a hunk header |
| Dicts.Lookup | backend/app/db/crud.py:69-71 | a key is found exactly when some entry has it |
| Dicts.Put | backend/app/db/crud.py:71 | the key now maps to the new value, and every other key maps to what it did before |
| Dicts.PutNewKey | backend/app/plugins/odyssey_plugin.py:48 | a new key goes last |
| Dicts.LookupAt | backend/app/db/crud.py:69-71 | in a dict without repeated keys, the entry at any position is what a lookup of its key finds |
| Dicts.FirstKeyNotInTail | backend/app/db/crud.py:69-71 | in a dict without repeated keys, the first key does not occur again |
| Git.Untracked | backend/app/plugins/code_modifier_plugin.py:261 | exactly the working-tree files the index does not hold |
| Git.KeepUntracked | backend/app/services/orchestration_service.py:133 | the target tree, with the untracked files put back where the target lacks them; the target's own files keep the target's contents |
| Git.Repo.constructor | backend/app/services/orchestration_service.py:20 | a repository with one commit on one branch, index and working tree equal to its tree, and an empty stash |
| Git.Repo.HeadCommit | backend/app/plugins/code_modifier_plugin.py:253 | HEAD always names an existing commit |
| Git.Repo.Visible | backend/app/plugins/code_modifier_plugin.py:261 | exactly the working-tree files that are tracked or not ignored |
| Git.VisibleOf | backend/app/services/orchestration_service.py:116 | exactly the working-tree files that the index holds or the ignore rules do not exclude, with their contents |
| Git.CommitLeavesClean | backend/app/services/orchestration_service.py:121-124 | after `git add -A` and a commit of the index, the repository is clean: index, HEAD's tree and what `git status` sees are the same |
| Git.Repo.ActiveRef | backend/app/plugins/code_modifier_plugin.py:249-253 | the branch name when on a branch, the hexsha of HEAD when detached |
| Git.Repo.Resolve | backend/app/plugins/code_modifier_plugin.py:313 | a resolved ref names an existing commit, and a branch name resolves to that branch's commit |
| Git.Repo.WriteFile | backend/app/services/orchestration_service.py:99-100 | only the one working-tree file changes |
| Git.Repo.RemoveFile | backend/app/services/orchestration_service.py:139-141 | only that file leaves the working tree |
| Git.Repo.StashPush | backend/app/plugins/code_modifier_plugin.py:261-263 | a dirty repository saves working tree and index on the stash and is left with HEAD's tree plus its ignored files; a clean one is untouched |
| Git.Repo.CreateHead | backend/app/plugins/code_modifier_plugin.py:265 | a new branch at HEAD's commit; an existing name raises and leaves the branches alone |
| Git.Repo.SwitchTo | backend/app/plugins/code_modifier_plugin.py:266 | checking out a branch at HEAD's own commit moves only HEAD |
| Git.Repo.ForceCheckout | backend/app/plugins/code_modifier_plugin.py:313 | succeeds exactly for a known ref, and then HEAD names it (detached for a commit id), the index is its tree and untracked files stay; an unknown ref changes nothing |
| Git.Repo.DeleteHead | backend/app/plugins/code_modifier_plugin.py:314 | succeeds exactly for an existing branch that is not checked out, and removes only it |
| Git.Repo.Apply | backend/app/plugins/code_modifier_plugin.py:276 | succeeds exactly when the patch file exists and its text applies, and then the working tree is the patched tree; otherwise nothing changes and the message says which failure happened |
| Git.Repo.ApplyText | backend/app/services/orchestration_service.py:112 | succeeds exactly when the text applies, and then the working tree is the patched tree |
| Git.Repo.AddAll | backend/app/services/orchestration_service.py:121 | the index becomes the visible working tree |
| Git.Repo.CommitIndex | backend/app/services/orchestration_service.py:124 | exactly one new commit of the index, which HEAD (or its branch) now names |
| Git.Repo.ResetHard | backend/app/services/orchestration_service.py:133 | index and tracked files go back to HEAD's tree, and untracked files stay |
| Git.IgnoredOnly | backend/app/plugins/code_modifier_plugin.py:263 | exactly the untracked files that the ignore rules exclude |
| Git.FirstWithSha | backend/app/plugins/code_modifier_plugin.py:313 | a hit is a commit with that id; no hit means no commit has it |

## Left out

- The HTTP layer is not part of this model. That covers FastAPI routing, dependency injection, authentication and role checks (`core/security.py`, `core/dependencies.py`, the auth, chat and models endpoints, the router), `main.py`, and configuration loading. An endpoint is modelled by its answer: the body it returns, or the status and detail of the HTTPException it raises. An exception FastAPI turns into a 500 is modelled as `HttpError(500, "Internal Server Error")`.
- The endpoints that only read and list (the family-tree list, tree details, the unverified-findings list) are not modelled. The same goes for the CRUD helpers for users and chat history, `get_agent_tasks_by_owner`, `get_family_trees_by_owner` and `get_all_unverified_research_findings`. These are plain queries and carry no rule of their own.
- Concurrency is not modelled. FastAPI's `BackgroundTasks` and the `async` plugin calls are taken as one sequential call each.
- Calls outside the repository are parameters of the operations that make them. These are the LLM (`generate_json` and `generate` replies), the Ollama HTTP endpoints, the genealogy tools' searches, black and prettier, the test runner, the GEDCOM parser, the Find a Grave page, and the UTF-8 decoder.
- The clock is also a parameter. That covers temporary branch names, the review time and the patch file name chosen by `tempfile`.
- Logging is not modelled. Prompt wording is an opaque string.
- SMTP delivery is not modelled. A sent notification is a message in an outbox, reduced to its subject and labelled detail lines. The HTML layout is left out.
- Transaction failures are not modelled: `commit` and `refresh` always succeed. The one exception is a family `flush` in the GEDCOM import, whose outcome is a parameter. A failed flush is modelled as using no id.
- Relationships, timestamps and column defaults the database fills in are not modelled. The exceptions are `status`, `test_status` and `plugin_id`.
- `hasattr` and `setattr` are modelled only for the task and finding columns, and for the person's text attributes. Relationship attributes and SQLAlchemy internals are not.
- Pydantic validation of the request and record schemas is not modelled, with three exceptions for the research finding the genealogy plugin builds: the 0–100 range of `confidence_score` (`GenealogyResearch.Score`), the optional-string type of its text fields (`GenealogyResearch.OptText`), and the string type of the citation (`GenealogyResearch.CitationText`). The `HttpUrl` check on a finding's `source_url`, for example, is left out.
- GenealogyResearch.ValidationMessage: a failed validation carries only the first line of pydantic's message, always as "1 validation error for ResearchFindingCreate". Pydantic counts the failing fields and adds a line per field with its location and reason. The shortened text is what reaches the task's error message through "Critical plugin execution error: ".
- Ollama.Generate: a reply of the request parameter is a JSON object (`Members`). A 2xx reply whose JSON is a list, string or number, which `_make_ollama_request` returns unchecked, is not modelled; `generate` and `generate_json` would then apply `in` and `.get` to it.
- Ollama.Catalog: a server whose JSON answer is not a dict, or whose model entries lack a `name`, makes `list_models_from_server` raise AttributeError or KeyError, which it does not catch. The model only lists the servers it reaches; such an answer is not modelled.
- Crud.Db.UpdateAgentTask: requires every value it sets to fit its column's type (`TaskUpdateFits`). A value of the wrong type, which SQLAlchemy would coerce or reject at commit, is not modelled. The callers `Orchestration.AgentOrchestrator.ExecuteTask` and `Admin.Decide` inherit the same requirement on the plugin's dict.
- Orchestration.AgentOrchestrator.ExecuteTask: the plugin's `execute` is a parameter (what it returned or raised), so what it writes through the shared session is not composed here. The research plugin's findings are modelled in `GenealogyResearch.GenealogyResearchPlugin.Execute`; the contract promises the findings table unchanged only on the paths where no plugin runs.
- Orchestration.AgentOrchestrator.RunPlugin: leaves the findings table open for the same reason.
- Crud.Db: one key counter (`nextId`) serves every table, where the database keeps one sequence per table, so the model's ids differ from the database's. No contract depends on the absolute value of an id, only on ids being fresh and increasing.
- Orchestration.AgentOrchestrator.ExecuteTask: as written, with notifications configured and enabled, the final `notify_task_status_change` raises NameError (finding (i)). The task record is already stored as `Executed` says, no mail is sent, and the exception ends the background task.
- Orchestration.AgentOrchestrator.FailTask: as written, the same NameError follows the stored ERROR update; no mail is sent and `execute_task` ends with the exception.
- Orchestration.AgentOrchestrator.RunPlugin: as written, the same NameError follows the merged update; no mail is sent and `execute_task` ends with the exception.
- Admin.ApproveAndProcess: as written, with notifications configured and enabled, the NameError is raised after the approval update is stored (and, for a code-modifier task, after the commit). The generic handler stores ERROR with "Failed to approve/process task #<id>: name 'enum' is not defined", its own notification raises again, and the client gets an unhandled 500. An odyssey task is not requeued, because the background task does not run after a failed request.
- Crud.Db.FindingsForPerson: orders by primary key instead of `created_at`. Keys are handed out in creation order, so the two orders agree except for findings created within the same clock tick, which SQL leaves in no fixed order.
- Crud.Db.UpdateResearchFinding: requires the same of the finding columns (`FindingUpdateFits`).
- Plugins.PluginManager.LoadPlugins: module import and class inspection by `importlib` and `inspect` are given as a listing. Each file comes with the outcome of importing it and the classes found in it.
- Json.Decode: numbers are integers only, so a text with a fraction or an exponent is modelled as undecodable where `json.loads` would return a float. `Infinity` and `NaN` are also treated as undecodable. The JSONDecodeError message text is not modelled.
- Difflib.UnifiedDiff: a changed file is modelled as one hunk that covers the whole file, not difflib's minimal hunks with three lines of context. Correct in full: empty output for equal inputs, the `---`/`+++` headers, the line terminator, and concatenation across files.
- Text.IsDigits and Text.Lower: only ASCII letters and digits are covered. `str.isdigit()` also accepts other Unicode digits, and `lower()` folds non-ASCII letters.
- GenealogyResearch: `source_name` joins the distinct tool names in first-seen order. Python iterates over the set in an unspecified order.
- GenealogyApi.UploadNewGedcomTree: the Latin-1 fallback decodes every byte string, so the "Could not decode" 400 branch cannot be reached and is not modelled.
- Odyssey: every value the plugin puts into its texts through `str()` (f-string interpolation) is rendered by `Json.Display`, which prints a list or dict as its JSON text where Python prints its repr (single quotes, `True`, `None`). This covers the milestone names and descriptions in `Odyssey.MilestoneLine` and `Odyssey.PlanSummary`, the plan title and summary, the bullets of the clarifying questions, the milestone name, description and tool names in `Odyssey.MilestoneReport`, the next milestone's name in the review text, the LLM error in the planning-error message, and a non-string phase value in the unhandled-phase message. Strings, integers, booleans and `None` read the same in both.
- CodeModifier.Interpret: a list or dict `error` value in the LLM's answer is rendered by the JSON printer (`Json.Display`), where Python's `str()` gives its repr with single quotes. Strings, integers, booleans and `None` read the same in both.
- CodeModifier.CodeModifierPlugin.InterpretResponse: renders the `error` value the same way as `CodeModifier.Interpret`.
- CodeModifier.RawValue: a boolean, list or dict explanation, which the source hands unconverted to the `llm_explanation` text column, is stored in its printed form.
- Admin.UnexpectedPhaseMessage: a list or dict phase value is rendered by the JSON printer, not by Python's `str()`.

## Findings

| source | as written | input that shows it | evidently intended | confidence | as-written member | corrected member |
|---|---|---|---|---|---|---|
| backend/app/plugins/code_modifier_plugin.py:98 | the containment test is a plain string-prefix test of `abspath(join(CODEBASE_PATH, p))` against `abspath(CODEBASE_PATH)` | target `../frankie_codebase_old/x.py` resolves to `/frankie_codebase_old/x.py`, which starts with `/frankie_codebase` | the resolved path is the codebase directory itself or lies below it (`base + "/"` prefix) | not executed | CodeModifier.EscapeAsWritten | CodeModifier.ReadFromAll |
| backend/app/plugins/odyssey_plugin.py:189 | entering EXECUTING_MILESTONE, FINALIZING or COMPLETED reads `TaskStatus.IN_PROGRESS` or `TaskStatus.COMPLETED`, which `TaskStatus` (backend/app/db/models.py:36-45) does not declare | any odyssey task whose stored phase is EXECUTING_MILESTONE: `execute` raises AttributeError and the orchestrator sets ERROR | the enumeration declares both statuses and the milestone and finalising phases run | not executed | Odyssey.DeclaredStatusesStall | Odyssey.CompletedStatusesRun |
| backend/app/api/endpoints/admin.py:141 | plan approval stores index 0 and milestone approval stores `idx + 1`, then the plugin increments the index again (backend/app/plugins/odyssey_plugin.py:124-126) | a plan of two milestones: approving the plan makes the plugin run milestone 1 and milestone 0 never runs | the approval sets the phase only and the plugin alone advances the index, so milestone 0 runs first and none is skipped | not executed | Admin.TwoMilestonePlanSkipsFirst | Admin.PlanApprovalStartsAtFirst |
| backend/app/plugins/code_modifier_plugin.py:230-240 | `unified_diff(..., lineterm="")` output joined with `""` | one changed file `p`: the diff starts `--- a/p+++ b/p` on a single line | every header and hunk line ends with a newline, so the diff is a valid patch | not executed | CodeModifier.HeaderCounterexample | CodeModifier.CodeModifierPlugin.GenerateDiff |
| backend/app/services/orchestration_service.py:99-106 | the patch file is written into the working tree before `is_dirty(untracked_files=True)` and `stash -u`, so the stash carries the patch file away and `git apply` cannot find it | a clean repository whose ignore rules do not cover the patch file name | the patch file is kept outside what the stash takes, and the stash runs before it is written | not executed | Orchestration.AgentOrchestrator.WriteAndStash | Orchestration.AgentOrchestrator.ApplyAndCommitIntended |
| backend/app/api/endpoints/genealogy.py:156 | `datetime.now(datetime.timezone.utc)` where `datetime` is the class, which has no `timezone` attribute (also at line 180) | accepting or rejecting any UNVERIFIED finding: AttributeError, answered 500, nothing stored | the review time is the current UTC time and the review is stored | not executed | GenealogyApi.ReviewAsWrittenFails | GenealogyApi.AdminAcceptResearchFinding |
| backend/app/plugins/code_modifier_plugin.py:64-76 | the rule is normalised with `as_posix()`, which drops a trailing `/`, so the directory-rule branch is reachable only for `/` | rule `src/` and target `src/main.py`: refused with PermissionError | a rule written with a trailing `/` admits its directory and everything below it | not executed | CodeModifier.DirectoryRuleCounterexample | CodeModifier.RuleAllowsIntendedExtends |
| backend/app/api/endpoints/admin.py:65 | calls `crud.delete_user`, which backend/app/db/crud.py does not define | an admin deleting any other existing user: AttributeError, answered 500, nothing deleted | the user is removed and the deleted user is returned | not executed | Admin.DeleteUserAsWrittenFails | Admin.DeleteUser |
| backend/app/services/notification_service.py:73 | `isinstance(task.status, enum.Enum)` with `enum` never imported | a configured, enabled service notified of a task in any status: NameError before the status is read, no mail; a task in ERROR shows it as the one status that should mail and cannot | the status is compared as an enumeration member and the ERROR mail is sent | not executed | Notifications.ErrorMailAsWritten | Notifications.NotificationService.Mailed |
