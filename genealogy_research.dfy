/** The genealogy research plugin: for a target person it lists the
    missing pieces of information, asks every configured tool about the
    person, lets the LLM weigh what came back for each missing piece, and
    stores a research finding for every confident suggestion. Tool searches
    and LLM replies are parameters: `search(i, j)` is what tool `j` returned
    while field `i` was researched, `responses(i)` what `generate_json` gave
    for field `i`. */
module GenealogyResearch {
  import opened Wrappers
  import opened Text
  import opened Dicts
  import opened Json
  import opened Models
  import opened Crud
  import opened FindAGrave

  const PluginId := "genealogy_researcher"
  /** Suggestions scored below this are not stored. */
  const Threshold := 30
  const NoCitation := "Citation not generated by LLM."
  /** The text pydantic's ValidationError (a ValueError) carries. */
  const ValidationMessage := "1 validation error for ResearchFindingCreate"

  const NoTargetMessage := "No target person ID specified for genealogy research."

  function NotFoundMessage(id: int): string {
    "Target person with ID " + IntToString(id) + " not found in database."
  }

  const NothingMissingExplanation := "No missing information identified for this person to research. Task considered complete as no action was needed."

  const ResearchDone := "Research process complete. "

  const NoneFoundExplanation := ResearchDone + "No" + " new confident suggestions were found for the missing information based on available sources and tools."

  /** The closing explanation, given the task's number of UNVERIFIED findings. */
  function ResearchExplanation(unverified: nat): string {
    if unverified > 0 then
      ResearchDone + IntToString(unverified)
      + " potential new findings were identified and have been saved for your review in the Genealogy Review panel."
    else NoneFoundExplanation
  }

  /** `{"status": APPLIED, "llm_explanation": text}`. */
  function ExplainedUpdate(text: string): (u: Update)
    ensures TaskUpdateFits(u) && UniqueKeys(u)
    ensures Lookup(u, "status") == Some(VStatus(Applied)) && Lookup(u, "llm_explanation") == Some(VStr(text))
  {
    assert TaskColumn("status") == Some(StatusCol);
    assert TaskColumn("llm_explanation") == Some(OptStrCol);
    [("status", VStatus(Applied)), ("llm_explanation", VStr(text))]
  }

  // ---------------------------------------------------------------------
  // Tools

  datatype Tool = Tool(name: string, isConfigured: bool)

  /** The only tool the plugin creates; it needs no configuration. */
  const FindAGraveTool := Tool(ToolName, true)

  /** The configured tools, in their order. */
  function Configured(tools: seq<Tool>): (r: seq<Tool>)
    ensures forall t :: t in r <==> t in tools && t.isConfigured
    ensures |r| <= |tools|
  {
    if |tools| == 0 then []
    else (if tools[0].isConfigured then [tools[0]] else []) + Configured(tools[1..])
  }

  /** A tool's results with the tool's name attached; a tool that raised
      contributes nothing. */
  function Tagged(results: Result<seq<RawFinding>>, name: string): (r: seq<RawFinding>)
    ensures forall k :: 0 <= k < |r| ==> r[k].sourceName == Some(name)
    ensures results.Ok? ==> |r| == |results.value|
    ensures results.Raise? ==> r == []
  {
    if results.Raise? then []
    else seq(|results.value|, k requires 0 <= k < |results.value| => results.value[k].(sourceName := Some(name)))
  }

  /** Everything the first `n` tools returned for field `field`. */
  function Gathered(tools: seq<Tool>, field: nat, search: (nat, nat) -> Result<seq<RawFinding>>, n: nat): seq<RawFinding>
    requires n <= |tools|
  {
    if n == 0 then [] else Gathered(tools, field, search, n - 1) + Tagged(search(field, n - 1), tools[n - 1].name)
  }

  /** Every gathered finding names the tool it came from. */
  lemma {:induction false} GatheredNamesItsTool(tools: seq<Tool>, field: nat, search: (nat, nat) -> Result<seq<RawFinding>>, n: nat)
    requires n <= |tools|
    ensures forall k :: 0 <= k < |Gathered(tools, field, search, n)| ==>
      exists j :: 0 <= j < n && Gathered(tools, field, search, n)[k].sourceName == Some(tools[j].name)
  {
    if n > 0 {
      GatheredNamesItsTool(tools, field, search, n - 1);
      var before: seq<RawFinding> := Gathered(tools, field, search, n - 1);
      var last: seq<RawFinding> := Tagged(search(field, n - 1), tools[n - 1].name);
      var all := Gathered(tools, field, search, n);
      assert all == before + last;
      forall k | 0 <= k < |all|
        ensures exists j :: 0 <= j < n && all[k].sourceName == Some(tools[j].name)
      {
        if k < |before| {
          var j :| 0 <= j < n - 1 && before[k].sourceName == Some(tools[j].name);
          assert (before + last)[k] == before[k];
        } else {
          assert (before + last)[k] == last[k - |before|];
          assert last[k - |before|].sourceName == Some(tools[n - 1].name);
        }
      }
    } else {
      assert Gathered(tools, field, search, n) == [];
    }
  }

  /** A tool that raised is skipped: the gathered findings are those of a
      run in which it had returned nothing. */
  lemma {:induction false} FailingToolsSkipped(tools: seq<Tool>, field: nat, search: (nat, nat) -> Result<seq<RawFinding>>, n: nat)
    requires n <= |tools|
    ensures Gathered(tools, field, search, n)
         == Gathered(tools, field, (i: nat, j: nat) => if search(i, j).Raise? then Ok([]) else search(i, j), n)
  {
    if n > 0 {
      FailingToolsSkipped(tools, field, search, n - 1);
    }
  }

  // ---------------------------------------------------------------------
  // Missing information

  /** `not value`: a missing or empty text attribute. */
  predicate Unset(v: Option<string>) {
    v.None? || v.value == ""
  }

  /** The dates and places a person may lack, in the order they are checked. */
  const DatesAndPlaces := ["birth_date", "birth_place", "death_date", "death_place"]

  /** The fields to research: every unset date or place, in that order, then
      "parents" when no family lists the person as a child. */
  function MissingFields(p: Person, familiesAsChild: nat): (r: seq<string>)
    ensures forall f :: f in r <==> (f in DatesAndPlaces && Unset(PersonGet(p, f))) || (f == "parents" && familiesAsChild == 0)
    ensures forall f :: f in r && f != "parents" ==> IsPersonTextField(f)
  {
    (if Unset(p.birthDate) then ["birth_date"] else [])
    + (if Unset(p.birthPlace) then ["birth_place"] else [])
    + (if Unset(p.deathDate) then ["death_date"] else [])
    + (if Unset(p.deathPlace) then ["death_place"] else [])
    + (if familiesAsChild == 0 then ["parents"] else [])
  }

  // ---------------------------------------------------------------------
  // Weighing the LLM's answer

  /** `score >= n` in Python: ints and bools compare, other values raise. */
  function AtLeast(score: Json, n: int): (r: Result<bool>)
    ensures r.Ok? <==> score.JInt? || score.JBool?
    ensures score.JInt? ==> r == Ok(score.i >= n)
  {
    match score
    case JInt(i) => Ok(i >= n)
    case JBool(b) => Ok((if b then 1 else 0) >= n)
    case _ => Raise(Exc(TypeError, "'>=' not supported between instances of '" + TypeName(score) + "' and 'int'"))
  }

  /** `response and "error" not in response and response.get("confidence_score", 0) >= 30`. */
  function Confident(response: Json): (r: Result<bool>)
    ensures r == Ok(true) <==>
      response.JObj? && Lookup(response.members, "error").None?
      && Lookup(response.members, "confidence_score").Some?
      && Lookup(response.members, "confidence_score").value.JInt?
      && Lookup(response.members, "confidence_score").value.i >= Threshold
    ensures r.Raise? ==> r.exc.kind == TypeError || r.exc.kind == AttributeError
  {
    if !Truthy(response) then Ok(false)
    else
      var hasError :- In("error", response);
      if hasError then Ok(false)
      else
        var score :- Get(response, "confidence_score", JInt(0));
        AtLeast(score, Threshold)
  }

  /** An optional text field of the finding: absent or null is None, a
      string is kept, anything else fails validation. */
  function OptText(j: Option<Json>): (r: Result<Option<string>>)
    ensures r.Ok? <==> j.None? || j.value.JNull? || j.value.JStr?
    ensures j.Some? && j.value.JStr? ==> r == Ok(Some(j.value.s))
  {
    if j.None? || j.value.JNull? then Ok(None)
    else if j.value.JStr? then Ok(Some(j.value.s))
    else Raise(Exc(ValueError, ValidationMessage))
  }

  /** The citation: the default when absent, a string when given. */
  function CitationText(j: Option<Json>): (r: Result<string>)
    ensures j.None? ==> r == Ok(NoCitation)
    ensures r.Ok? <==> j.None? || j.value.JStr?
  {
    if j.None? then Ok(NoCitation)
    else if j.value.JStr? then Ok(j.value.s)
    else Raise(Exc(ValueError, ValidationMessage))
  }

  /** The score: an integer between 0 and 100, or absent. */
  function Score(j: Option<Json>): (r: Result<Option<int>>)
    ensures j.Some? && j.value.JInt? && 0 <= j.value.i <= 100 ==> r == Ok(Some(j.value.i))
    ensures r.Ok? && r.value.Some? ==> 0 <= r.value.value <= 100
    ensures j.Some? && j.value.JInt? && !(0 <= j.value.i <= 100) ==> r.Raise?
  {
    if j.None? || j.value.JNull? then Ok(None)
    else if j.value.JInt? && 0 <= j.value.i <= 100 then Ok(Some(j.value.i))
    else if j.value.JBool? then Ok(Some(if j.value.b then 1 else 0))
    else Raise(Exc(ValueError, ValidationMessage))
  }

  /** The non-empty source names, in order, repeats included. */
  function NamedSources(raw: seq<RawFinding>): (r: seq<string>)
    ensures forall n :: n in r <==> n != "" && exists k :: 0 <= k < |raw| && raw[k].sourceName == Some(n)
  {
    if |raw| == 0 then []
    else
      var rest := NamedSources(raw[1..]);
      assert forall n :: (exists k :: 0 <= k < |raw[1..]| && raw[1..][k].sourceName == Some(n))
                     <==> (exists k :: 1 <= k < |raw| && raw[k].sourceName == Some(n));
      (if raw[0].sourceName.Some? && raw[0].sourceName.value != "" then [raw[0].sourceName.value] else []) + rest
  }

  /** Each name once, at its first occurrence. */
  function Distinct(names: seq<string>): (r: seq<string>)
    ensures forall n :: n in r <==> n in names
    ensures forall i, j :: 0 <= i < j < |r| ==> r[i] != r[j]
    decreases |names|
  {
    if |names| == 0 then []
    else
      var d := Distinct(names[..|names| - 1]);
      assert forall n :: n in names <==> n in names[..|names| - 1] || n == names[|names| - 1];
      if names[|names| - 1] in d then d else d + [names[|names| - 1]]
  }

  /** `", ".join(set(...))` of the named sources. */
  function SourceName(raw: seq<RawFinding>): string {
    JoinWith(Distinct(NamedSources(raw)), ", ")
  }

  /** The first non-empty source URL. */
  function FirstUrl(raw: seq<RawFinding>): (r: Option<string>)
    ensures r.None? <==> forall k :: 0 <= k < |raw| ==> Unset(raw[k].sourceUrl)
    ensures r.Some? ==> r.value != "" && exists k :: (0 <= k < |raw| && raw[k].sourceUrl == r
      && forall j :: 0 <= j < k ==> Unset(raw[j].sourceUrl))
  {
    if |raw| == 0 then None
    else if !Unset(raw[0].sourceUrl) then raw[0].sourceUrl
    else
      var r := FirstUrl(raw[1..]);
      assert forall k :: 1 <= k < |raw| ==> raw[k] == raw[1..][k - 1];
      r
  }

  /** The finding to create from a confident answer (its id is assigned on
      insertion); fields of the wrong type fail validation. */
  function Suggestion(p: Person, taskId: int, field: string, raw: seq<RawFinding>, ms: Members): Result<ResearchFinding> {
    var suggested :- OptText(Lookup(ms, "suggested_value"));
    var score :- Score(Lookup(ms, "confidence_score"));
    var reasoning :- OptText(Lookup(ms, "llm_reasoning"));
    var citation :- CitationText(Lookup(ms, "citation_text"));
    Ok(ResearchFinding(0, p.id, taskId, field, PersonGet(p, field), suggested, SourceName(raw), FirstUrl(raw),
                       citation, score, reasoning, Unverified, None, None))
  }

  /** The outcome of synthesising one field: nothing to weigh, a reply
      that is not confident, or the finding to store; an exception of the
      LLM call, of the comparison or of validation propagates. */
  function Synthesis(p: Person, taskId: int, field: string, raw: seq<RawFinding>, response: Result<Json>): Result<Option<ResearchFinding>> {
    if |raw| == 0 then Ok(None)
    else
      var answer :- response;
      var confident :- Confident(answer);
      if !confident then Ok(None)
      else
        var f :- Suggestion(p, taskId, field, raw, answer.members);
        Ok(Some(f))
  }

  /** A field for which no tool gathered anything stores nothing. */
  lemma NothingGathered(p: Person, taskId: int, field: string, raw: seq<RawFinding>, response: Result<Json>)
    requires |raw| == 0
    ensures Synthesis(p, taskId, field, raw, response) == Ok(None)
  {
  }

  /** What every stored finding of a research run looks like. */
  predicate Researched(f: ResearchFinding, p: Person, taskId: int) {
    f.personId == p.id && f.agentTaskId == taskId && f.status == Unverified
    && f.reviewedAt.None? && f.reviewedById.None?
    && f.confidenceScore.Some? && Threshold <= f.confidenceScore.value <= 100
    && f.originalValue == PersonGet(p, f.dataField)
  }

  /** A stored finding is about the researched person, field and task,
      awaits review, carries a score of at least 30 and the tools' sources. */
  lemma StoredFindingShape(p: Person, taskId: int, field: string, raw: seq<RawFinding>, response: Result<Json>)
    requires Synthesis(p, taskId, field, raw, response).Ok?
    requires Synthesis(p, taskId, field, raw, response).value.Some?
    ensures var f := Synthesis(p, taskId, field, raw, response).value.value;
      Researched(f, p, taskId) && f.dataField == field
      && f.sourceName == SourceName(raw) && f.sourceUrl == FirstUrl(raw)
  {
    var answer := response.value;
    assert Confident(answer) == Ok(true);
    var ms := answer.members;
    var j := Lookup(ms, "confidence_score");
    assert j.Some? && j.value.JInt? && j.value.i >= Threshold;
    var f := Suggestion(p, taskId, field, raw, ms).value;
    assert Score(j).Ok?;
  }

  /** A confident, well-typed answer about gathered findings is stored. */
  lemma ConfidentAnswerStored(p: Person, taskId: int, field: string, raw: seq<RawFinding>, ms: Members, score: int)
    requires |raw| > 0
    requires Lookup(ms, "error").None? && Lookup(ms, "confidence_score") == Some(JInt(score))
    requires Threshold <= score <= 100
    requires Lookup(ms, "suggested_value").None? || Lookup(ms, "suggested_value").value.JStr?
    requires Lookup(ms, "llm_reasoning").None? || Lookup(ms, "llm_reasoning").value.JStr?
    requires Lookup(ms, "citation_text").None? || Lookup(ms, "citation_text").value.JStr?
    ensures var s := Synthesis(p, taskId, field, raw, Ok(JObj(ms)));
      s.Ok? && s.value.Some? && s.value.value.confidenceScore == Some(score)
      && (Lookup(ms, "citation_text").None? ==> s.value.value.citationText == NoCitation)
  {
    assert Confident(JObj(ms)) == Ok(true);
  }

  /** A reply without a score, or scored below 30, or reporting an error,
      stores nothing. */
  lemma UnconfidentAnswerIgnored(p: Person, taskId: int, field: string, raw: seq<RawFinding>, ms: Members)
    requires Lookup(ms, "error").Some?
      || Lookup(ms, "confidence_score").None?
      || (Lookup(ms, "confidence_score").value.JInt? && Lookup(ms, "confidence_score").value.i < Threshold)
    ensures Synthesis(p, taskId, field, raw, Ok(JObj(ms))) == Ok(None)
  {
    var c := Confident(JObj(ms));
    assert c != Ok(true);
    if |ms| > 0 {
      assert Truthy(JObj(ms));
      assert In("error", JObj(ms)) == Ok(Lookup(ms, "error").Some?);
      if Lookup(ms, "error").None? {
        var score := Get(JObj(ms), "confidence_score", JInt(0));
        assert score.Ok? && score.value.JInt?;
      }
    }
  }

  // ---------------------------------------------------------------------
  // The research loop

  /** What one research run works from: the person, the task, the tools,
      the missing fields in order, and what the tools and the LLM answered. */
  datatype Inquiry = Inquiry(person: Person, taskId: int, tools: seq<Tool>, missing: seq<string>,
                             search: (nat, nat) -> Result<seq<RawFinding>>, responses: nat -> Result<Json>)

  /** The outcome of synthesising field `i` over everything the tools
      gathered for it (nothing gathered: no LLM call, nothing stored). */
  function FieldOutcome(q: Inquiry, i: nat): Result<Option<ResearchFinding>>
    requires i < |q.missing|
  {
    Synthesis(q.person, q.taskId, q.missing[i], Gathered(q.tools, i, q.search, |q.tools|), q.responses(i))
  }

  /** Every field's outcome, in the order the fields are researched. */
  function Outcomes(q: Inquiry): (r: seq<Result<Option<ResearchFinding>>>)
    ensures |r| == |q.missing|
    ensures forall i :: 0 <= i < |r| ==> r[i] == FieldOutcome(q, i)
  {
    seq(|q.missing|, i requires 0 <= i < |q.missing| => FieldOutcome(q, i))
  }

  /** An outcome that stores a finding. */
  predicate Suggests(out: Result<Option<ResearchFinding>>) {
    out.Ok? && out.value.Some?
  }

  /** The findings table and the key the next row gets. */
  datatype Store = Store(findings: map<int, ResearchFinding>, nextId: int)

  /** Every stored key is below the next one. */
  predicate KeysBelow(s: Store) {
    forall k :: k in s.findings ==> k < s.nextId
  }

  /** The store with a finding added under the next key. */
  function Insert(s: Store, f: ResearchFinding): Store {
    Store(s.findings[s.nextId := f.(id := s.nextId)], s.nextId + 1)
  }

  /** The field loop of `execute` over the first `n` outcomes: each stored
      suggestion is inserted, and the first outcome that raises ends the run
      with its exception and the store as it then is. */
  function AfterFields(outs: seq<Result<Option<ResearchFinding>>>, start: Store, n: nat): (Option<Exc>, Store)
    requires n <= |outs|
  {
    if n == 0 then (None, start)
    else
      var before := AfterFields(outs, start, n - 1);
      if before.0.Some? then before
      else match outs[n - 1]
        case Raise(e) => (Some(e), before.1)
        case Ok(found) => (None, if found.Some? then Insert(before.1, found.value) else before.1)
  }

  /** The run raises exactly when some field's synthesis raises, and then
      with the exception of the first such field. */
  lemma {:induction false} RaisesAtFirstFailure(outs: seq<Result<Option<ResearchFinding>>>, start: Store, n: nat)
    requires n <= |outs|
    ensures AfterFields(outs, start, n).0.Some? <==> exists i :: 0 <= i < n && outs[i].Raise?
    ensures AfterFields(outs, start, n).0.Some? ==>
      exists i :: 0 <= i < n && outs[i] == Raise(AfterFields(outs, start, n).0.value)
                  && forall j :: 0 <= j < i ==> outs[j].Ok?
  {
    if n > 0 {
      RaisesAtFirstFailure(outs, start, n - 1);
      if AfterFields(outs, start, n - 1).0.Some? {
        var i :| 0 <= i < n - 1 && outs[i] == Raise(AfterFields(outs, start, n - 1).0.value)
                 && forall j :: 0 <= j < i ==> outs[j].Ok?;
        assert AfterFields(outs, start, n) == AfterFields(outs, start, n - 1);
      } else if outs[n - 1].Raise? {
        assert forall j :: 0 <= j < n - 1 ==> outs[j].Ok?;
      }
    }
  }

  /** One more field: what its outcome does to the store. */
  lemma FieldStep(outs: seq<Result<Option<ResearchFinding>>>, start: Store, i: nat, s: Store)
    requires i < |outs| && AfterFields(outs, start, i) == (None, s)
    ensures outs[i].Raise? ==> AfterFields(outs, start, i + 1) == (Some(outs[i].exc), s)
    ensures outs[i] == Ok(None) ==> AfterFields(outs, start, i + 1) == (None, s)
    ensures Suggests(outs[i]) ==> AfterFields(outs, start, i + 1) == (None, Insert(s, outs[i].value.value))
  {
  }

  /** Once the run has raised, later fields change nothing. */
  lemma {:induction false} RaisesAfterwards(outs: seq<Result<Option<ResearchFinding>>>, start: Store, m: nat, n: nat)
    requires m <= n <= |outs|
    requires AfterFields(outs, start, m).0.Some?
    ensures AfterFields(outs, start, n) == AfterFields(outs, start, m)
    decreases n - m
  {
    if m < n {
      RaisesAfterwards(outs, start, m, n - 1);
    }
  }

  /** Earlier findings stay as they were; every finding the run adds sits
      at a fresh key and is, but for its key, the suggestion of one of the
      fields researched. */
  lemma {:induction false} RunKeepsEarlierFindings(outs: seq<Result<Option<ResearchFinding>>>, start: Store, n: nat)
    requires n <= |outs| && KeysBelow(start)
    ensures var s := AfterFields(outs, start, n).1;
      KeysBelow(s) && start.nextId <= s.nextId
      && (forall k :: k in start.findings ==> k in s.findings && s.findings[k] == start.findings[k])
      && (forall k :: k in s.findings && k !in start.findings ==>
            start.nextId <= k
            && exists i :: 0 <= i < n && Suggests(outs[i]) && s.findings[k] == outs[i].value.value.(id := k))
  {
    if n > 0 {
      RunKeepsEarlierFindings(outs, start, n - 1);
      var before := AfterFields(outs, start, n - 1);
      if before.0.None? && outs[n - 1].Ok? && outs[n - 1].value.Some? {
        var g := outs[n - 1].value.value;
        var s := AfterFields(outs, start, n).1;
        assert s == Insert(before.1, g);
        forall k | k in s.findings && k !in start.findings
          ensures exists i :: 0 <= i < n && Suggests(outs[i]) && s.findings[k] == outs[i].value.value.(id := k)
        {
          if k != before.1.nextId {
            var i :| 0 <= i < n - 1 && Suggests(outs[i]) && before.1.findings[k] == outs[i].value.value.(id := k);
          } else {
            assert Suggests(outs[n - 1]);
          }
        }
      }
    }
  }

  /** In a run that raises nowhere, every stored suggestion is in the table
      under some key. */
  lemma {:induction false} EverySuggestionStored(outs: seq<Result<Option<ResearchFinding>>>, start: Store, n: nat, i: nat)
    requires i < n <= |outs| && KeysBelow(start)
    requires AfterFields(outs, start, n).0.None?
    requires Suggests(outs[i])
    ensures exists k :: k in AfterFields(outs, start, n).1.findings
                        && AfterFields(outs, start, n).1.findings[k] == outs[i].value.value.(id := k)
  {
    var before := AfterFields(outs, start, n - 1);
    assert before.0.None?;
    if i == n - 1 {
      var k := before.1.nextId;
      assert AfterFields(outs, start, n).1 == Insert(before.1, outs[i].value.value);
      assert AfterFields(outs, start, n).1.findings[k] == outs[i].value.value.(id := k);
    } else {
      EverySuggestionStored(outs, start, n - 1, i);
      RunKeepsEarlierFindings(outs, start, n - 1);
      var k :| k in before.1.findings && before.1.findings[k] == outs[i].value.value.(id := k);
      assert k < before.1.nextId;
    }
  }

  /** Every finding a research run adds is about the researched person,
      task and one of the missing fields, scored at least 30, and awaits
      review. */
  lemma RunStoresResearched(q: Inquiry, start: Store)
    requires KeysBelow(start)
    ensures var s := AfterFields(Outcomes(q), start, |q.missing|).1;
      forall k :: k in s.findings && k !in start.findings ==>
        Researched(s.findings[k], q.person, q.taskId) && s.findings[k].dataField in q.missing
  {
    var outs := Outcomes(q);
    var s := AfterFields(outs, start, |q.missing|).1;
    RunKeepsEarlierFindings(outs, start, |q.missing|);
    forall k | k in s.findings && k !in start.findings
      ensures Researched(s.findings[k], q.person, q.taskId) && s.findings[k].dataField in q.missing
    {
      var i :| 0 <= i < |q.missing| && Suggests(outs[i]) && s.findings[k] == outs[i].value.value.(id := k);
      StoredFindingShape(q.person, q.taskId, q.missing[i], Gathered(q.tools, i, q.search, |q.tools|), q.responses(i));
    }
  }

  /** A table holding an UNVERIFIED finding of the task counts it. */
  lemma UnverifiedCounted(findings: map<int, ResearchFinding>, taskId: int, k: int)
    requires k in findings && findings[k].agentTaskId == taskId && findings[k].status == Unverified
    ensures UnverifiedOf(findings, taskId) > 0
  {
    var counted := set k | k in findings && findings[k].agentTaskId == taskId && findings[k].status == Unverified;
    assert k in counted;
    assert |counted| == 0 ==> counted == {};
  }

  /** With findings to report, the explanation is not the "nothing found" one. */
  lemma ReportDiffers(n: nat)
    requires n > 0
    ensures ResearchExplanation(n) != NoneFoundExplanation
  {
    assert NoneFoundExplanation[|ResearchDone|] == 'N';
    assert ResearchExplanation(n)[|ResearchDone|] == IntToString(n)[0];
  }

  /** A run that stores a suggestion and raises nowhere ends with the task
      reporting its UNVERIFIED findings rather than "no new suggestions". */
  lemma StoredFindingReported(q: Inquiry, start: Store, i: nat)
    requires i < |q.missing| && KeysBelow(start)
    requires AfterFields(Outcomes(q), start, |q.missing|).0.None?
    requires Suggests(FieldOutcome(q, i))
    ensures UnverifiedOf(AfterFields(Outcomes(q), start, |q.missing|).1.findings, q.taskId) > 0
    ensures ResearchExplanation(UnverifiedOf(AfterFields(Outcomes(q), start, |q.missing|).1.findings, q.taskId))
            != NoneFoundExplanation
  {
    var outs := Outcomes(q);
    var s := AfterFields(outs, start, |q.missing|).1;
    EverySuggestionStored(outs, start, |q.missing|, i);
    StoredFindingShape(q.person, q.taskId, q.missing[i], Gathered(q.tools, i, q.search, |q.tools|), q.responses(i));
    var k :| k in s.findings && s.findings[k] == outs[i].value.value.(id := k);
    UnverifiedCounted(s.findings, q.taskId, k);
    ReportDiffers(UnverifiedOf(s.findings, q.taskId));
  }

  // ---------------------------------------------------------------------
  // The plugin

  class GenealogyResearchPlugin {
    const db: Db
    const task: AgentTask
    const tools: seq<Tool>
    /** The person being researched, once loaded. */
    var person: Option<Person>

    constructor (db: Db, task: AgentTask)
      ensures this.db == db && this.task == task
      ensures tools == Configured([FindAGraveTool]) && person.None?
    {
      this.db := db;
      this.task := task;
      tools := Configured([FindAGraveTool]);
      person := None;
    }

    /** `_identify_missing_info_fields`: nothing without a loaded person. */
    method IdentifyMissingInfoFields() returns (fields: seq<string>)
      ensures fields == if person.None? then [] else MissingFields(person.value, db.FamiliesWithChild(person.value.id))
    {
      if person.None? {
        return [];
      }
      var p := person.value;
      fields := [];
      if Unset(p.birthDate) { fields := fields + ["birth_date"]; }
      if Unset(p.birthPlace) { fields := fields + ["birth_place"]; }
      if Unset(p.deathDate) { fields := fields + ["death_date"]; }
      if Unset(p.deathPlace) { fields := fields + ["death_place"]; }
      if db.FamiliesWithChild(p.id) == 0 { fields := fields + ["parents"]; }
    }

    /** The loop over the tools in `execute`: asks every tool, skipping
        those that raise. */
    method GatherRawFindings(field: nat, search: (nat, nat) -> Result<seq<RawFinding>>) returns (raw: seq<RawFinding>)
      ensures raw == Gathered(tools, field, search, |tools|)
    {
      raw := [];
      var j := 0;
      while j < |tools|
        invariant 0 <= j <= |tools|
        invariant raw == Gathered(tools, field, search, j)
      {
        var results := search(field, j);
        if results.Ok? {
          raw := AppendTagged(raw, results.value, tools[j].name);
        } else {
          assert Tagged(results, tools[j].name) == [];
        }
        j := j + 1;
      }
    }

    /** The loop over one tool's results: each is tagged with the tool's
        name and appended. */
    method AppendTagged(raw: seq<RawFinding>, results: seq<RawFinding>, name: string) returns (all: seq<RawFinding>)
      ensures all == raw + Tagged(Ok(results), name)
    {
      all := raw;
      var k := 0;
      while k < |results|
        invariant 0 <= k <= |results|
        invariant all == raw + Tagged(Ok(results), name)[..k]
      {
        assert Tagged(Ok(results), name)[..k + 1] == Tagged(Ok(results), name)[..k] + [results[k].(sourceName := Some(name))];
        all := all + [results[k].(sourceName := Some(name))];
        k := k + 1;
      }
      assert Tagged(Ok(results), name)[..k] == Tagged(Ok(results), name);
    }

    /** `_synthesize_findings_with_llm`: stores the finding the answer
        supports, if any. */
    method SynthesizeFindings(p: Person, raw: seq<RawFinding>, field: string, response: Result<Json>)
      returns (r: Result<Option<ResearchFinding>>)
      requires db.Valid()
      modifies db
      ensures db.Valid()
      ensures var s := Synthesis(p, task.id, field, raw, response);
        (s.Raise? ==> r == Raise(s.exc) && db.findings == old(db.findings) && db.nextId == old(db.nextId))
        && (s.Ok? && s.value.None? ==> r == Ok(None) && db.findings == old(db.findings) && db.nextId == old(db.nextId))
        && (s.Ok? && s.value.Some? ==>
              r == Ok(Some(s.value.value.(id := old(db.nextId))))
              && db.findings == old(db.findings)[old(db.nextId) := r.value.value] && db.nextId == old(db.nextId) + 1)
      ensures db.tasks == old(db.tasks) && db.permissions == old(db.permissions) && db.trees == old(db.trees)
      ensures db.persons == old(db.persons) && db.families == old(db.families)
    {
      var s := Synthesis(p, task.id, field, raw, response);
      if s.Raise? {
        return Raise(s.exc);
      }
      if s.value.None? {
        return Ok(None);
      }
      var f := s.value.value;
      var stored := db.CreateResearchFinding(f.personId, f.agentTaskId, f.dataField, f.originalValue,
                                             f.suggestedValue, f.sourceName, f.sourceUrl, f.citationText,
                                             f.confidenceScore, f.llmReasoning);
      r := Ok(Some(stored));
    }

    /** `execute`: the early answers for a missing target or a person with
        nothing missing; otherwise every missing field is researched and the
        explanation reports the task's UNVERIFIED findings. Rows other than
        the new findings are left as they were. */
    method Execute(search: (nat, nat) -> Result<seq<RawFinding>>, responses: nat -> Result<Json>)
      returns (r: Result<Update>)
      requires db.Valid()
      modifies this, db
      ensures db.Valid()
      ensures db.tasks == old(db.tasks) && db.permissions == old(db.permissions) && db.trees == old(db.trees)
      ensures db.persons == old(db.persons) && db.families == old(db.families)
      ensures Unset0(task.targetPersonId) ==>
        r == Ok(ErrorUpdate(NoTargetMessage)) && db.findings == old(db.findings) && db.nextId == old(db.nextId)
      ensures !Unset0(task.targetPersonId) && task.targetPersonId.value !in old(db.persons) ==>
        r == Ok(ErrorUpdate(NotFoundMessage(task.targetPersonId.value)))
        && db.findings == old(db.findings) && db.nextId == old(db.nextId)
      ensures !Unset0(task.targetPersonId) && task.targetPersonId.value in old(db.persons) ==>
        var p := old(db.persons)[task.targetPersonId.value];
        var missing := MissingFields(p, db.FamiliesWithChild(p.id));
        var run := AfterFields(Outcomes(Inquiry(p, task.id, tools, missing, search, responses)),
                               Store(old(db.findings), old(db.nextId)), |missing|);
        person == Some(p)
        && (missing == [] ==>
              r == Ok(ExplainedUpdate(NothingMissingExplanation)) && db.findings == old(db.findings) && db.nextId == old(db.nextId))
        && (missing != [] ==>
              db.findings == run.1.findings && db.nextId == run.1.nextId
              && (run.0.Some? ==> r == Raise(run.0.value))
              && (run.0.None? ==> r == Ok(ExplainedUpdate(ResearchExplanation(UnverifiedOf(run.1.findings, task.id))))))
    {
      var target := task.targetPersonId;
      if target.None? || target.value == 0 {
        return Ok(ErrorUpdate(NoTargetMessage));
      }
      person := db.GetPerson(target.value);
      if person.None? {
        return Ok(ErrorUpdate(NotFoundMessage(target.value)));
      }
      var p := person.value;
      var missing := IdentifyMissingInfoFields();
      if |missing| == 0 {
        return Ok(ExplainedUpdate(NothingMissingExplanation));
      }
      var done := ResearchFields(p, missing, search, responses);
      if done.Raise? {
        return Raise(done.exc);
      }
      var n := db.UnverifiedFindingsOfTask(task.id);
      r := Ok(ExplainedUpdate(ResearchExplanation(n)));
    }

    /** One pass of the field loop: gather from every tool, then synthesise
        when anything was gathered. Answers the exception that ends the run,
        if any. */
    method ResearchField(p: Person, missing: seq<string>, i: nat, search: (nat, nat) -> Result<seq<RawFinding>>,
                         responses: nat -> Result<Json>)
      returns (stop: Option<Exc>)
      requires i < |missing| && db.Valid()
      modifies db
      ensures db.Valid()
      ensures db.tasks == old(db.tasks) && db.permissions == old(db.permissions) && db.trees == old(db.trees)
      ensures db.persons == old(db.persons) && db.families == old(db.families)
      ensures var out := FieldOutcome(Inquiry(p, task.id, tools, missing, search, responses), i);
        (out.Raise? ==> stop == Some(out.exc) && db.findings == old(db.findings) && db.nextId == old(db.nextId))
        && (out == Ok(None) ==> stop.None? && db.findings == old(db.findings) && db.nextId == old(db.nextId))
        && (Suggests(out) ==> stop.None? && Store(db.findings, db.nextId) == Insert(Store(old(db.findings), old(db.nextId)), out.value.value))
    {
      var raw := GatherRawFindings(i, search);
      if |raw| == 0 {
        NothingGathered(p, task.id, missing[i], raw, responses(i));
        return None;
      }
      var s := SynthesizeFindings(p, raw, missing[i], responses(i));
      stop := if s.Raise? then Some(s.exc) else None;
    }

    /** The outer loop of `execute`, over the missing fields. */
    method ResearchFields(p: Person, missing: seq<string>, search: (nat, nat) -> Result<seq<RawFinding>>,
                          responses: nat -> Result<Json>)
      returns (r: Result<bool>)
      requires db.Valid()
      modifies db
      ensures db.Valid()
      ensures db.tasks == old(db.tasks) && db.permissions == old(db.permissions) && db.trees == old(db.trees)
      ensures db.persons == old(db.persons) && db.families == old(db.families)
      ensures var run := AfterFields(Outcomes(Inquiry(p, task.id, tools, missing, search, responses)),
                                     Store(old(db.findings), old(db.nextId)), |missing|);
        db.findings == run.1.findings && db.nextId == run.1.nextId
        && (run.0.Some? ==> r == Raise(run.0.value))
        && (run.0.None? ==> r == Ok(true))
    {
      ghost var outs := Outcomes(Inquiry(p, task.id, tools, missing, search, responses));
      ghost var start := Store(db.findings, db.nextId);
      var i := 0;
      while i < |missing|
        invariant 0 <= i <= |missing|
        invariant db.Valid()
        invariant db.tasks == old(db.tasks) && db.permissions == old(db.permissions) && db.trees == old(db.trees)
        invariant db.persons == old(db.persons) && db.families == old(db.families)
        invariant AfterFields(outs, start, i) == (None, Store(db.findings, db.nextId))
      {
        ghost var before := Store(db.findings, db.nextId);
        var stop := ResearchField(p, missing, i, search, responses);
        FieldStep(outs, start, i, before);
        if stop.Some? {
          RaisesAfterwards(outs, start, i + 1, |missing|);
          return Raise(stop.value);
        }
        i := i + 1;
      }
      r := Ok(true);
    }
  }

  /** `not task.target_person_id`: absent or 0. */
  predicate Unset0(id: Option<int>) {
    id.None? || id.value == 0
  }
}
