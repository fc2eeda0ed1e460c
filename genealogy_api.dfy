/** The genealogy endpoints of backend/app/api/endpoints/genealogy.py that
    decide something: uploading a GEDCOM file, listing the research
    findings about a person for the owner of the person's tree, and an
    administrator accepting or rejecting a finding. As in `Admin`, an
    endpoint's answer is its body or the HTTPException it raises. */
module GenealogyApi {
  import opened Wrappers
  import opened Text
  import opened Dicts
  import opened Models
  import opened Crud
  import opened GenealogyService
  import opened Admin

  // ---------------------------------------------------------------------
  // Upload

  const InvalidFileTypeMessage := "Invalid file type. Please upload a valid .ged (GEDCOM) file."
  const EmptyUploadMessage := "Uploaded GEDCOM file is empty or contains no parsable content."
  const UnexpectedUploadMessage := "An unexpected error occurred while processing the GEDCOM file."

  /** The upload's file name is present, non-empty and ends in ".ged" in
      any letter case. */
  predicate IsGedcomFileName(name: Option<string>) {
    name.Some? && |name.value| > 0 && EndsWith(Lower(name.value), ".ged")
  }

  /** `bytes.decode('latin-1')`: byte n is code point n, so the decoding
      never fails. */
  function Latin1(b: seq<bv8>): (r: string)
    ensures |r| == |b|
    ensures forall i :: 0 <= i < |b| ==> r[i] as int == b[i] as int && r[i] as int < 256
  {
    seq(|b|, i requires 0 <= i < |b| => (b[i] as int) as char)
  }

  /** `str.encode('latin-1')` of a text whose code points are all below 256. */
  function Latin1Bytes(s: string): (r: seq<bv8>)
    requires forall i :: 0 <= i < |s| ==> s[i] as int < 256
    ensures |r| == |s|
  {
    seq(|s|, i requires 0 <= i < |s| => (s[i] as int) as bv8)
  }

  /** Decoding with Latin-1 loses nothing: encoding the text again gives
      back the uploaded bytes. */
  lemma Latin1RoundTrip(b: seq<bv8>)
    ensures Latin1Bytes(Latin1(b)) == b
  {
    var r := Latin1Bytes(Latin1(b));
    forall i | 0 <= i < |b|
      ensures r[i] == b[i]
    {
      assert Latin1(b)[i] as int == b[i] as int;
    }
  }

  /** The uploaded text: the UTF-8 decoding when the bytes are valid UTF-8
      (`utf8`, computed outside the model), else the Latin-1 decoding. */
  function UploadText(content: seq<bv8>, utf8: Option<string>): (r: string)
    ensures utf8.Some? ==> r == utf8.value
    ensures utf8.None? ==> (forall i :: 0 <= i < |r| ==> r[i] as int < 256) && Latin1Bytes(r) == content
  {
    if utf8.Some? then utf8.value
    else
      Latin1RoundTrip(content);
      Latin1(content)
  }

  /** The service's answer turned into the endpoint's: a ValueError (the
      parse and empty-file errors) is a 400 carrying its message, any
      other exception a 500 with a fixed message. */
  function ServiceReply(res: Result<FamilyTree>): (r: Reply<FamilyTree>)
    ensures r.Body? <==> res.Ok?
    ensures r.Body? ==> r.value == res.value
    ensures res.Raise? ==> (r.code == 400 <==> IsValueError(res.exc.kind))
    ensures res.Raise? && IsValueError(res.exc.kind) ==> r.detail == res.exc.msg
    ensures res.Raise? && !IsValueError(res.exc.kind) ==> r == HttpError(500, UnexpectedUploadMessage)
  {
    match res
    case Ok(tree) => Body(tree)
    case Raise(e) =>
      if IsValueError(e.kind) then HttpError(400, e.msg) else HttpError(500, UnexpectedUploadMessage)
  }

  /** `upload_new_gedcom_tree`: the file name and the decoded text are
      checked before the service runs; a rejected upload changes nothing.
      `parsed` is what the GEDCOM parser makes of the text. */
  method UploadNewGedcomTree(service: GenealogyService, fileName: Option<string>, content: seq<bv8>,
                             utf8: Option<string>, parsed: Result<seq<Element>>, ownerId: int,
                             flushOk: nat -> bool)
    returns (reply: Reply<FamilyTree>)
    requires service.db.Valid()
    modifies service.db
    ensures service.db.Valid()
    ensures !IsGedcomFileName(fileName) ==> reply == HttpError(400, InvalidFileTypeMessage)
    ensures IsGedcomFileName(fileName) && IsBlank(UploadText(content, utf8)) ==>
      reply == HttpError(400, EmptyUploadMessage)
    ensures !IsGedcomFileName(fileName) || IsBlank(UploadText(content, utf8)) ==> unchanged(service.db)
    ensures IsGedcomFileName(fileName) && !IsBlank(UploadText(content, utf8)) ==>
      (parsed.Raise? ==> reply == HttpError(400, UnparsableMessage(fileName.value)))
      && (parsed.Ok? && |parsed.value| == 0 ==> reply == HttpError(400, EmptyFileMessage(fileName.value)))
      && (parsed.Ok? && |parsed.value| > 0 ==>
            reply == Body(FamilyTree(old(service.db.nextId), fileName.value, ownerId))
            && Imported(parsed.value, reply.value, flushOk, old(service.db.trees), old(service.db.persons),
                        old(service.db.families), service.db.trees, service.db.persons,
                        service.db.families, service.db.nextId))
    ensures reply.HttpError? ==>
      (service.db.trees == old(service.db.trees) && service.db.persons == old(service.db.persons)
       && service.db.families == old(service.db.families) && service.db.nextId == old(service.db.nextId))
    ensures service.db.tasks == old(service.db.tasks) && service.db.permissions == old(service.db.permissions)
      && service.db.findings == old(service.db.findings)
  {
    if fileName.None? || |fileName.value| == 0 || !EndsWith(Lower(fileName.value), ".ged") {
      return HttpError(400, InvalidFileTypeMessage);
    }
    var text := UploadText(content, utf8);
    if |Strip(text)| == 0 {
      return HttpError(400, EmptyUploadMessage);
    }
    var res := service.ParseAndStoreGedcom(parsed, fileName.value, ownerId, flushOk);
    reply := ServiceReply(res);
  }

  // ---------------------------------------------------------------------
  // Findings about a person

  const PersonNotFoundMessage := "Person not found."
  const NotTreeOwnerMessage := "Not authorized to view findings for this person as you do not own the tree."

  /** `get_research_findings_for_person`: the keys of the findings about
      the person, newest first and at most 100, for the owner of the
      person's tree only. */
  function ResearchFindingsForPerson(db: Db, personId: int, userId: int): (r: Reply<seq<int>>)
    reads db
    ensures personId !in db.persons ==> r == HttpError(404, PersonNotFoundMessage)
    ensures r.Body? <==> personId in db.persons && db.persons[personId].treeId in db.trees
                         && db.trees[db.persons[personId].treeId].ownerId == userId
    ensures personId in db.persons && r.HttpError? ==> r == HttpError(403, NotTreeOwnerMessage)
    ensures r.Body? ==> r.value == db.FindingsForPerson(personId, 0, 100)
    ensures r.Body? ==> forall i :: 0 <= i < |r.value| ==> r.value[i] in db.findings && db.findings[r.value[i]].personId == personId
    ensures r.Body? && |db.AboutPerson(personId)| <= 100 ==>
      forall k :: k in db.findings && db.findings[k].personId == personId ==> k in r.value
  {
    var person := db.GetPerson(personId);
    if person.None? then HttpError(404, PersonNotFoundMessage)
    else if db.GetOwnedTree(person.value.treeId, userId).None? then HttpError(403, NotTreeOwnerMessage)
    else Body(db.FindingsForPerson(personId, 0, 100))
  }

  // ---------------------------------------------------------------------
  // Reviewing a finding

  const FindingNotFoundMessage := "Research finding not found."
  const PersonMissingMessage := "Associated person for this finding not found. Data integrity issue."

  function NotUnverifiedMessage(s: FindingStatus): string {
    "Finding is not UNVERIFIED. Current status: " + FindingStatusValue(s)
  }

  /** The three columns a review sets. */
  function ReviewUpdate(verdict: FindingStatus, now: int, adminId: int): (u: Update)
    ensures FindingUpdateFits(u) && UniqueKeys(u)
  {
    [("status", VFinding(verdict)), ("reviewed_at", VTime(now)), ("reviewed_by_id", VInt(adminId))]
  }

  /** A finding after a review at time `now` by the administrator. */
  function Reviewed(f: ResearchFinding, verdict: FindingStatus, now: int, adminId: int): ResearchFinding {
    f.(status := verdict, reviewedAt := Some(now), reviewedById := Some(adminId))
  }

  /** Storing the review update sets exactly the three review columns. */
  lemma {:induction false} ReviewUpdateMerges(f: ResearchFinding, verdict: FindingStatus, now: int, adminId: int)
    ensures MergeFinding(f, ReviewUpdate(verdict, now, adminId)) == Reviewed(f, verdict, now, adminId)
  {
    var u := ReviewUpdate(verdict, now, adminId);
    var f1 := FindingSet(f, "status", VFinding(verdict));
    var f2 := FindingSet(f1, "reviewed_at", VTime(now));
    var f3 := FindingSet(f2, "reviewed_by_id", VInt(adminId));
    assert u[1..][1..][1..] == [];
    assert MergeFinding(f2, u[1..][1..]) == MergeFinding(f3, []) == f3;
    assert MergeFinding(f1, u[1..]) == f3;
    assert MergeFinding(f, u) == f3;
  }

  /** What a review answers and what it leaves to store: the person row
      (accepting only) and the finding row. */
  datatype Review = Review(reply: Reply<ResearchFinding>, person: Option<Person>, finding: Option<ResearchFinding>)

  /** A review of the finding `found` (`accept` or reject), given the
      finding's person `person` and the outcome of computing the review
      time `stamp`. Acceptance writes the suggested value into the person
      when the finding names one of the person's text attributes. An
      exception while computing the time escapes the endpoint: FastAPI
      answers 500 and, with no commit reached, nothing is stored. */
  function DecideReview(found: Option<ResearchFinding>, person: Option<Person>, accept: bool,
                        stamp: Result<int>, adminId: int): (r: Review)
    ensures found.None? ==> r == Review(HttpError(404, FindingNotFoundMessage), None, None)
    ensures found.Some? && found.value.status != Unverified ==>
      r == Review(HttpError(400, NotUnverifiedMessage(found.value.status)), None, None)
    ensures r.reply.Body? <==>
      found.Some? && found.value.status == Unverified && (accept ==> person.Some?) && stamp.Ok?
    ensures r.reply.Body? ==>
      r.reply.value == Reviewed(found.value, if accept then FindingStatus.Accepted else FindingStatus.Rejected, stamp.value, adminId)
      && r.finding == Some(r.reply.value)
    ensures r.reply.HttpError? ==> r.person.None? && r.finding.None?
    ensures r.person.Some? <==> r.reply.Body? && accept && IsPersonTextField(found.value.dataField)
    ensures r.person.Some? ==>
      r.person.value == PersonSet(person.value, found.value.dataField, found.value.suggestedValue)
  {
    if found.None? then Review(HttpError(404, FindingNotFoundMessage), None, None)
    else
      var f := found.value;
      if f.status != Unverified then Review(HttpError(400, NotUnverifiedMessage(f.status)), None, None)
      else if accept && person.None? then Review(HttpError(404, PersonMissingMessage), None, None)
      else if stamp.Raise? then Review(HttpError(500, InternalServerErrorMessage), None, None)
      else
        var updated := Reviewed(f, if accept then FindingStatus.Accepted else FindingStatus.Rejected, stamp.value, adminId);
        var changed := if accept && IsPersonTextField(f.dataField)
                       then Some(PersonSet(person.value, f.dataField, f.suggestedValue)) else None;
        Review(Body(updated), changed, Some(updated))
  }

  /** After an acceptance the person holds the suggested value in the
      finding's field and every other attribute as before. */
  lemma AcceptAppliesSuggestion(f: ResearchFinding, p: Person, now: int, adminId: int)
    requires f.status == Unverified && IsPersonTextField(f.dataField)
    ensures var r := DecideReview(Some(f), Some(p), true, Ok(now), adminId);
      r.person.Some? && PersonGet(r.person.value, f.dataField) == f.suggestedValue
      && (forall k :: IsPersonTextField(k) && k != f.dataField ==> PersonGet(r.person.value, k) == PersonGet(p, k))
      && r.person.value.id == p.id && r.person.value.treeId == p.treeId && r.person.value.gedcomId == p.gedcomId
  {
  }

  /** A finding is reviewed at most once: after either verdict a second
      review is refused with 400 and stores nothing. */
  lemma ReviewedOnce(f: ResearchFinding, p: Option<Person>, accept: bool, now: int, adminId: int,
                     q: Option<Person>, again: bool, later: Result<int>, otherAdmin: int)
    requires DecideReview(Some(f), p, accept, Ok(now), adminId).reply.Body?
    ensures var first := DecideReview(Some(f), p, accept, Ok(now), adminId);
      var second := DecideReview(first.finding, q, again, later, otherAdmin);
      second.reply == HttpError(400, NotUnverifiedMessage(if accept then FindingStatus.Accepted else FindingStatus.Rejected))
      && second.person.None? && second.finding.None?
  {
  }

  /** `datetime.now(datetime.timezone.utc)` where `datetime` names the
      class `datetime.datetime`, as the module imports it: the class has no
      attribute `timezone`. */
  function ReviewTimeAsWritten(): (r: Result<int>)
    ensures r.Raise? && r.exc.kind == AttributeError
  {
    Raise(Exc(AttributeError, "type object 'datetime.datetime' has no attribute 'timezone'"))
  }

  /** As written, every review that passes the checks fails with 500 and
      the finding stays UNVERIFIED: neither verdict can be recorded. */
  lemma ReviewAsWrittenFails(f: ResearchFinding, p: Option<Person>, accept: bool, adminId: int)
    requires f.status == Unverified && (accept ==> p.Some?)
    ensures DecideReview(Some(f), p, accept, ReviewTimeAsWritten(), adminId)
            == Review(HttpError(500, InternalServerErrorMessage), None, None)
  {
  }

  /** `admin_accept_research_finding`, with the review time `now` computed
      as intended. */
  method AdminAcceptResearchFinding(db: Db, findingId: int, now: int, adminId: int)
    returns (reply: Reply<ResearchFinding>)
    requires db.Valid()
    modifies db
    ensures db.Valid()
    ensures var found := old(db.GetFinding(findingId));
      var person := if found.Some? then old(db.GetPerson(found.value.personId)) else None;
      var d := DecideReview(found, person, true, Ok(now), adminId);
      reply == d.reply
      && db.persons == (if d.person.Some? then old(db.persons)[found.value.personId := d.person.value]
                        else old(db.persons))
      && db.findings == (if d.finding.Some? then old(db.findings)[findingId := d.finding.value]
                         else old(db.findings))
    ensures db.tasks == old(db.tasks) && db.permissions == old(db.permissions) && db.trees == old(db.trees)
    ensures db.families == old(db.families) && db.nextId == old(db.nextId)
  {
    var found := db.GetFinding(findingId);
    if found.None? {
      return HttpError(404, FindingNotFoundMessage);
    }
    var finding := found.value;
    if finding.status != Unverified {
      return HttpError(400, NotUnverifiedMessage(finding.status));
    }
    var person := db.GetPerson(finding.personId);
    if person.None? {
      return HttpError(404, PersonMissingMessage);
    }
    if IsPersonTextField(finding.dataField) {
      db.PutPerson(finding.personId, PersonSet(person.value, finding.dataField, finding.suggestedValue));
    }
    ReviewUpdateMerges(finding, FindingStatus.Accepted, now, adminId);
    var updated := db.UpdateResearchFinding(findingId, ReviewUpdate(FindingStatus.Accepted, now, adminId));
    reply := Body(updated);
  }

  /** `admin_reject_research_finding`, with the review time `now` computed
      as intended; persons are never touched. */
  method AdminRejectResearchFinding(db: Db, findingId: int, now: int, adminId: int)
    returns (reply: Reply<ResearchFinding>)
    requires db.Valid()
    modifies db
    ensures db.Valid()
    ensures var d := DecideReview(old(db.GetFinding(findingId)), None, false, Ok(now), adminId);
      reply == d.reply
      && db.findings == (if d.finding.Some? then old(db.findings)[findingId := d.finding.value]
                         else old(db.findings))
    ensures db.persons == old(db.persons)
    ensures db.tasks == old(db.tasks) && db.permissions == old(db.permissions) && db.trees == old(db.trees)
    ensures db.families == old(db.families) && db.nextId == old(db.nextId)
  {
    var found := db.GetFinding(findingId);
    if found.None? {
      return HttpError(404, FindingNotFoundMessage);
    }
    var finding := found.value;
    if finding.status != Unverified {
      return HttpError(400, NotUnverifiedMessage(finding.status));
    }
    ReviewUpdateMerges(finding, FindingStatus.Rejected, now, adminId);
    var updated := db.UpdateResearchFinding(findingId, ReviewUpdate(FindingStatus.Rejected, now, adminId));
    reply := Body(updated);
  }
}
