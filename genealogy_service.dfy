/** GEDCOM import: a family tree is created for the file, a first pass
    stores a person for every individual record and remembers the key of
    each GEDCOM pointer, and a second pass stores the family records with
    their spouses and children resolved through those pointers. The GEDCOM
    parser is outside the model: its outcome (the top-level elements, or an
    exception) is a parameter, and so is the outcome of each family flush. */
module GenealogyService {
  import opened Wrappers
  import opened Text
  import opened Models
  import opened Crud

  /** A top-level GEDCOM element as the parser's accessors present it;
      absent values are "". */
  datatype Element = Element(
    tag: string,
    pointer: string,
    /** `get_name()`: (first, last). */
    name: seq<string>,
    gender: string,
    /** `get_birth_data()` / `get_death_data()`: (date, place). */
    birth: (string, string),
    death: (string, string),
    /** `get_husband()` / `get_wife()`: the spouse pointers. */
    husband: string,
    wife: string,
    /** The values of the sub-elements (HUSB, WIFE, CHIL, MARR, ...), in order. */
    values: seq<string>)

  function UnparsableMessage(fileName: string): string {
    "Could not parse GEDCOM file '" + fileName + "'. It might be malformed or not a valid GEDCOM file."
  }

  function EmptyFileMessage(fileName: string): string {
    "GEDCOM file '" + fileName + "' could not be parsed or yielded no data."
  }

  // ---------------------------------------------------------------------
  // First pass: individuals

  predicate IsIndividual(e: Element) {
    e.tag == "INDI" && e.pointer != ""
  }

  /** A given value, stripped; an absent or empty one is None. */
  function Given(s: string): (r: Option<string>)
    ensures r.None? <==> s == ""
    ensures r.Some? ==> r.value == Strip(s)
  {
    if s != "" then Some(Strip(s)) else None
  }

  /** A name part: absent when the parser gave fewer parts. */
  function NamePart(parts: seq<string>, i: nat): (r: Option<string>)
    ensures r.None? <==> i >= |parts| || parts[i] == ""
  {
    if i < |parts| then Given(parts[i]) else None
  }

  /** The person row of an individual record (its key is assigned on
      insertion); the sex defaults to "U". */
  function PersonOf(e: Element, treeId: int): (r: Person)
    ensures r.treeId == treeId && r.gedcomId == e.pointer
    ensures r.sex == Some(if e.gender == "" then "U" else e.gender)
    ensures r.firstName == NamePart(e.name, 0) && r.lastName == NamePart(e.name, 1)
    ensures r.birthDate == Given(e.birth.0) && r.birthPlace == Given(e.birth.1)
    ensures r.deathDate == Given(e.death.0) && r.deathPlace == Given(e.death.1)
  {
    Person(0, treeId, e.pointer, NamePart(e.name, 0), NamePart(e.name, 1),
           Some(if e.gender == "" then "U" else e.gender),
           Given(e.birth.0), Given(e.birth.1), Given(e.death.0), Given(e.death.1))
  }

  /** The individual records with a pointer, in file order. */
  function Individuals(es: seq<Element>): (r: seq<Element>)
    ensures |r| <= |es|
    ensures forall k :: 0 <= k < |r| ==> IsIndividual(r[k])
    decreases |es|
  {
    if |es| == 0 then []
    else Individuals(es[..|es| - 1]) + (if IsIndividual(es[|es| - 1]) then [es[|es| - 1]] else [])
  }

  /** The persons the first pass stores, keyed from `first` on. */
  function People(indis: seq<Element>, treeId: int, first: int): (r: seq<Person>)
    ensures |r| == |indis|
    ensures forall k :: 0 <= k < |r| ==> r[k] == PersonOf(indis[k], treeId).(id := first + k)
  {
    seq(|indis|, k requires 0 <= k < |indis| => PersonOf(indis[k], treeId).(id := first + k))
  }

  /** `person_map`: each pointer to the key of the LAST individual carrying
      it; an earlier duplicate is replaced. */
  function PointerIds(indis: seq<Element>, first: int): (m: map<string, int>)
    ensures forall ptr :: ptr in m ==> first <= m[ptr] < first + |indis|
    decreases |indis|
  {
    if |indis| == 0 then map[]
    else PointerIds(indis[..|indis| - 1], first)[indis[|indis| - 1].pointer := first + |indis| - 1]
  }

  lemma PointerIdsSnoc(indis: seq<Element>, e: Element, first: int)
    ensures PointerIds(indis + [e], first) == PointerIds(indis, first)[e.pointer := first + |indis|]
  {
    assert (indis + [e])[..|indis|] == indis;
  }

  /** One step of the first pass keeps the pointer map in step. */
  lemma PointerIdsStep(ids: map<string, int>, indis: seq<Element>, e: Element, first: int, id: int)
    requires ids == PointerIds(indis, first) && id == first + |indis|
    ensures ids[e.pointer := id] == PointerIds(indis + [e], first)
  {
    PointerIdsSnoc(indis, e, first);
  }

  /** The index of the last individual carrying `ptr`, -1 when none does. */
  function LastIndexOf(indis: seq<Element>, ptr: string): (j: int)
    ensures -1 <= j < |indis|
    ensures j >= 0 ==> indis[j].pointer == ptr
    ensures forall k :: j < k < |indis| ==> indis[k].pointer != ptr
    decreases |indis|
  {
    if |indis| == 0 then -1
    else if indis[|indis| - 1].pointer == ptr then |indis| - 1
    else
      var j := LastIndexOf(indis[..|indis| - 1], ptr);
      assert forall k :: j < k < |indis| - 1 ==> indis[k] == indis[..|indis| - 1][k];
      j
  }

  /** The pointers mapped are exactly those of the individuals. */
  lemma {:induction false} PointersMapped(indis: seq<Element>, first: int)
    ensures forall ptr :: ptr in PointerIds(indis, first) <==> exists k :: 0 <= k < |indis| && indis[k].pointer == ptr
    decreases |indis|
  {
    if |indis| > 0 {
      var n := |indis| - 1;
      var init := indis[..n];
      PointersMapped(init, first);
      assert indis == init + [indis[n]];
      PointerIdsSnoc(init, indis[n], first);
      forall ptr | ptr in PointerIds(indis, first)
        ensures exists k :: 0 <= k < |indis| && indis[k].pointer == ptr
      {
        if ptr != indis[n].pointer {
          var k :| 0 <= k < n && init[k].pointer == ptr;
          assert indis[k] == init[k];
        }
      }
      forall ptr | exists k :: 0 <= k < |indis| && indis[k].pointer == ptr
        ensures ptr in PointerIds(indis, first)
      {
        var k :| 0 <= k < |indis| && indis[k].pointer == ptr;
        if k < n {
          assert init[k].pointer == ptr;
        }
      }
    } else {
      assert PointerIds(indis, first) == map[];
    }
  }

  /** A pointer carried by several individuals is mapped to the key of the
      last of them. */
  lemma {:induction false} LastIndividualWins(indis: seq<Element>, first: int)
    ensures forall ptr :: ptr in PointerIds(indis, first) ==>
      PointerIds(indis, first)[ptr] == first + LastIndexOf(indis, ptr)
    decreases |indis|
  {
    if |indis| > 0 {
      var n := |indis| - 1;
      var init := indis[..n];
      LastIndividualWins(init, first);
      var m := PointerIds(indis, first);
      assert m == PointerIds(init, first)[indis[n].pointer := first + n];
      forall ptr | ptr in m
        ensures m[ptr] == first + LastIndexOf(indis, ptr)
      {
        if ptr != indis[n].pointer {
          assert LastIndexOf(indis, ptr) == LastIndexOf(init, ptr);
        }
      }
    } else {
      assert PointerIds(indis, first) == map[];
    }
  }

  // ---------------------------------------------------------------------
  // Second pass: families

  predicate IsFamily(e: Element) {
    e.tag == "FAM" && e.pointer != ""
  }

  /** A spouse link: set only for a known pointer. */
  function Spouse(ptr: string, ids: map<string, int>): (r: Option<int>)
    ensures r.Some? <==> ptr != "" && ptr in ids
    ensures r.Some? ==> r.value == ids[ptr]
  {
    if ptr != "" && ptr in ids then Some(ids[ptr]) else None
  }

  /** The children appended: every sub-element value that is a known
      pointer, whatever its tag. */
  function ChildIds(values: seq<string>, ids: map<string, int>): (r: seq<int>)
    ensures forall c :: c in r <==> exists v :: v in values && v in ids && ids[v] == c
    decreases |values|
  {
    if |values| == 0 then []
    else
      var last := values[|values| - 1];
      assert forall v :: v in values <==> v in values[..|values| - 1] || v == last;
      ChildIds(values[..|values| - 1], ids) + (if last in ids then [ids[last]] else [])
  }

  /** The family row of a family record, under key `id`. */
  function FamilyOf(e: Element, ids: map<string, int>, treeId: int, id: int): Family {
    Family(id, treeId, e.pointer, Spouse(e.husband, ids), Spouse(e.wife, ids), ChildIds(e.values, ids))
  }

  /** The families pending after the first `n` elements and the next key:
      a failed flush rolls back, which discards the families flushed so far
      in this pass, and the loop goes on with the next element. */
  function SecondPass(es: seq<Element>, ids: map<string, int>, treeId: int, start: int, flushOk: nat -> bool, n: nat)
    : (r: (seq<Family>, int))
    requires n <= |es|
    ensures start <= r.1
    ensures forall k :: 0 <= k < |r.0| ==> start <= r.0[k].id < r.1
  {
    if n == 0 then ([], start)
    else
      var (pending, next) := SecondPass(es, ids, treeId, start, flushOk, n - 1);
      var e := es[n - 1];
      if !IsFamily(e) then (pending, next)
      else if !flushOk(n - 1) then ([], next)
      else (pending + [FamilyOf(e, ids, treeId, next)], next + 1)
  }

  /** A family of the tree whose spouses and children are all persons of
      the pointer map. */
  predicate LinksKnownPersons(f: Family, ids: map<string, int>, treeId: int) {
    f.treeId == treeId
    && (f.husbandId.Some? ==> f.husbandId.value in ids.Values)
    && (f.wifeId.Some? ==> f.wifeId.value in ids.Values)
    && (forall c :: c in f.children ==> c in ids.Values)
  }

  /** Every family the second pass stores links only persons of the
      pointer map. */
  lemma {:induction false} FamiliesLinkKnownPersons(es: seq<Element>, ids: map<string, int>, treeId: int, start: int,
                                                    flushOk: nat -> bool, n: nat)
    requires n <= |es|
    ensures forall k :: 0 <= k < |SecondPass(es, ids, treeId, start, flushOk, n).0| ==>
      LinksKnownPersons(SecondPass(es, ids, treeId, start, flushOk, n).0[k], ids, treeId)
  {
    if n > 0 {
      FamiliesLinkKnownPersons(es, ids, treeId, start, flushOk, n - 1);
      var prev := SecondPass(es, ids, treeId, start, flushOk, n - 1);
      var e := es[n - 1];
      if IsFamily(e) && flushOk(n - 1) {
        var f := FamilyOf(e, ids, treeId, prev.1);
        assert e.husband != "" && e.husband in ids ==> ids[e.husband] in ids.Values;
        assert e.wife != "" && e.wife in ids ==> ids[e.wife] in ids.Values;
        forall c | c in f.children ensures c in ids.Values {
          var v :| v in e.values && v in ids && ids[v] == c;
        }
        assert LinksKnownPersons(f, ids, treeId);
        var fs := prev.0 + [f];
        assert SecondPass(es, ids, treeId, start, flushOk, n).0 == fs;
        forall k | 0 <= k < |fs| ensures LinksKnownPersons(fs[k], ids, treeId) {
          if k < |prev.0| {
            assert fs[k] == prev.0[k];
          }
        }
      }
    }
  }

  /** With no flush failure, every family record with a pointer is stored,
      in file order, under consecutive keys. */
  lemma {:induction false} AllFamiliesStored(es: seq<Element>, ids: map<string, int>, treeId: int, start: int,
                                             flushOk: nat -> bool, n: nat)
    requires n <= |es|
    requires forall i :: 0 <= i < n ==> flushOk(i)
    ensures var (fs, next) := SecondPass(es, ids, treeId, start, flushOk, n);
      |fs| == |Families(es[..n])| && next == start + |fs|
      && forall k :: 0 <= k < |fs| ==> fs[k] == FamilyOf(Families(es[..n])[k], ids, treeId, start + k)
  {
    if n > 0 {
      AllFamiliesStored(es, ids, treeId, start, flushOk, n - 1);
      assert es[..n][..n - 1] == es[..n - 1];
      assert es[..n][n - 1] == es[n - 1];
    }
  }

  /** The family records with a pointer, in file order. */
  function Families(es: seq<Element>): seq<Element>
    decreases |es|
  {
    if |es| == 0 then []
    else Families(es[..|es| - 1]) + (if IsFamily(es[|es| - 1]) then [es[|es| - 1]] else [])
  }

  /** A spouse referenced by a HUSB or WIFE sub-element is also appended to
      the children, since the values are not filtered by tag. */
  lemma SpouseListedAsChild(e: Element, ids: map<string, int>, treeId: int, id: int)
    requires e.husband != "" && e.husband in ids && e.husband in e.values
    ensures FamilyOf(e, ids, treeId, id).husbandId == Some(ids[e.husband])
    ensures ids[e.husband] in FamilyOf(e, ids, treeId, id).children
  {
  }

  /** Persons stored by key, one after the other. */
  function StorePeople(m: map<int, Person>, ps: seq<Person>): map<int, Person>
    decreases |ps|
  {
    if |ps| == 0 then m else StorePeople(m, ps[..|ps| - 1])[ps[|ps| - 1].id := ps[|ps| - 1]]
  }

  /** `after` is `before` plus `people` stored under the keys `first`,
      `first + 1`, ...; nothing stored before changes. */
  ghost predicate PersonsAdded(before: map<int, Person>, after: map<int, Person>, first: int, people: seq<Person>) {
    (forall k :: k in after <==> k in before || first <= k < first + |people|)
    && (forall k :: k in before ==> after[k] == before[k])
    && (forall i :: 0 <= i < |people| ==> after[first + i] == people[i])
  }

  /** Storing the first pass's persons over a table whose keys are all
      below `first` adds them under consecutive keys and keeps every row
      already there. */
  lemma PeopleAdded(m: map<int, Person>, indis: seq<Element>, treeId: int, first: int)
    requires forall k :: k in m ==> k < first
    ensures PersonsAdded(m, StorePeople(m, People(indis, treeId, first)), first, People(indis, treeId, first))
  {
    StoreConsecutive(m, People(indis, treeId, first), first);
  }

  lemma {:induction false} StoreConsecutive(m: map<int, Person>, ps: seq<Person>, first: int)
    requires forall k :: k in m ==> k < first
    requires forall i :: 0 <= i < |ps| ==> ps[i].id == first + i
    ensures PersonsAdded(m, StorePeople(m, ps), first, ps)
    decreases |ps|
  {
    if |ps| > 0 {
      var n := |ps| - 1;
      StoreConsecutive(m, ps[..n], first);
      assert ps == ps[..n] + [ps[n]];
      PersonsAddedSnoc(m, StorePeople(m, ps[..n]), first, ps[..n], ps[n]);
    }
  }

  lemma PersonsAddedSnoc(before: map<int, Person>, after: map<int, Person>, first: int, people: seq<Person>, p: Person)
    requires PersonsAdded(before, after, first, people)
    requires first + |people| !in before
    ensures PersonsAdded(before, after[first + |people| := p], first, people + [p])
  {
  }

  /** One step of the first pass: the next person is stored under the
      next key. */
  lemma StorePeopleStep(m: map<int, Person>, indis: seq<Element>, e: Element, treeId: int, first: int, stored: Person)
    requires stored == PersonOf(e, treeId).(id := first + |indis|)
    ensures StorePeople(m, People(indis + [e], treeId, first)) == StorePeople(m, People(indis, treeId, first))[stored.id := stored]
  {
    var ps := People(indis, treeId, first);
    PeopleSnoc(indis, e, treeId, first);
    assert (ps + [stored])[..|ps|] == ps;
  }

  lemma IndividualsSnoc(es: seq<Element>, i: nat)
    requires i < |es|
    ensures Individuals(es[..i + 1]) == Individuals(es[..i]) + (if IsIndividual(es[i]) then [es[i]] else [])
  {
    assert es[..i + 1][..i] == es[..i];
  }

  lemma PeopleSnoc(indis: seq<Element>, e: Element, treeId: int, first: int)
    ensures People(indis + [e], treeId, first) == People(indis, treeId, first) + [PersonOf(e, treeId).(id := first + |indis|)]
  {
  }

  /** The second pass of an import as tree `treeId` whose persons take the
      keys from `first` on; its families take the keys after those. */
  function ImportedFamilies(es: seq<Element>, treeId: int, first: int, flushOk: nat -> bool): (seq<Family>, int) {
    var indis := Individuals(es);
    SecondPass(es, PointerIds(indis, first), treeId, first + |indis|, flushOk, |es|)
  }

  lemma ImportedFamiliesOf(es: seq<Element>, treeId: int, first: int, flushOk: nat -> bool, ids: map<string, int>, start: int)
    requires ids == PointerIds(Individuals(es), first) && start == first + |Individuals(es)|
    ensures ImportedFamilies(es, treeId, first, flushOk).0 == SecondPass(es, ids, treeId, start, flushOk, |es|).0
    ensures ImportedFamilies(es, treeId, first, flushOk).1 == SecondPass(es, ids, treeId, start, flushOk, |es|).1
  {
  }

  /** The tables after importing the elements `es` as tree `tree`: the
      tree row, the first pass's persons under the keys following the
      tree's, and the second pass's families after those. */
  ghost predicate Imported(es: seq<Element>, tree: FamilyTree, flushOk: nat -> bool,
                           trees0: map<int, FamilyTree>, persons0: map<int, Person>, families0: map<int, Family>,
                           trees: map<int, FamilyTree>, persons: map<int, Person>, families: map<int, Family>, nextId: int)
  {
    trees == trees0[tree.id := tree]
    && persons == StorePeople(persons0, People(Individuals(es), tree.id, tree.id + 1))
    && families == StoreFamilies(families0, ImportedFamilies(es, tree.id, tree.id + 1, flushOk).0)
    && nextId == ImportedFamilies(es, tree.id, tree.id + 1, flushOk).1
  }

  // ---------------------------------------------------------------------
  // The service

  class GenealogyService {
    const db: Db

    constructor (db: Db)
      ensures this.db == db
    {
      this.db := db;
    }

    /** `parse_and_store_gedcom`: a parse failure or an empty file raises
        ValueError before anything is stored; otherwise the tree, its
        persons (keys following the tree's) and its families are stored. */
    method ParseAndStoreGedcom(parsed: Result<seq<Element>>, fileName: string, ownerId: int, flushOk: nat -> bool)
      returns (r: Result<FamilyTree>)
      requires db.Valid()
      modifies db
      ensures db.Valid()
      ensures parsed.Raise? ==> r == Raise(Exc(ValueError, UnparsableMessage(fileName)))
      ensures parsed.Ok? && |parsed.value| == 0 ==> r == Raise(Exc(ValueError, EmptyFileMessage(fileName)))
      ensures r.Raise? ==> (db.trees == old(db.trees) && db.persons == old(db.persons)
                            && db.families == old(db.families) && db.nextId == old(db.nextId))
      ensures parsed.Ok? && |parsed.value| > 0 ==> (
        r.Ok? && r.value == FamilyTree(old(db.nextId), fileName, ownerId)
        && Imported(parsed.value, r.value, flushOk, old(db.trees), old(db.persons), old(db.families),
                    db.trees, db.persons, db.families, db.nextId))
      ensures db.tasks == old(db.tasks) && db.permissions == old(db.permissions) && db.findings == old(db.findings)
    {
      if parsed.Raise? {
        return Raise(Exc(ValueError, UnparsableMessage(fileName)));
      }
      var es := parsed.value;
      if |es| == 0 {
        return Raise(Exc(ValueError, EmptyFileMessage(fileName)));
      }
      var tree := Import(es, fileName, ownerId, flushOk);
      r := Ok(tree);
    }

    /** The import proper: the tree row, then the two passes. */
    method Import(es: seq<Element>, fileName: string, ownerId: int, flushOk: nat -> bool) returns (tree: FamilyTree)
      requires db.Valid()
      modifies db
      ensures db.Valid()
      ensures tree == FamilyTree(old(db.nextId), fileName, ownerId)
      ensures Imported(es, tree, flushOk, old(db.trees), old(db.persons), old(db.families),
                       db.trees, db.persons, db.families, db.nextId)
      ensures db.tasks == old(db.tasks) && db.permissions == old(db.permissions) && db.findings == old(db.findings)
    {
      tree := db.CreateFamilyTree(fileName, ownerId);
      ghost var trees1 := db.trees;
      StoreTree(es, tree.id, flushOk);
      assert db.trees == trees1;
    }

    /** The two passes over the elements of tree `treeId`, whose own key
        was the last one handed out. */
    method StoreTree(es: seq<Element>, treeId: int, flushOk: nat -> bool)
      requires db.Valid() && db.nextId == treeId + 1
      modifies db
      ensures db.Valid()
      ensures db.persons == StorePeople(old(db.persons), People(Individuals(es), treeId, treeId + 1))
      ensures db.families == StoreFamilies(old(db.families), ImportedFamilies(es, treeId, treeId + 1, flushOk).0)
      ensures db.nextId == ImportedFamilies(es, treeId, treeId + 1, flushOk).1
      ensures db.tasks == old(db.tasks) && db.permissions == old(db.permissions) && db.trees == old(db.trees)
      ensures db.findings == old(db.findings)
    {
      var ids := StorePersons(es, treeId);
      ghost var persons1 := db.persons;
      ImportedFamiliesOf(es, treeId, treeId + 1, flushOk, ids, db.nextId);
      var pending := LinkFamilies(es, ids, treeId, flushOk);
      db.AddFamilies(pending);
      assert db.persons == persons1;
    }

    /** The first pass: a person row for every individual record. */
    method StorePersons(es: seq<Element>, treeId: int) returns (ids: map<string, int>)
      requires db.Valid()
      modifies db
      ensures db.Valid()
      ensures var indis := Individuals(es);
        ids == PointerIds(indis, old(db.nextId))
        && db.nextId == old(db.nextId) + |indis|
        && db.persons == StorePeople(old(db.persons), People(indis, treeId, old(db.nextId)))
      ensures db.tasks == old(db.tasks) && db.permissions == old(db.permissions) && db.trees == old(db.trees)
      ensures db.families == old(db.families) && db.findings == old(db.findings)
    {
      var first := db.nextId;
      ids := map[];
      ghost var indis: seq<Element> := [];
      var i := 0;
      while i < |es|
        invariant 0 <= i <= |es|
        invariant db.Valid() && first <= db.nextId
        invariant indis == Individuals(es[..i])
        invariant ids == PointerIds(indis, first)
        invariant db.nextId == first + |indis|
        invariant db.persons == StorePeople(old(db.persons), People(indis, treeId, first))
        invariant db.tasks == old(db.tasks) && db.permissions == old(db.permissions) && db.trees == old(db.trees)
        invariant db.families == old(db.families) && db.findings == old(db.findings)
      {
        ids, indis := StoreIndividual(es, i, treeId, first, ids, indis, old(db.persons));
        i := i + 1;
      }
      assert es[..i] == es;
    }

    /** One iteration of the first pass: element `i`, when it is an
        individual, is stored as a person and its pointer mapped to the key. */
    method StoreIndividual(es: seq<Element>, i: nat, treeId: int, first: int, ids: map<string, int>,
                           ghost indis: seq<Element>, ghost base: map<int, Person>)
      returns (ids': map<string, int>, ghost indis': seq<Element>)
      requires i < |es| && db.Valid()
      requires indis == Individuals(es[..i]) && ids == PointerIds(indis, first) && db.nextId == first + |indis|
      requires db.persons == StorePeople(base, People(indis, treeId, first))
      modifies db
      ensures db.Valid()
      ensures indis' == Individuals(es[..i + 1]) && ids' == PointerIds(indis', first) && db.nextId == first + |indis'|
      ensures db.persons == StorePeople(base, People(indis', treeId, first))
      ensures db.tasks == old(db.tasks) && db.permissions == old(db.permissions) && db.trees == old(db.trees)
      ensures db.families == old(db.families) && db.findings == old(db.findings)
    {
      IndividualsSnoc(es, i);
      var e := es[i];
      ids', indis' := ids, indis;
      if IsIndividual(e) {
        var stored := db.AddPerson(PersonOf(e, treeId));
        StorePeopleStep(base, indis, e, treeId, first, stored);
        PointerIdsStep(ids, indis, e, first, stored.id);
        ids' := ids[e.pointer := stored.id];
        indis' := indis + [e];
      }
    }

    /** The second pass: the family rows, each flushed for its key. */
    method LinkFamilies(es: seq<Element>, ids: map<string, int>, treeId: int, flushOk: nat -> bool)
      returns (pending: seq<Family>)
      requires db.Valid()
      modifies db
      ensures db.Valid()
      ensures pending == SecondPass(es, ids, treeId, old(db.nextId), flushOk, |es|).0
      ensures db.nextId == SecondPass(es, ids, treeId, old(db.nextId), flushOk, |es|).1
      ensures db.tasks == old(db.tasks) && db.permissions == old(db.permissions) && db.trees == old(db.trees)
      ensures db.persons == old(db.persons) && db.families == old(db.families) && db.findings == old(db.findings)
    {
      var start := db.nextId;
      pending := [];
      var i := 0;
      while i < |es|
        invariant 0 <= i <= |es|
        invariant db.Valid()
        invariant (pending, db.nextId) == SecondPass(es, ids, treeId, start, flushOk, i)
        invariant db.tasks == old(db.tasks) && db.permissions == old(db.permissions) && db.trees == old(db.trees)
        invariant db.persons == old(db.persons) && db.families == old(db.families) && db.findings == old(db.findings)
      {
        var e := es[i];
        if IsFamily(e) {
          if flushOk(i) {
            var id := db.FreshId();
            var children := AppendChildren(e.values, ids);
            pending := pending + [Family(id, treeId, e.pointer, Spouse(e.husband, ids), Spouse(e.wife, ids), children)];
          } else {
            pending := [];
          }
        }
        i := i + 1;
      }
    }

    /** The loop over a family's sub-elements. */
    method AppendChildren(values: seq<string>, ids: map<string, int>) returns (children: seq<int>)
      ensures children == ChildIds(values, ids)
    {
      children := [];
      var i := 0;
      while i < |values|
        invariant 0 <= i <= |values|
        invariant children == ChildIds(values[..i], ids)
      {
        assert values[..i + 1][..i] == values[..i];
        if values[i] in ids {
          children := children + [ids[values[i]]];
        }
        i := i + 1;
      }
      assert values[..i] == values;
    }
  }
}
