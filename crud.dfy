/** The database session and the CRUD helpers of backend/app/db/crud.py, over
    an in-memory store. Each table is a map from primary key to row; ids come
    from one counter, so every new row gets a key no row has used. */
module Crud {
  import opened Wrappers
  import opened Dicts
  import opened Models

  // ---------------------------------------------------------------------
  // Ordering of permission rules by path (SQL `ORDER BY path`, compared by
  // code point)

  /** `a <= b` in lexicographic order. */
  predicate PathLe(a: string, b: string)
    decreases |a|
  {
    |a| == 0 || (|b| > 0 && (a[0] < b[0] || (a[0] == b[0] && PathLe(a[1..], b[1..]))))
  }

  lemma {:induction false} PathLeTotal(a: string, b: string)
    ensures PathLe(a, b) || PathLe(b, a)
    decreases |a|
  {
    if |a| > 0 && |b| > 0 && a[0] == b[0] {
      PathLeTotal(a[1..], b[1..]);
    }
  }

  /** Each rule's path is at most the next one's. */
  predicate SortedByPath(ps: seq<AgentPermission>) {
    forall i :: 0 < i < |ps| ==> PathLe(ps[i - 1].path, ps[i].path)
  }

  /** Inserts `p` before the first rule whose path is not below it. */
  function InsertByPath(p: AgentPermission, ps: seq<AgentPermission>): (r: seq<AgentPermission>)
    ensures multiset(r) == multiset(ps) + multiset{p}
    ensures |r| > 0 && (r[0] == p || (|ps| > 0 && r[0] == ps[0]))
  {
    if |ps| == 0 || PathLe(p.path, ps[0].path) then [p] + ps
    else
      assert ps == [ps[0]] + ps[1..];
      [ps[0]] + InsertByPath(p, ps[1..])
  }

  lemma {:induction false} InsertByPathSorted(p: AgentPermission, ps: seq<AgentPermission>)
    requires SortedByPath(ps)
    ensures SortedByPath(InsertByPath(p, ps))
    decreases |ps|
  {
    if |ps| > 0 && !PathLe(p.path, ps[0].path) {
      var tail := InsertByPath(p, ps[1..]);
      InsertByPathSorted(p, ps[1..]);
      PathLeTotal(p.path, ps[0].path);
      assert PathLe(ps[0].path, tail[0].path);
      var r := [ps[0]] + tail;
      forall i | 0 < i < |r|
        ensures PathLe(r[i - 1].path, r[i].path)
      {
        if i > 1 {
          assert r[i - 1] == tail[i - 2] && r[i] == tail[i - 1];
        }
      }
    }
  }

  /** The rules in path order (an insertion sort). */
  function SortByPath(ps: seq<AgentPermission>): (r: seq<AgentPermission>)
    ensures multiset(r) == multiset(ps)
  {
    if |ps| == 0 then []
    else
      assert ps == [ps[0]] + ps[1..];
      InsertByPath(ps[0], SortByPath(ps[1..]))
  }

  lemma {:induction false} SortByPathSorted(ps: seq<AgentPermission>)
    ensures SortedByPath(SortByPath(ps))
  {
    if |ps| > 0 {
      SortByPathSorted(ps[1..]);
      InsertByPathSorted(ps[0], SortByPath(ps[1..]));
    }
  }

  /** Every non-empty set of integers has a largest element. */
  lemma {:induction false} MaxExists(s: set<int>)
    requires s != {}
    ensures exists m :: m in s && forall k :: k in s ==> k <= m
    decreases |s|
  {
    assert (forall k :: k !in s) ==> s == {};
    var x :| x in s;
    if s == {x} {
      assert forall k :: k in s ==> k <= x;
    } else {
      var rest := s - {x};
      assert (forall k :: k !in rest) ==> rest == {};
      MaxExists(rest);
      var m :| m in rest && forall k :: k in rest ==> k <= m;
      var top := if x > m then x else m;
      forall k | k in s
        ensures k <= top
      {
        if k != x {
          assert k in rest;
        }
      }
      assert top in s;
    }
  }

  /** The largest element of a non-empty set. */
  function MaxOf(s: set<int>): (m: int)
    requires s != {}
    ensures m in s && forall k :: k in s ==> k <= m
  {
    MaxExists(s);
    var m :| m in s && forall k :: k in s ==> k <= m;
    m
  }

  /** A set's elements, largest first: `order_by(desc(...))` over keys. */
  function Descending(s: set<int>): (r: seq<int>)
    ensures |r| == |s|
    ensures forall k :: k in s <==> k in r
    ensures forall i, j :: 0 <= i < j < |r| ==> r[i] > r[j]
    decreases |s|
  {
    if s == {} then []
    else
      var m := MaxOf(s);
      [m] + Descending(s - {m})
  }

  /** `query.offset(skip).limit(limit)`. */
  function Page<T>(s: seq<T>, skip: nat, limit: nat): (r: seq<T>)
    ensures |r| <= limit
    ensures skip <= |s| ==> |r| == if |s| - skip < limit then |s| - skip else limit
    ensures forall i :: 0 <= i < |r| ==> skip + i < |s| && r[i] == s[skip + i]
  {
    if skip >= |s| then [] else if |s| - skip <= limit then s[skip..] else s[skip..skip + limit]
  }

  /** The number of UNVERIFIED findings of a task in a findings table:
      the `count()` of the filtered query. */
  function UnverifiedOf(findings: map<int, ResearchFinding>, taskId: int): nat {
    |set k | k in findings && findings[k].agentTaskId == taskId && findings[k].status == Unverified|
  }

  /** The store the SQLAlchemy session reads and writes. */
  class Db {
    var tasks: map<int, AgentTask>
    var permissions: seq<AgentPermission>
    var trees: map<int, FamilyTree>
    var persons: map<int, Person>
    var families: map<int, Family>
    var findings: map<int, ResearchFinding>
    /** The next primary key the database hands out. */
    var nextId: int

    /** Every key in use lies below `nextId`; permission ids are distinct. */
    predicate Valid()
      reads this
    {
      (forall k :: k in tasks ==> k < nextId)
      && (forall k :: k in trees ==> k < nextId)
      && (forall k :: k in persons ==> k < nextId)
      && (forall k :: k in families ==> k < nextId)
      && (forall k :: k in findings ==> k < nextId)
      && (forall i :: 0 <= i < |permissions| ==> permissions[i].id < nextId)
      && DistinctIds(permissions)
    }

    constructor ()
      ensures Valid()
      ensures tasks == map[] && permissions == [] && trees == map[] && persons == map[]
      ensures families == map[] && findings == map[] && nextId == 1
    {
      tasks := map[];
      permissions := [];
      trees := map[];
      persons := map[];
      families := map[];
      findings := map[];
      nextId := 1;
    }

    // -------------------------------------------------------------------
    // Agent tasks

    /** `get_agent_task`. */
    function GetAgentTask(id: int): (r: Option<AgentTask>)
      reads this
      ensures r.Some? <==> id in tasks
      ensures r.Some? ==> r.value == tasks[id]
    {
      if id in tasks then Some(tasks[id]) else None
    }

    /** `create_agent_task`: a new row with the request's fields, the column
        defaults and a fresh id. */
    method CreateAgentTask(prompt: string, pluginId: string, targetFiles: Option<string>,
                           targetTreeId: Option<int>, targetPersonId: Option<int>, ownerId: int)
      returns (t: AgentTask)
      requires Valid()
      modifies this
      ensures Valid()
      ensures t.id !in old(tasks)
      ensures t == NewTask(t.id, prompt, pluginId, targetFiles, targetTreeId, targetPersonId, ownerId)
      ensures tasks == old(tasks)[t.id := t]
      ensures permissions == old(permissions) && trees == old(trees) && persons == old(persons)
      ensures families == old(families) && findings == old(findings)
    {
      t := NewTask(nextId, prompt, pluginId, targetFiles, targetTreeId, targetPersonId, ownerId);
      tasks := tasks[nextId := t];
      nextId := nextId + 1;
    }

    /** `update_agent_task`: `setattr` for every entry naming a task
        attribute, in dict order; the row afterwards is `MergeTask` of the
        old row and the dict. */
    method UpdateAgentTask(id: int, u: Update) returns (t: AgentTask)
      requires Valid() && id in tasks && TaskUpdateFits(u)
      modifies this
      ensures Valid()
      ensures t == MergeTask(old(tasks[id]), u)
      ensures tasks == old(tasks)[id := t]
      ensures permissions == old(permissions) && trees == old(trees) && persons == old(persons)
      ensures families == old(families) && findings == old(findings) && nextId == old(nextId)
    {
      var i := 0;
      while i < |u|
        invariant 0 <= i <= |u|
        invariant id in tasks && tasks == old(tasks)[id := tasks[id]]
        invariant TaskUpdateFits(u[i..])
        invariant MergeTask(tasks[id], u[i..]) == MergeTask(old(tasks[id]), u)
        invariant permissions == old(permissions) && trees == old(trees) && persons == old(persons)
        invariant families == old(families) && findings == old(findings) && nextId == old(nextId)
      {
        var (field, value) := u[i];
        assert u[i..][0] == (field, value) && u[i..][1..] == u[i + 1..];
        tasks := tasks[id := TaskSet(tasks[id], field, value)];
        i := i + 1;
      }
      t := tasks[id];
    }

    // -------------------------------------------------------------------
    // Permission rules

    /** `get_permission_by_path`: the first rule with exactly this path. */
    function GetPermissionByPath(path: string): (r: Option<AgentPermission>)
      reads this
      ensures r.Some? <==> exists i :: 0 <= i < |permissions| && permissions[i].path == path
      ensures r.Some? ==> r.value in permissions && r.value.path == path
    {
      FirstMatching(permissions, WithPath(path))
    }

    /** `get_permissions(skip, limit)`: the rules in path order, after the
        offset, at most `limit` of them. */
    function GetPermissions(skip: nat, limit: nat): (r: seq<AgentPermission>)
      reads this
      ensures r == Page(SortByPath(permissions), skip, limit)
    {
      Page(SortByPath(permissions), skip, limit)
    }

    /** `create_permission`. */
    method CreatePermission(path: string, comment: Option<string>) returns (p: AgentPermission)
      requires Valid()
      modifies this
      ensures Valid()
      ensures p == AgentPermission(old(nextId), path, comment)
      ensures permissions == old(permissions) + [p]
      ensures tasks == old(tasks) && trees == old(trees) && persons == old(persons)
      ensures families == old(families) && findings == old(findings)
    {
      p := AgentPermission(nextId, path, comment);
      permissions := permissions + [p];
      nextId := nextId + 1;
    }

    /** `delete_permission`: None when no rule has the id, otherwise the rule,
        which is removed. */
    method DeletePermission(id: int) returns (r: Option<AgentPermission>)
      requires Valid()
      modifies this
      ensures Valid()
      ensures r == FirstMatching(old(permissions), WithId(id))
      ensures r.None? ==> permissions == old(permissions)
      ensures r.Some? ==> r.value in old(permissions) && r.value.id == id
      ensures permissions == RemovePermission(old(permissions), id)
      ensures forall p :: p in permissions <==> p in old(permissions) && p.id != id
      ensures tasks == old(tasks) && trees == old(trees) && persons == old(persons)
      ensures families == old(families) && findings == old(findings) && nextId == old(nextId)
    {
      r := FirstMatching(permissions, WithId(id));
      RemoveKeepsDistinct(permissions, id);
      permissions := RemovePermission(permissions, id);
    }

    // -------------------------------------------------------------------
    // Genealogy

    /** `create_family_tree`. */
    method CreateFamilyTree(fileName: string, ownerId: int) returns (t: FamilyTree)
      requires Valid()
      modifies this
      ensures Valid()
      ensures t == FamilyTree(old(nextId), fileName, ownerId) && t.id !in old(trees)
      ensures trees == old(trees)[t.id := t] && nextId == old(nextId) + 1
      ensures tasks == old(tasks) && permissions == old(permissions) && persons == old(persons)
      ensures families == old(families) && findings == old(findings)
    {
      t := FamilyTree(nextId, fileName, ownerId);
      trees := trees[nextId := t];
      nextId := nextId + 1;
    }

    /** `db.add(models.Person(...))` followed by a commit: the person gets the
        next key. */
    method AddPerson(p: Person) returns (stored: Person)
      requires Valid()
      modifies this
      ensures Valid()
      ensures stored == p.(id := old(nextId)) && stored.id !in old(persons)
      ensures persons == old(persons)[stored.id := stored] && nextId == old(nextId) + 1
      ensures tasks == old(tasks) && permissions == old(permissions) && trees == old(trees)
      ensures families == old(families) && findings == old(findings)
    {
      stored := p.(id := nextId);
      persons := persons[nextId := stored];
      nextId := nextId + 1;
    }

    /** Commits families prepared in the session (each already holds its key). */
    method AddFamilies(fs: seq<Family>)
      requires Valid()
      requires forall i :: 0 <= i < |fs| ==> fs[i].id < nextId
      modifies this
      ensures Valid()
      ensures families == StoreFamilies(old(families), fs)
      ensures tasks == old(tasks) && permissions == old(permissions) && trees == old(trees)
      ensures persons == old(persons) && findings == old(findings) && nextId == old(nextId)
    {
      var i := 0;
      while i < |fs|
        invariant 0 <= i <= |fs|
        invariant families == StoreFamilies(old(families), fs[..i])
        invariant forall k :: k in families ==> k < nextId
        invariant tasks == old(tasks) && permissions == old(permissions) && trees == old(trees)
        invariant persons == old(persons) && findings == old(findings) && nextId == old(nextId)
      {
        assert fs[..i + 1] == fs[..i] + [fs[i]];
        StoreFamiliesSnoc(old(families), fs[..i], fs[i]);
        families := families[fs[i].id := fs[i]];
        i := i + 1;
      }
      assert fs[..i] == fs;
    }

    /** Hands out a key without storing a row (a `flush` of a new family). */
    method FreshId() returns (id: int)
      requires Valid()
      modifies this
      ensures Valid()
      ensures id == old(nextId) && nextId == old(nextId) + 1
      ensures tasks == old(tasks) && permissions == old(permissions) && trees == old(trees)
      ensures persons == old(persons) && families == old(families) && findings == old(findings)
    {
      id := nextId;
      nextId := nextId + 1;
    }

    /** `get_person_by_id`. */
    function GetPerson(id: int): (r: Option<Person>)
      reads this
      ensures r.Some? <==> id in persons
      ensures r.Some? ==> r.value == persons[id]
    {
      if id in persons then Some(persons[id]) else None
    }

    /** `get_family_tree_with_details`: the tree, if it exists and belongs to
        the owner. */
    function GetOwnedTree(treeId: int, ownerId: int): (r: Option<FamilyTree>)
      reads this
      ensures r.Some? <==> treeId in trees && trees[treeId].ownerId == ownerId
      ensures r.Some? ==> r.value == trees[treeId]
    {
      if treeId in trees && trees[treeId].ownerId == ownerId then Some(trees[treeId]) else None
    }

    /** Number of families listing the person as a child. */
    function FamiliesWithChild(personId: int): nat
      reads this
    {
      |set k | k in families && personId in families[k].children|
    }

    /** `get_research_finding_by_id`. */
    function GetFinding(id: int): (r: Option<ResearchFinding>)
      reads this
      ensures r.Some? <==> id in findings
      ensures r.Some? ==> r.value == findings[id]
    {
      if id in findings then Some(findings[id]) else None
    }

    /** The keys of the findings about a person. */
    function AboutPerson(personId: int): (r: set<int>)
      reads this
      ensures forall k :: k in r <==> k in findings && findings[k].personId == personId
    {
      set k | k in findings && findings[k].personId == personId
    }

    /** `get_research_findings_for_person`: the findings about the person,
        newest (largest key) first, from position `skip`, at most `limit`
        of them. */
    function FindingsForPerson(personId: int, skip: nat, limit: nat): (r: seq<int>)
      reads this
      ensures |r| <= limit
      ensures forall i :: 0 <= i < |r| ==> r[i] in findings && findings[r[i]].personId == personId
      ensures forall i, j :: 0 <= i < j < |r| ==> r[i] > r[j]
      ensures skip == 0 && |AboutPerson(personId)| <= limit ==>
        forall k :: k in findings && findings[k].personId == personId ==> k in r
    {
      var all := Descending(AboutPerson(personId));
      assert skip == 0 && |all| <= limit ==> Page(all, skip, limit) == all;
      Page(all, skip, limit)
    }

    /** The number of UNVERIFIED findings a task produced. */
    function UnverifiedFindingsOfTask(taskId: int): nat
      reads this
    {
      UnverifiedOf(findings, taskId)
    }

    /** `create_research_finding`: the new row starts UNVERIFIED, unreviewed. */
    method CreateResearchFinding(personId: int, agentTaskId: int, dataField: string,
                                 originalValue: Option<string>, suggestedValue: Option<string>,
                                 sourceName: string, sourceUrl: Option<string>, citationText: string,
                                 confidenceScore: Option<int>, llmReasoning: Option<string>)
      returns (f: ResearchFinding)
      requires Valid()
      modifies this
      ensures Valid()
      ensures f == ResearchFinding(old(nextId), personId, agentTaskId, dataField, originalValue,
                                   suggestedValue, sourceName, sourceUrl, citationText,
                                   confidenceScore, llmReasoning, Unverified, None, None)
      ensures f.id !in old(findings) && findings == old(findings)[f.id := f] && nextId == old(nextId) + 1
      ensures tasks == old(tasks) && permissions == old(permissions) && trees == old(trees)
      ensures persons == old(persons) && families == old(families)
    {
      f := ResearchFinding(nextId, personId, agentTaskId, dataField, originalValue, suggestedValue,
                           sourceName, sourceUrl, citationText, confidenceScore, llmReasoning,
                           Unverified, None, None);
      findings := findings[nextId := f];
      nextId := nextId + 1;
    }

    /** `update_research_finding`: the same merge as `update_agent_task`. */
    method UpdateResearchFinding(id: int, u: Update) returns (f: ResearchFinding)
      requires Valid() && id in findings && FindingUpdateFits(u)
      modifies this
      ensures Valid()
      ensures f == MergeFinding(old(findings[id]), u)
      ensures findings == old(findings)[id := f]
      ensures tasks == old(tasks) && permissions == old(permissions) && trees == old(trees)
      ensures persons == old(persons) && families == old(families) && nextId == old(nextId)
    {
      var i := 0;
      while i < |u|
        invariant 0 <= i <= |u|
        invariant id in findings && findings == old(findings)[id := findings[id]]
        invariant FindingUpdateFits(u[i..])
        invariant MergeFinding(findings[id], u[i..]) == MergeFinding(old(findings[id]), u)
        invariant tasks == old(tasks) && permissions == old(permissions) && trees == old(trees)
        invariant persons == old(persons) && families == old(families) && nextId == old(nextId)
      {
        var (field, value) := u[i];
        assert u[i..][0] == (field, value) && u[i..][1..] == u[i + 1..];
        findings := findings[id := FindingSet(findings[id], field, value)];
        i := i + 1;
      }
      f := findings[id];
    }

    /** Writes back the person row read under key `id` (a `db.add` of a
        modified person, committed with the next commit). */
    method PutPerson(id: int, p: Person)
      requires Valid() && id in persons
      modifies this
      ensures Valid()
      ensures persons == old(persons)[id := p]
      ensures tasks == old(tasks) && permissions == old(permissions) && trees == old(trees)
      ensures families == old(families) && findings == old(findings) && nextId == old(nextId)
    {
      persons := persons[id := p];
    }
  }

  /** The first rule, in stored order, that `matches` accepts. */
  function FirstMatching(ps: seq<AgentPermission>, matches: AgentPermission -> bool): (r: Option<AgentPermission>)
    ensures r.Some? <==> exists i :: 0 <= i < |ps| && matches(ps[i])
    ensures r.Some? ==>
      exists i :: 0 <= i < |ps| && ps[i] == r.value && matches(ps[i]) && forall j :: 0 <= j < i ==> !matches(ps[j])
  {
    if |ps| == 0 then None
    else if matches(ps[0]) then Some(ps[0])
    else FirstMatching(ps[1..], matches)
  }

  /** The filter `path == <path>`. */
  function WithPath(path: string): AgentPermission -> bool {
    (p: AgentPermission) => p.path == path
  }

  /** The filter `id == <id>`. */
  function WithId(id: int): AgentPermission -> bool {
    (p: AgentPermission) => p.id == id
  }

  /** The rules without the one carrying the id, in their order. */
  function RemovePermission(ps: seq<AgentPermission>, id: int): (r: seq<AgentPermission>)
    ensures forall p :: p in r <==> p in ps && p.id != id
    ensures FirstMatching(ps, WithId(id)).None? ==> r == ps
    ensures forall i :: 0 <= i < |r| ==> r[i].id != id
  {
    if |ps| == 0 then []
    else if ps[0].id == id then RemovePermission(ps[1..], id)
    else [ps[0]] + RemovePermission(ps[1..], id)
  }

  /** Distinct ids, as the primary key guarantees. */
  predicate DistinctIds(ps: seq<AgentPermission>) {
    forall i, j :: 0 <= i < j < |ps| ==> ps[i].id != ps[j].id
  }

  lemma {:induction false} RemoveKeepsDistinct(ps: seq<AgentPermission>, id: int)
    requires DistinctIds(ps)
    ensures DistinctIds(RemovePermission(ps, id))
  {
    if |ps| > 0 {
      DistinctTail(ps);
      RemoveKeepsDistinct(ps[1..], id);
      if ps[0].id != id {
        var rest := RemovePermission(ps[1..], id);
        forall q | q in rest
          ensures q.id != ps[0].id
        {
          assert q in ps[1..];
          var k :| 0 <= k < |ps| - 1 && ps[1..][k] == q;
          assert ps[k + 1] == q;
        }
        DistinctCons(ps[0], rest);
      }
    }
  }

  lemma DistinctTail(ps: seq<AgentPermission>)
    requires |ps| > 0 && DistinctIds(ps)
    ensures DistinctIds(ps[1..])
  {
    forall i, j | 0 <= i < j < |ps| - 1
      ensures ps[1..][i].id != ps[1..][j].id
    {
      assert ps[1..][i] == ps[i + 1] && ps[1..][j] == ps[j + 1];
    }
  }

  lemma DistinctCons(p: AgentPermission, rest: seq<AgentPermission>)
    requires DistinctIds(rest) && forall q :: q in rest ==> q.id != p.id
    ensures DistinctIds([p] + rest)
  {
    var r := [p] + rest;
    forall i, j | 0 <= i < j < |r|
      ensures r[i].id != r[j].id
    {
      if i == 0 {
        assert r[j] == rest[j - 1] && rest[j - 1] in rest;
      } else {
        assert r[i] == rest[i - 1] && r[j] == rest[j - 1];
      }
    }
  }

  /** Families keyed by their ids, later ones replacing earlier ones. */
  function StoreFamilies(m: map<int, Family>, fs: seq<Family>): map<int, Family>
    decreases |fs|
  {
    if |fs| == 0 then m else StoreFamilies(m[fs[0].id := fs[0]], fs[1..])
  }

  lemma {:induction false} StoreFamiliesSnoc(m: map<int, Family>, fs: seq<Family>, f: Family)
    ensures StoreFamilies(m, fs + [f]) == StoreFamilies(m, fs)[f.id := f]
    decreases |fs|
  {
    if |fs| > 0 {
      assert (fs + [f])[1..] == fs[1..] + [f];
      StoreFamiliesSnoc(m[fs[0].id := fs[0]], fs[1..], f);
    }
  }

  /** The permission check reads `get_permissions(limit=1000)`: the rules it
      sees are the first 1000 in path order, all of them when there are no
      more than 1000. */
  lemma PermissionPage(ps: seq<AgentPermission>)
    ensures SortedByPath(Page(SortByPath(ps), 0, 1000))
    ensures |ps| <= 1000 ==> multiset(Page(SortByPath(ps), 0, 1000)) == multiset(ps)
    ensures |ps| > 1000 ==> |Page(SortByPath(ps), 0, 1000)| == 1000
  {
    var s := SortByPath(ps);
    SortByPathSorted(ps);
    var r := Page(s, 0, 1000);
    assert |s| == |ps| by { assert |multiset(s)| == |multiset(ps)|; }
    forall i | 0 < i < |r|
      ensures PathLe(r[i - 1].path, r[i].path)
    {
      assert r[i - 1] == s[i - 1] && r[i] == s[i];
    }
    if |ps| <= 1000 {
      assert r == s;
    }
  }
}
