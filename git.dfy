/** The part of a git repository (as GitPython drives it) that the backend
    touches: a commit history, branches, HEAD, the index, the working tree, a
    stash stack and the ignore rules. A tree maps file paths to contents. */
module Git {
  import opened Wrappers
  import opened Text

  type Tree = map<string, string>

  datatype Commit = Commit(sha: string, message: string, tree: Tree)

  /** HEAD: on a branch, or detached at a commit (by position in history). */
  datatype Head = OnBranch(branch: string) | Detached(at: nat)

  datatype StashEntry = StashEntry(message: string, worktree: Tree, index: Tree)

  /** The hexsha of the n-th commit (commit ids are abstract). */
  function Sha(n: nat): string {
    "c" + NatToString(n)
  }

  /** The files of `wt` that are not in `idx`: untracked files. */
  function Untracked(wt: Tree, idx: Tree): (r: Tree)
    ensures forall k :: k in r <==> k in wt && k !in idx
  {
    map k | k in wt && k !in idx :: wt[k]
  }

  /** `base` with the untracked files of `wt` that `base` lacks put back:
      what a hard reset or a forced checkout to `base` leaves. */
  function KeepUntracked(base: Tree, wt: Tree, idx: Tree): (r: Tree)
    ensures forall k :: k in r <==> k in base || (k in wt && k !in idx)
    ensures forall k :: k in base ==> r[k] == base[k]
  {
    Untracked(wt, idx) + base
  }

  /** The files of the working tree `wt` that `git status` sees with the
      index `idx`: ignored untracked files left out. */
  function VisibleOf(wt: Tree, idx: Tree, ignored: set<string>): (r: Tree)
    ensures forall k :: k in r <==> k in wt && (k in idx || k !in ignored)
    ensures forall k :: k in r ==> r[k] == wt[k]
  {
    map k | k in wt && (k in idx || k !in ignored) :: wt[k]
  }

  /** `is_dirty(untracked_files=True)` of a working tree, an index and the
      tree of HEAD: staged changes, unstaged changes or untracked files that
      are not ignored. */
  predicate Dirty(wt: Tree, idx: Tree, headTree: Tree, ignored: set<string>) {
    idx != headTree || VisibleOf(wt, idx, ignored) != idx
  }

  /** The working tree after the autostash (`git stash push -u` when the
      state is dirty): HEAD's tree plus the ignored untracked files. */
  function Autostashed(wt: Tree, idx: Tree, headTree: Tree, ignored: set<string>): Tree {
    if Dirty(wt, idx, headTree, ignored) then KeepUntracked(headTree, IgnoredOnly(wt, idx, ignored), idx)
    else wt
  }

  /** `git add -A` followed by a commit leaves a clean state: the index,
      HEAD's tree and what `git status` sees are the same snapshot. */
  lemma CommitLeavesClean(wt: Tree, idx: Tree, ignored: set<string>)
    ensures var snapshot := VisibleOf(wt, idx, ignored);
      !Dirty(wt, snapshot, snapshot, ignored)
  {
    var snapshot := VisibleOf(wt, idx, ignored);
    var again := VisibleOf(wt, snapshot, ignored);
    forall k
      ensures k in again <==> k in snapshot
    {
    }
    assert forall k :: k in again ==> again[k] == snapshot[k];
    assert again == snapshot;
  }

  class Repo {
    var commits: seq<Commit>
    var branches: map<string, nat>
    var head: Head
    var index: Tree
    var worktree: Tree
    var stash: seq<StashEntry>
    /** Paths `.gitignore` excludes. */
    const ignored: set<string>

    predicate Valid()
      reads this
    {
      |commits| > 0
      && (forall b :: b in branches ==> branches[b] < |commits|)
      && (head.OnBranch? ==> head.branch in branches)
      && (head.Detached? ==> head.at < |commits|)
    }

    constructor (initial: Tree, branch: string, ignored: set<string>)
      ensures Valid()
      ensures commits == [Commit(Sha(0), "Initial commit", initial)]
      ensures branches == map[branch := 0] && head == OnBranch(branch)
      ensures index == initial && worktree == initial && stash == [] && this.ignored == ignored
    {
      commits := [Commit(Sha(0), "Initial commit", initial)];
      branches := map[branch := 0];
      head := OnBranch(branch);
      index := initial;
      worktree := initial;
      stash := [];
      this.ignored := ignored;
    }

    /** The commit HEAD points at. */
    function HeadCommit(): (n: nat)
      reads this
      requires Valid()
      ensures n < |commits|
    {
      match head
      case OnBranch(b) => branches[b]
      case Detached(n) => n
    }

    function HeadTree(): Tree
      reads this
      requires Valid()
    {
      commits[HeadCommit()].tree
    }

    /** The working tree as `git status` sees it: ignored untracked files
        left out. */
    function Visible(): (r: Tree)
      reads this
      ensures forall k :: k in r <==> k in worktree && (k in index || k !in ignored)
    {
      VisibleOf(worktree, index, ignored)
    }

    /** `repo.is_dirty(untracked_files=True)`: staged changes, unstaged
        changes or untracked files that are not ignored. */
    predicate IsDirty()
      reads this
      requires Valid()
    {
      Dirty(worktree, index, HeadTree(), ignored)
    }

    /** `repo.active_branch.name`, or the hexsha of HEAD when it is detached
        (where `active_branch` raises TypeError). */
    function ActiveRef(): (r: string)
      reads this
      requires Valid()
      ensures head.OnBranch? ==> r == head.branch
      ensures head.Detached? ==> r == commits[head.at].sha
    {
      match head
      case OnBranch(b) => b
      case Detached(n) => commits[n].sha
    }

    /** The commit a ref names: a branch first, then a commit id. */
    function Resolve(ref: string): (r: Option<nat>)
      reads this
      requires Valid()
      ensures r.Some? ==> r.value < |commits|
      ensures ref in branches ==> r == Some(branches[ref])
    {
      if ref in branches then Some(branches[ref]) else FirstWithSha(commits, ref)
    }

    /** Writes a file into the working tree. */
    method WriteFile(path: string, content: string)
      modifies this
      ensures worktree == old(worktree)[path := content]
      ensures commits == old(commits) && branches == old(branches) && head == old(head)
      ensures index == old(index) && stash == old(stash)
    {
      worktree := worktree[path := content];
    }

    /** `os.remove(path)`; removing an absent file is a no-op here. */
    method RemoveFile(path: string)
      modifies this
      ensures worktree == old(worktree) - {path}
      ensures commits == old(commits) && branches == old(branches) && head == old(head)
      ensures index == old(index) && stash == old(stash)
    {
      worktree := worktree - {path};
    }

    /** `git stash push -u -m <message>`: saves tracked changes and untracked,
        non-ignored files, and leaves HEAD's tree plus the ignored files. With
        nothing to save, nothing happens. */
    method StashPush(message: string)
      requires Valid()
      modifies this
      ensures Valid()
      ensures old(IsDirty()) ==> stash == old(stash) + [StashEntry(message, old(worktree), old(index))]
      ensures old(IsDirty()) ==> index == HeadTree()
      ensures old(IsDirty()) ==> worktree == KeepUntracked(HeadTree(), IgnoredOnly(old(worktree), old(index), ignored), old(index))
      ensures !old(IsDirty()) ==> stash == old(stash) && index == old(index) && worktree == old(worktree)
      ensures commits == old(commits) && branches == old(branches) && head == old(head)
    {
      if IsDirty() {
        stash := stash + [StashEntry(message, worktree, index)];
        var kept := IgnoredOnly(worktree, index, ignored);
        worktree := KeepUntracked(HeadTree(), kept, index);
        index := HeadTree();
      }
    }

    /** `repo.create_head(name)`: a branch at HEAD's commit; an existing name
        is an error. */
    method CreateHead(name: string) returns (r: Result<()>)
      requires Valid()
      modifies this
      ensures Valid()
      ensures r.Raise? <==> name in old(branches)
      ensures r.Raise? ==> r.exc == Exc(GitCommandError, BranchExists(name)) && branches == old(branches)
      ensures r.Ok? ==> branches == old(branches)[name := old(HeadCommit())]
      ensures commits == old(commits) && head == old(head) && index == old(index)
      ensures worktree == old(worktree) && stash == old(stash)
    {
      if name in branches {
        return Raise(Exc(GitCommandError, BranchExists(name)));
      }
      branches := branches[name := HeadCommit()];
      return Ok(());
    }

    /** `branch.checkout()` of a branch at HEAD's own commit: only HEAD moves. */
    method SwitchTo(name: string)
      requires Valid() && name in branches && branches[name] == HeadCommit()
      modifies this
      ensures Valid()
      ensures head == OnBranch(name) && HeadCommit() == old(HeadCommit())
      ensures commits == old(commits) && branches == old(branches) && index == old(index)
      ensures worktree == old(worktree) && stash == old(stash)
    {
      head := OnBranch(name);
    }

    /** `git checkout --force <ref>`: HEAD moves to the ref (a branch, or a
        commit id that detaches HEAD), index and tracked files are reset to
        its tree, untracked files stay. An unknown ref is an error. */
    method ForceCheckout(ref: string) returns (r: Result<()>)
      requires Valid()
      modifies this
      ensures Valid()
      ensures r.Ok? <==> old(Resolve(ref)).Some?
      ensures r.Raise? ==> (r.exc.kind == GitCommandError && head == old(head)
                            && index == old(index) && worktree == old(worktree))
      ensures r.Ok? ==> HeadCommit() == old(Resolve(ref)).value && ActiveRef() == ref
      ensures r.Ok? ==> (if ref in old(branches) then head == OnBranch(ref) else head.Detached?)
      ensures r.Ok? ==> (index == HeadTree()
                         && worktree == KeepUntracked(HeadTree(), old(worktree), old(index)))
      ensures commits == old(commits) && branches == old(branches) && stash == old(stash)
    {
      var target := Resolve(ref);
      if target.None? {
        return Raise(Exc(GitCommandError, "error: pathspec '" + ref + "' did not match any file(s) known to git"));
      }
      if ref in branches {
        head := OnBranch(ref);
      } else {
        head := Detached(target.value);
      }
      worktree := KeepUntracked(commits[target.value].tree, worktree, index);
      index := commits[target.value].tree;
      return Ok(());
    }

    /** `repo.delete_head(name, force=True)`: the checked-out branch and
        unknown names cannot be deleted. */
    method DeleteHead(name: string) returns (r: Result<()>)
      requires Valid()
      modifies this
      ensures Valid()
      ensures r.Ok? <==> name in old(branches) && old(head) != OnBranch(name)
      ensures r.Raise? ==> r.exc.kind == GitCommandError && branches == old(branches)
      ensures r.Ok? ==> branches == old(branches) - {name}
      ensures commits == old(commits) && head == old(head) && index == old(index)
      ensures worktree == old(worktree) && stash == old(stash)
    {
      if name !in branches || head == OnBranch(name) {
        return Raise(Exc(GitCommandError, "error: cannot delete branch '" + name + "'"));
      }
      branches := branches - {name};
      return Ok(());
    }

    /** `git apply <patch-file>`: the patch is read from the working tree;
        `patch` says what applying its text to a tree gives, or None when it
        does not apply. */
    method Apply(patchPath: string, patch: (Tree, string) -> Option<Tree>) returns (r: Result<()>)
      requires Valid()
      modifies this
      ensures Valid()
      ensures r.Ok? <==> patchPath in old(worktree) && patch(old(worktree), old(worktree)[patchPath]).Some?
      ensures r.Raise? ==> worktree == old(worktree)
      ensures r.Raise? ==> r.exc == Exc(GitCommandError, if patchPath in old(worktree) then PatchFailed else NoPatchFile(patchPath))
      ensures r.Ok? ==> worktree == patch(old(worktree), old(worktree)[patchPath]).value
      ensures commits == old(commits) && branches == old(branches) && head == old(head)
      ensures index == old(index) && stash == old(stash)
    {
      if patchPath !in worktree {
        return Raise(Exc(GitCommandError, NoPatchFile(patchPath)));
      }
      var result := patch(worktree, worktree[patchPath]);
      if result.None? {
        return Raise(Exc(GitCommandError, PatchFailed));
      }
      worktree := result.value;
      return Ok(());
    }

    /** `git apply` of a patch whose text is read from outside the working
        tree. */
    method ApplyText(text: string, patch: (Tree, string) -> Option<Tree>) returns (r: Result<()>)
      requires Valid()
      modifies this
      ensures Valid()
      ensures r.Ok? <==> patch(old(worktree), text).Some?
      ensures r.Raise? ==> worktree == old(worktree) && r.exc == Exc(GitCommandError, PatchFailed)
      ensures r.Ok? ==> worktree == patch(old(worktree), text).value
      ensures commits == old(commits) && branches == old(branches) && head == old(head)
      ensures index == old(index) && stash == old(stash)
    {
      var result := patch(worktree, text);
      if result.None? {
        return Raise(Exc(GitCommandError, PatchFailed));
      }
      worktree := result.value;
      return Ok(());
    }

    /** `git add -A`: the index becomes the visible working tree. */
    method AddAll()
      requires Valid()
      modifies this
      ensures Valid()
      ensures index == old(Visible())
      ensures commits == old(commits) && branches == old(branches) && head == old(head)
      ensures worktree == old(worktree) && stash == old(stash)
    {
      index := Visible();
    }

    /** `repo.index.commit(message)`: a new commit of the index on top of
        HEAD, which advances the current branch. */
    method CommitIndex(message: string) returns (sha: string)
      requires Valid()
      modifies this
      ensures Valid()
      ensures commits == old(commits) + [Commit(sha, message, old(index))]
      ensures sha == Sha(|old(commits)|) && HeadCommit() == |old(commits)|
      ensures old(head).OnBranch? ==> (head == old(head)
                                       && branches == old(branches)[old(head).branch := |old(commits)|])
      ensures old(head).Detached? ==> head == Detached(|old(commits)|) && branches == old(branches)
      ensures index == old(index) && worktree == old(worktree) && stash == old(stash)
    {
      sha := Sha(|commits|);
      var n := |commits|;
      commits := commits + [Commit(sha, message, index)];
      match head
      case OnBranch(b) => branches := branches[b := n];
      case Detached(_) => head := Detached(n);
    }

    /** `git reset --hard HEAD`: index and tracked files back to HEAD's
        tree; untracked files stay. */
    method ResetHard()
      requires Valid()
      modifies this
      ensures Valid()
      ensures index == HeadTree()
      ensures worktree == KeepUntracked(HeadTree(), old(worktree), old(index))
      ensures commits == old(commits) && branches == old(branches) && head == old(head)
      ensures stash == old(stash)
    {
      worktree := KeepUntracked(HeadTree(), worktree, index);
      index := HeadTree();
    }
  }

  /** The working tree after `git stash push -u` of a dirty repository, or
      as it was. */
  function AfterAutostash(repo: Repo): Tree
    reads repo
    requires repo.Valid()
  {
    Autostashed(repo.worktree, repo.index, repo.HeadTree(), repo.ignored)
  }

  /** The messages git prints for the failures modelled here. */
  function BranchExists(name: string): string {
    "fatal: a branch named '" + name + "' already exists"
  }

  function NoPatchFile(path: string): string {
    "error: can't open patch '" + path + "': No such file or directory"
  }

  const PatchFailed := "error: patch failed"

  /** The untracked files of `wt` that the ignore rules exclude. */
  function IgnoredOnly(wt: Tree, idx: Tree, ignored: set<string>): (r: Tree)
    ensures forall k :: k in r <==> k in wt && k !in idx && k in ignored
  {
    map k | k in wt && k !in idx && k in ignored :: wt[k]
  }

  /** The first commit with the given id. */
  function FirstWithSha(cs: seq<Commit>, sha: string): (r: Option<nat>)
    ensures r.Some? ==> r.value < |cs| && cs[r.value].sha == sha
    ensures r.None? ==> forall i :: 0 <= i < |cs| ==> cs[i].sha != sha
  {
    if |cs| == 0 then None
    else if cs[0].sha == sha then Some(0)
    else match FirstWithSha(cs[1..], sha)
      case None => None
      case Some(i) => Some(i + 1)
  }
}
