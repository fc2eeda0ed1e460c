/** The code-modifier plugin (backend/app/plugins/code_modifier_plugin.py):
    target parsing, the allow-list check, reading the targets, formatting,
    diff assembly, the sandboxed test run and the `execute` gate chain. */
module CodeModifier {
  import opened Wrappers
  import opened Text
  import opened Dicts
  import opened Json
  import opened Paths
  import opened Difflib
  import opened Git
  import opened Models
  import opened Crud

  const PluginId := "code_modifier"
  const PluginName := "Code Modifier"
  const PluginDescription := "Analyzes natural language prompts to suggest, format, test, and (upon approval) apply code modifications to the project."

  /** `settings.CODEBASE_PATH` with its configured default. */
  const CodebasePath := "/frankie_codebase/"
  const CodebaseName := "frankie_codebase"

  const NoTargetsMessage := "No target files specified for permission check."
  const NoDiffPlaceholder := "-- No textual changes detected" + " or no modifications proposed --"
  const NoModificationsDiff := "-- No changes proposed by LLM --"

  // ---------------------------------------------------------------------
  // Target parsing: `[p.strip() for p in target_files.split(',') if p.strip()]`

  /** The stripped, non-blank pieces, in order. */
  function StrippedNonBlank(pieces: seq<string>): (r: seq<string>)
    ensures |r| <= |pieces|
  {
    if |pieces| == 0 then []
    else (if IsBlank(pieces[0]) then [] else [Strip(pieces[0])]) + StrippedNonBlank(pieces[1..])
  }

  /** Every entry of `r` is non-empty and is some piece, stripped. */
  predicate StrippedFrom(r: seq<string>, pieces: seq<string>) {
    forall k :: 0 <= k < |r| ==> r[k] != "" && exists j :: 0 <= j < |pieces| && r[k] == Strip(pieces[j])
  }

  /** Every kept piece is a non-empty stripped input piece. */
  lemma {:induction false} StrippedNonBlankSound(pieces: seq<string>)
    ensures StrippedFrom(StrippedNonBlank(pieces), pieces)
  {
    if |pieces| > 0 {
      var rest := StrippedNonBlank(pieces[1..]);
      StrippedNonBlankSound(pieces[1..]);
      var head := if IsBlank(pieces[0]) then [] else [Strip(pieces[0])];
      var r := head + rest;
      assert r == StrippedNonBlank(pieces);
      forall k | 0 <= k < |r|
        ensures r[k] != "" && exists j :: 0 <= j < |pieces| && r[k] == Strip(pieces[j])
      {
        if k < |head| {
          assert r[k] == Strip(pieces[0]);
        } else {
          var i := k - |head|;
          assert r[k] == rest[i];
          assert 0 <= i < |rest|;
          assert StrippedFrom(rest, pieces[1..]);
          var j :| 0 <= j < |pieces[1..]| && rest[i] == Strip(pieces[1..][j]);
          assert pieces[1..][j] == pieces[j + 1];
        }
      }
    }
  }

  /** Nothing is kept exactly when every piece is blank. */
  lemma {:induction false} StrippedNonBlankEmpty(pieces: seq<string>)
    ensures StrippedNonBlank(pieces) == [] <==> forall j :: 0 <= j < |pieces| ==> IsBlank(pieces[j])
  {
    if |pieces| > 0 {
      StrippedNonBlankEmpty(pieces[1..]);
      if forall j :: 0 <= j < |pieces[1..]| ==> IsBlank(pieces[1..][j]) {
        forall j | 1 <= j < |pieces| ensures IsBlank(pieces[j]) {
          assert pieces[j] == pieces[1..][j - 1];
        }
      }
      if forall j :: 0 <= j < |pieces| ==> IsBlank(pieces[j]) {
        forall j | 0 <= j < |pieces[1..]| ensures IsBlank(pieces[1..][j]) {
          assert pieces[1..][j] == pieces[j + 1];
        }
      }
    }
  }

  function ParseTargets(targetFiles: string): (r: seq<string>)
  {
    StrippedNonBlank(Split(targetFiles, ','))
  }

  // ---------------------------------------------------------------------
  // Allow-list rules

  /** A target or rule as the check compares it: stripped, then
      `Path(...).as_posix()`. */
  function Normalised(p: string): string {
    AsPosix(Strip(p))
  }

  /** The rule test as written: a normalised rule ending in `/` is a prefix,
      any other rule must equal the target. */
  predicate RuleAllows(rule: string, target: string) {
    var r := Normalised(rule);
    if EndsWith(r, "/") then StartsWith(target, r) else target == r
  }

  /** Because `as_posix()` drops a trailing slash, only the bare roots act
      as prefixes; every other rule admits exactly its own path. */
  lemma RuleAllowsExactly(rule: string, target: string)
    ensures Normalised(rule) != "/" && Normalised(rule) != "//" ==> (RuleAllows(rule, target) <==> target == Normalised(rule))
    ensures Normalised(rule) == "/" ==> (RuleAllows(rule, target) <==> StartsWith(target, "/"))
  {
    AsPosixTrailingSlash(Strip(rule));
  }

  /** The rule test as intended: a rule written with a trailing slash admits
      the directory and everything below it. */
  predicate RuleAllowsIntended(rule: string, target: string) {
    var r := Normalised(rule);
    if EndsWith(r, "/") then StartsWith(target, r)
    else if EndsWith(Strip(rule), "/") then target == r || StartsWith(target, r + "/")
    else target == r
  }

  /** The intended test only adds targets to what the written one admits. */
  lemma RuleAllowsIntendedExtends(rule: string, target: string)
    ensures RuleAllows(rule, target) ==> RuleAllowsIntended(rule, target)
  {
  }

  lemma AsPosixDir(dir: string)
    requires Plain(dir)
    ensures AsPosix(dir + "/") == dir
  {
    assert dir + "/" == dir + ['/'] + "";
    SplitCons(dir, '/', "");
    var segs := [dir, ""];
    assert Split(dir + "/", '/') == segs;
    assert segs[1..] == [""];
    assert [""][1..] == [];
    assert NamedSegments(segs) == [dir];
    assert dir[0] in dir;
    assert Root(dir + "/") == "";
  }

  /** A directory rule `dir/` does not admit `dir/<rest>` as written, but
      does as intended. */
  lemma DirectoryRuleCounterexample(dir: string, rest: string)
    requires Plain(dir) && !IsSpace(dir[0])
    ensures !RuleAllows(dir + "/", dir + "/" + rest)
    ensures RuleAllowsIntended(dir + "/", dir + "/" + rest)
  {
    var rule := dir + "/";
    assert rule[0] == dir[0] && rule[|rule| - 1] == '/';
    StripUnpadded(rule);
    AsPosixDir(dir);
    assert dir[|dir| - 1] in dir;
    assert !EndsWith(dir, "/");
    assert (dir + "/" + rest)[..|dir + "/"|] == dir + "/";
  }

  // ---------------------------------------------------------------------
  // The two readings of the plugin

  /** Which reading of the rule test, the containment test and the diff's
      line terminator the plugin runs: the code as written, or with the
      three corrected (directory rules admit what lies below them, reads
      stay below the codebase directory, diff headers end in a newline). */
  datatype Reading = AsWritten | Intended

  /** The rule test under a reading. */
  predicate RuleTest(v: Reading, rule: string, target: string) {
    if v.AsWritten? then RuleAllows(rule, target) else RuleAllowsIntended(rule, target)
  }

  /** The containment test under a reading. */
  predicate InsideTest(v: Reading, full: string) {
    if v.AsWritten? then InsideAsWritten(full) else InsideIntended(full)
  }

  /** The `lineterm` of the diff under a reading. */
  function LineTerm(v: Reading): string {
    if v.AsWritten? then "" else "\n"
  }

  // ---------------------------------------------------------------------
  // The permission check

  function RulePaths(ps: seq<AgentPermission>): (r: set<string>)
    ensures forall p :: p in r <==> exists i :: 0 <= i < |ps| && ps[i].path == p
  {
    set i | 0 <= i < |ps| :: ps[i].path
  }

  /** Some rule admits the target. */
  predicate Allowed(v: Reading, rules: set<string>, target: string) {
    exists rule :: rule in rules && RuleTest(v, rule, target)
  }

  function DeniedMessage(target: string): string {
    "Agent permission denied for '" + target + "'. Please add this path or a parent directory (ending with '/') to the allowed paths in admin settings."
  }

  /** The outcome of checking the targets from position `i` on. */
  function CheckFrom(v: Reading, paths: seq<string>, rules: set<string>, i: nat): (r: Result<()>)
    requires i <= |paths|
    ensures r.Ok? <==> forall j :: i <= j < |paths| ==> Allowed(v, rules, Normalised(paths[j]))
    ensures r.Raise? ==> (r.exc.kind == PermissionError
                          && exists j :: i <= j < |paths| && !Allowed(v, rules, Normalised(paths[j]))
                                         && r.exc.msg == DeniedMessage(Normalised(paths[j])))
    decreases |paths| - i
  {
    if i == |paths| then Ok(())
    else if !Allowed(v, rules, Normalised(paths[i])) then Raise(Exc(PermissionError, DeniedMessage(Normalised(paths[i]))))
    else CheckFrom(v, paths, rules, i + 1)
  }

  /** `_check_permissions`: no targets is a ValueError; otherwise every
      target must be admitted by some rule, and the first that is not raises
      a PermissionError naming its normalised path. */
  function PermissionCheck(v: Reading, paths: seq<string>, rules: set<string>): (r: Result<()>)
    ensures r.Ok? <==> |paths| > 0 && forall j :: 0 <= j < |paths| ==> Allowed(v, rules, Normalised(paths[j]))
    ensures |paths| == 0 ==> r == Raise(Exc(ValueError, NoTargetsMessage))
    ensures |paths| > 0 && r.Raise? ==> (r.exc.kind == PermissionError
                                         && exists j :: 0 <= j < |paths| && !Allowed(v, rules, Normalised(paths[j]))
                                                        && r.exc.msg == DeniedMessage(Normalised(paths[j])))
  {
    if |paths| == 0 then Raise(Exc(ValueError, NoTargetsMessage)) else CheckFrom(v, paths, rules, 0)
  }

  /** The corrected rule test admits every target the written one admits. */
  lemma AllowedIntendedExtends(rules: set<string>, target: string)
    ensures Allowed(AsWritten, rules, target) ==> Allowed(Intended, rules, target)
  {
    if Allowed(AsWritten, rules, target) {
      var rule :| rule in rules && RuleTest(AsWritten, rule, target);
      RuleAllowsIntendedExtends(rule, target);
      assert RuleTest(Intended, rule, target);
    }
  }

  /** The message of a denial contains the normalised path. */
  lemma DeniedMessageNamesPath(target: string)
    ensures Contains(DeniedMessage(target), target)
  {
    var pre := "Agent permission denied for '";
    var m := DeniedMessage(target);
    ContainsAt(m, target, |pre|);
  }

  lemma {:induction false} ContainsAt(s: string, sub: string, k: nat)
    requires k + |sub| <= |s| && s[k..k + |sub|] == sub
    ensures Contains(s, sub)
  {
    if k > 0 {
      assert s[1..][k - 1..k - 1 + |sub|] == sub;
      ContainsAt(s[1..], sub, k - 1);
    }
  }

  // ---------------------------------------------------------------------
  // Keeping reads inside the codebase

  /** `os.path.normpath(os.path.join(CODEBASE_PATH, clean))`. */
  function Resolve(clean: string): (r: string)
    ensures StartsWith(r, "/")
  {
    assert StartsWith(CodebasePath, "/");
    Normpath(Join(CodebasePath, clean))
  }

  /** `abspath(CODEBASE_PATH)`. */
  lemma CodebaseBase()
    ensures Plain(CodebaseName)
    ensures Normpath(CodebasePath) == "/" + CodebaseName
  {
    assert CodebasePath == "/" + CodebaseName + "/";
    NormpathOfDir(CodebaseName);
  }

  /** The containment test as written: a string-prefix test of
      `abspath(full)` against `abspath(CODEBASE_PATH)`. */
  predicate InsideAsWritten(full: string) {
    StartsWith(Normpath(full), Normpath(CodebasePath))
  }

  /** The containment test as intended: the codebase itself or a path
      below it. */
  predicate InsideIntended(full: string) {
    var base := Normpath(CodebasePath);
    Normpath(full) == base || StartsWith(Normpath(full), base + "/")
  }

  lemma InsideIntendedIsStricter(full: string)
    ensures InsideIntended(full) ==> InsideAsWritten(full)
  {
    var base := Normpath(CodebasePath);
    var n := Normpath(full);
    if StartsWith(n, base + "/") {
      assert n[..|base|] == (base + "/")[..|base|] == base;
    }
  }

  /** As written, `../<name>` for a sibling directory whose name merely
      starts with `frankie_codebase` (such as `frankie_codebase_old`)
      resolves outside the codebase and still passes the test. */
  lemma EscapeAsWritten(name: string)
    requires Plain(name) && |name| > |CodebaseName| && name[..|CodebaseName|] == CodebaseName
    requires !IsSpace(name[|name| - 1])
    ensures Resolve(Strip("../" + name)) == "/" + name
    ensures InsideAsWritten(Resolve(Strip("../" + name)))
    ensures !InsideIntended(Resolve(Strip("../" + name)))
  {
    StripEscape(name);
    ResolveEscape(name);
    SiblingInside(name);
  }

  lemma StripEscape(name: string)
    requires name != "" && !IsSpace(name[|name| - 1])
    ensures Strip("../" + name) == "../" + name
  {
    var rel := "../" + name;
    assert rel[|rel| - 1] == name[|name| - 1];
    StripUnpadded(rel);
  }

  lemma SiblingInside(name: string)
    requires Plain(name) && |name| > |CodebaseName| && name[..|CodebaseName|] == CodebaseName
    ensures InsideAsWritten("/" + name) && !InsideIntended("/" + name)
  {
    CodebaseBase();
    NormpathOfPlain([name]);
    assert "/" + JoinWith([name], "/") == "/" + name;
    SiblingNotBelow(name);
  }

  lemma ResolveEscape(name: string)
    requires Plain(name)
    ensures Resolve("../" + name) == "/" + name
  {
    var rel := "../" + name;
    assert rel[0] == '.';
    JoinCodebase(rel);
    CodebaseBase();
    ParentSpelling(name);
    NormpathOfParent(CodebaseName, name);
  }

  lemma JoinCodebase(rel: string)
    requires !StartsWith(rel, "/")
    ensures Join(CodebasePath, rel) == CodebasePath + rel
  {
    assert CodebasePath[|CodebasePath| - 1..] == "/";
  }

  lemma ParentSpelling(name: string)
    ensures CodebasePath + ("../" + name) == "/" + CodebaseName + "/../" + name
  {
    assert CodebasePath == "/" + CodebaseName + "/";
  }

  lemma SiblingNotBelow(name: string)
    requires '/' !in name && |name| > |CodebaseName| && name[..|CodebaseName|] == CodebaseName
    ensures StartsWith("/" + name, "/" + CodebaseName)
    ensures "/" + name != "/" + CodebaseName
    ensures !StartsWith("/" + name, "/" + CodebaseName + "/")
  {
    var full := "/" + name;
    var base := "/" + CodebaseName;
    assert full[..|base|] == base;
    assert name[|CodebaseName|] in name;
    assert full[|base|] == name[|CodebaseName|];
  }

  /** As intended, a relative path made of plain segments resolves below
      the codebase and passes. */
  lemma PlainPathInside(segs: seq<string>)
    requires |segs| > 0 && forall k :: 0 <= k < |segs| ==> Plain(segs[k])
    ensures Resolve(JoinWith(segs, "/")) == CodebasePath + JoinWith(segs, "/")
    ensures InsideIntended(Resolve(JoinWith(segs, "/")))
  {
    var rel := JoinWith(segs, "/");
    JoinWithHead(segs, "/");
    assert segs[0][0] in segs[0];
    JoinCodebase(rel);
    CodebaseSpelling(segs);
    NormpathOfPlain([CodebaseName] + segs);
    CodebaseBase();
    BelowBase(rel);
  }

  /** `CODEBASE_PATH` followed by plain segments is one absolute path of
      plain segments. */
  lemma CodebaseSpelling(segs: seq<string>)
    requires |segs| > 0 && forall k :: 0 <= k < |segs| ==> Plain(segs[k])
    ensures CodebasePath + JoinWith(segs, "/") == "/" + JoinWith([CodebaseName] + segs, "/")
    ensures forall k :: 0 <= k < |[CodebaseName] + segs| ==> Plain(([CodebaseName] + segs)[k])
  {
    CodebaseParts();
    DirSpelling(CodebaseName, segs);
  }

  /** `CODEBASE_PATH` is the directory `CodebaseName` under the root. */
  lemma CodebaseParts()
    ensures Plain(CodebaseName) && CodebasePath == "/" + CodebaseName + "/"
  {
    assert CodebasePath == "/" + CodebaseName + "/";
  }

  lemma DirSpelling(name: string, segs: seq<string>)
    requires Plain(name) && |segs| > 0 && forall k :: 0 <= k < |segs| ==> Plain(segs[k])
    ensures ("/" + name + "/") + JoinWith(segs, "/") == "/" + JoinWith([name] + segs, "/")
    ensures forall k :: 0 <= k < |[name] + segs| ==> Plain(([name] + segs)[k])
  {
    var all := [name] + segs;
    forall k | 0 <= k < |all| ensures Plain(all[k]) {
      if k > 0 { assert all[k] == segs[k - 1]; }
    }
    JoinWithCons(name, segs, "/");
  }

  lemma BelowBase(rel: string)
    ensures StartsWith(CodebasePath + rel, "/" + CodebaseName + "/")
  {
    assert CodebasePath == "/" + CodebaseName + "/";
    assert (CodebasePath + rel)[..|CodebasePath|] == CodebasePath;
  }

  // ---------------------------------------------------------------------
  // Reading the targets

  /** What lives at an absolute path. */
  datatype FsEntry = File(content: string) | Unreadable(reason: string) | Directory
  type Fs = map<string, FsEntry>

  /** The content a target starts from: the file's text, or `""` for a path
      that is missing or not a regular file. */
  function StartingContent(fs: Fs, full: string): string {
    if full in fs && fs[full].File? then fs[full].content else ""
  }

  predicate UnreadableAt(fs: Fs, full: string) {
    full in fs && fs[full].Unreadable?
  }

  /** A target `_read_files` accepts: it resolves inside the codebase and
      is not unreadable. */
  predicate Readable(v: Reading, fs: Fs, target: string) {
    var full := Resolve(Strip(target));
    InsideTest(v, full) && !UnreadableAt(fs, full)
  }

  /** The corrected containment test reads no target the written one
      refuses. */
  lemma ReadableIntendedNarrows(fs: Fs, target: string)
    ensures Readable(Intended, fs, target) ==> Readable(AsWritten, fs, target)
  {
    InsideIntendedIsStricter(Resolve(Strip(target)));
  }

  /** Every key read so far maps to what its resolved path starts from. */
  ghost predicate Faithful(read: seq<(string, string)>, fs: Fs) {
    forall k :: Lookup(read, k).Some? ==> Lookup(read, k).value == StartingContent(fs, Resolve(k))
  }

  lemma PutFaithful(read: seq<(string, string)>, fs: Fs, clean: string)
    requires Faithful(read, fs)
    ensures Faithful(Put(read, clean, StartingContent(fs, Resolve(clean))), fs)
  {
  }

  /** The read loop from position `i` on, `acc` holding what was read so
      far (keys are the stripped paths). */
  function ReadFrom(v: Reading, targets: seq<string>, fs: Fs, i: nat, acc: seq<(string, string)>): Result<seq<(string, string)>>
    requires i <= |targets|
    decreases |targets| - i
  {
    if i == |targets| then Ok(acc)
    else
      var clean := Strip(targets[i]);
      var full := Resolve(clean);
      if !InsideTest(v, full) then
        Raise(Exc(PermissionError, "Attempt to access file outside designated codebase via path: '" + clean + "' resolved to '" + full + "'"))
      else if UnreadableAt(fs, full) then
        Raise(Exc(FileNotFoundError, "Could not read target file: '" + clean + "'. Error: " + fs[full].reason))
      else
        ReadFrom(v, targets, fs, i + 1, Put(acc, clean, StartingContent(fs, full)))
  }

  /** The read loop succeeds exactly when every remaining target is
      readable, and fails only with a permission or file-not-found error. */
  lemma {:induction false} ReadFromSucceeds(v: Reading, targets: seq<string>, fs: Fs, i: nat, acc: seq<(string, string)>)
    requires i <= |targets|
    ensures ReadFrom(v, targets, fs, i, acc).Ok? <==> forall j :: i <= j < |targets| ==> Readable(v, fs, targets[j])
    ensures ReadFrom(v, targets, fs, i, acc).Raise? ==>
      ReadFrom(v, targets, fs, i, acc).exc.kind == PermissionError || ReadFrom(v, targets, fs, i, acc).exc.kind == FileNotFoundError
    decreases |targets| - i
  {
    if i < |targets| {
      var clean := Strip(targets[i]);
      var full := Resolve(clean);
      if InsideTest(v, full) && !UnreadableAt(fs, full) {
        assert Readable(v, fs, targets[i]);
        var acc' := Put(acc, clean, StartingContent(fs, full));
        ReadFromSucceeds(v, targets, fs, i + 1, acc');
        assert ReadFrom(v, targets, fs, i, acc) == ReadFrom(v, targets, fs, i + 1, acc');
        if forall j :: i + 1 <= j < |targets| ==> Readable(v, fs, targets[j]) {
          forall j | i <= j < |targets| ensures Readable(v, fs, targets[j]) {
          }
        }
      } else {
        assert !Readable(v, fs, targets[i]);
        assert ReadFrom(v, targets, fs, i, acc).Raise?;
      }
    }
  }


  /** A successful read of target `i` goes on from `i + 1` with that
      target's stripped path stored. */
  lemma ReadFromOkStep(v: Reading, targets: seq<string>, fs: Fs, i: nat, acc: seq<(string, string)>)
    requires i < |targets| && ReadFrom(v, targets, fs, i, acc).Ok?
    ensures ReadFrom(v, targets, fs, i, acc)
            == ReadFrom(v, targets, fs, i + 1, Put(acc, Strip(targets[i]), StartingContent(fs, Resolve(Strip(targets[i])))))
  {
  }

  /** A successful read keeps the keys read so far and adds every remaining
      target's stripped path. */
  lemma {:induction false} ReadFromKeys(v: Reading, targets: seq<string>, fs: Fs, i: nat, acc: seq<(string, string)>)
    requires i <= |targets| && ReadFrom(v, targets, fs, i, acc).Ok?
    ensures forall k :: Lookup(acc, k).Some? ==> Lookup(ReadFrom(v, targets, fs, i, acc).value, k).Some?
    ensures forall j :: i <= j < |targets| ==> Lookup(ReadFrom(v, targets, fs, i, acc).value, Strip(targets[j])).Some?
    decreases |targets| - i
  {
    if i < |targets| {
      var clean := Strip(targets[i]);
      var acc' := Put(acc, clean, StartingContent(fs, Resolve(clean)));
      ReadFromOkStep(v, targets, fs, i, acc);
      ReadFromKeys(v, targets, fs, i + 1, acc');
      var r := ReadFrom(v, targets, fs, i + 1, acc').value;
      assert Lookup(acc', clean).Some?;
      forall j | i <= j < |targets| ensures Lookup(r, Strip(targets[j])).Some? {
        if j == i {
          assert Lookup(r, clean).Some?;
        }
      }
    }
  }

  /** A successful read maps every key to what its resolved path starts from. */
  lemma {:induction false} ReadFromFaithful(v: Reading, targets: seq<string>, fs: Fs, i: nat, acc: seq<(string, string)>)
    requires i <= |targets| && Faithful(acc, fs) && ReadFrom(v, targets, fs, i, acc).Ok?
    ensures Faithful(ReadFrom(v, targets, fs, i, acc).value, fs)
    decreases |targets| - i
  {
    if i < |targets| {
      var clean := Strip(targets[i]);
      PutFaithful(acc, fs, clean);
      ReadFromFaithful(v, targets, fs, i + 1, Put(acc, clean, StartingContent(fs, Resolve(clean))));
    }
  }

  lemma ReadFromAll(v: Reading, targets: seq<string>, fs: Fs)
    ensures var r := ReadFrom(v, targets, fs, 0, []);
      && (r.Ok? <==> forall j :: 0 <= j < |targets| ==> Readable(v, fs, targets[j]))
      && (r.Ok? ==> forall j :: 0 <= j < |targets| ==> Lookup(r.value, Strip(targets[j])).Some?)
      && (r.Ok? ==> Faithful(r.value, fs))
  {
    assert Faithful([], fs);
    ReadFromSucceeds(v, targets, fs, 0, []);
    if ReadFrom(v, targets, fs, 0, []).Ok? {
      ReadFromKeys(v, targets, fs, 0, []);
      ReadFromFaithful(v, targets, fs, 0, []);
    }
  }

  /** `_read_files`, under the containment test the reading `v` selects. */
  function FilesRead(v: Reading, targets: seq<string>, fs: Fs): Result<seq<(string, string)>> {
    ReadFrom(v, targets, fs, 0, [])
  }

  /** Reading succeeds exactly when every target is readable, and then
      every target's stripped path is a key mapped to its file's content
      or `""`. */
  lemma FilesReadOutcome(v: Reading, targets: seq<string>, fs: Fs)
    ensures var r := FilesRead(v, targets, fs);
      (r.Ok? <==> forall j :: 0 <= j < |targets| ==> Readable(v, fs, targets[j]))
      && (r.Ok? ==> forall j :: 0 <= j < |targets| ==> Lookup(r.value, Strip(targets[j])).Some?)
      && (r.Ok? ==> Faithful(r.value, fs))
  {
    ReadFromAll(v, targets, fs);
  }

  // ---------------------------------------------------------------------
  // Formatting

  /** The formatters: `black.format_str`, Prettier run on a temporary file
      with the given suffix (None where they fail), and whether the
      frontend directory exists. */
  datatype Formatters = Formatters(black: string -> Option<string>,
                                   prettier: (string, string) -> Option<string>,
                                   frontendDir: bool)

  const PrettierSuffixes := [".js", ".jsx", ".ts", ".tsx", ".json", ".css", ".scss", ".html", ".md"]

  /** The last dot of a name, if any. */
  function LastDot(name: string): (r: Option<nat>)
    ensures r.Some? ==> r.value < |name| && name[r.value] == '.'
    ensures r.Some? ==> forall k :: r.value < k < |name| ==> name[k] != '.'
    ensures r.None? ==> '.' !in name
  {
    if |name| == 0 then None
    else if name[|name| - 1] == '.' then Some(|name| - 1)
    else LastDot(name[..|name| - 1])
  }

  /** `pathlib.PurePosixPath(p).suffix`: from the last dot of the final
      segment, unless that dot starts or ends the name. */
  function Suffix(p: string): (r: string)
    ensures r == "" || (r[0] == '.' && '/' !in r)
  {
    var segs := NamedSegments(Split(p, '/'));
    if |segs| == 0 then ""
    else
      var name := segs[|segs| - 1];
      assert name in Split(p, '/');
      match LastDot(name)
      case None => ""
      case Some(i) => if 0 < i < |name| - 1 then name[i..] else ""
  }

  /** `_format_code`: Black for `.py`, Prettier for the frontend suffixes
      when the frontend directory exists; anything else, and any formatter
      failure, leaves the code as it was. */
  function FormatCode(path: string, code: string, fmt: Formatters): (r: string)
    ensures Suffix(path) != ".py" && Suffix(path) !in PrettierSuffixes ==> r == code
    ensures r == code || (Suffix(path) == ".py" && fmt.black(code) == Some(r))
      || (Suffix(path) in PrettierSuffixes && fmt.frontendDir && fmt.prettier(Suffix(path), code) == Some(r))
  {
    var ext := Suffix(path);
    if ext == ".py" then fmt.black(code).GetOr(code)
    else if ext in PrettierSuffixes then
      (if fmt.frontendDir then fmt.prettier(ext, code).GetOr(code) else code)
    else code
  }

  /** One entry of `_format_modifications`: a dict with a truthy path and a
      string `new_code` is rebuilt with the formatted code; anything else is
      passed through. A non-dict entry has no `get`, and a non-string path
      makes `pathlib.Path` raise TypeError. */
  function FormatEntry(m: Json, fmt: Formatters): (r: Result<Json>)
    ensures r.Raise? ==> r.exc.kind == AttributeError || r.exc.kind == TypeError
  {
    match m
    case JObj(ms) =>
      var path := Lookup(ms, "file_path").GetOr(JNull);
      var code := Lookup(ms, "new_code").GetOr(JNull);
      if Truthy(path) && code.JStr? then
        if path.JStr? then
          Ok(JObj([("file_path", path), ("new_code", JStr(FormatCode(path.s, code.s, fmt)))]))
        else
          Raise(Exc(TypeError, "expected str, bytes or os.PathLike object, not " + TypeName(path)))
      else Ok(m)
    case _ => Raise(Exc(AttributeError, "'" + TypeName(m) + "' object has no attribute 'get'"))
  }

  /** A well-formed modification: a dict with a non-empty string path and
      string code. */
  predicate WellFormedModification(m: Json) {
    m.JObj? && Lookup(m.members, "file_path").Some? && Lookup(m.members, "file_path").value.JStr?
    && Lookup(m.members, "file_path").value.s != ""
    && Lookup(m.members, "new_code").Some? && Lookup(m.members, "new_code").value.JStr?
  }

  lemma FormatEntryShape(m: Json, fmt: Formatters)
    ensures WellFormedModification(m) ==> (FormatEntry(m, fmt).Ok?
      && FormatEntry(m, fmt).value == JObj([("file_path", Lookup(m.members, "file_path").value),
           ("new_code", JStr(FormatCode(Lookup(m.members, "file_path").value.s, Lookup(m.members, "new_code").value.s, fmt)))]))
    ensures m.JObj? && (!Truthy(Lookup(m.members, "file_path").GetOr(JNull)) || !Lookup(m.members, "new_code").GetOr(JNull).JStr?)
      ==> FormatEntry(m, fmt) == Ok(m)
  {
  }

  /** `_format_modifications` over the entries from position `i` on. */
  function FormatAll(mods: seq<Json>, fmt: Formatters): (r: Result<seq<Json>>)
    ensures r.Ok? ==> |r.value| == |mods|
    ensures r.Ok? ==> forall k :: 0 <= k < |mods| ==> FormatEntry(mods[k], fmt) == Ok(r.value[k])
    ensures r.Ok? <==> forall k :: 0 <= k < |mods| ==> FormatEntry(mods[k], fmt).Ok?
  {
    if |mods| == 0 then Ok([])
    else
      var first :- FormatEntry(mods[0], fmt);
      var rest :- FormatAll(mods[1..], fmt);
      assert forall k :: 1 <= k < |mods| ==> mods[k] == mods[1..][k - 1];
      Ok([first] + rest)
  }

  // ---------------------------------------------------------------------
  // Diff assembly

  /** The original a diff entry compares against: `originals.get(path, "")`
      (an unhashable path raises TypeError). */
  function OriginalOf(originals: seq<(string, string)>, path: Json): (r: Result<string>)
  {
    match path
    case JStr(p) => Ok(Lookup(originals, p).GetOr(""))
    case JArr(_) => Raise(Exc(TypeError, "unhashable type: 'list'"))
    case JObj(_) => Raise(Exc(TypeError, "unhashable type: 'dict'"))
    case _ => Ok("")
  }

  /** One entry's diff lines, with header and hunk lines ending in
      `lineterm`: nothing for an entry without a path. */
  function DiffEntry(m: Json, originals: seq<(string, string)>, lineterm: string): (r: Result<seq<string>>)
  {
    var path :- Get(m, "file_path", JNull);
    var code :- Get(m, "new_code", JStr(""));
    if !Truthy(path) then Ok([])
    else
      var original :- OriginalOf(originals, path);
      var newCode := if code.JStr? then code.s else "";
      Ok(UnifiedDiff(SplitLines(original), SplitLines(newCode), "a/" + Display(path), "b/" + Display(path), lineterm))
  }

  /** An entry whose code equals its original contributes no lines. */
  lemma UnchangedEntryContributesNothing(m: Json, originals: seq<(string, string)>, lineterm: string)
    requires m.JObj? && Lookup(m.members, "file_path").Some? && Lookup(m.members, "file_path").value.JStr?
    requires Lookup(m.members, "new_code").Some? && Lookup(m.members, "new_code").value.JStr?
    ensures DiffEntry(m, originals, lineterm) == Ok([])
      <==> (Lookup(m.members, "file_path").value.s == ""
            || Lookup(m.members, "new_code").value.s == Lookup(originals, Lookup(m.members, "file_path").value.s).GetOr(""))
  {
    var p := Lookup(m.members, "file_path").value.s;
    SplitLinesInjective(Lookup(originals, p).GetOr(""), Lookup(m.members, "new_code").value.s);
  }

  function DiffLines(mods: seq<Json>, originals: seq<(string, string)>, lineterm: string): (r: Result<seq<string>>)
  {
    if |mods| == 0 then Ok([])
    else
      var first :- DiffEntry(mods[0], originals, lineterm);
      var rest :- DiffLines(mods[1..], originals, lineterm);
      Ok(first + rest)
  }

  /** The joined diff text, or the placeholder when no entry produced a
      line. */
  function DiffText(lines: seq<string>): (r: string)
    ensures lines == [] ==> r == NoDiffPlaceholder
  {
    if lines == [] then NoDiffPlaceholder else Concat(lines)
  }

  /** `_generate_diff`: header and hunk lines end in the reading's line
      terminator; as written (`lineterm=""`) they carry no newline, where
      `git apply` needs one. */
  function DiffOf(v: Reading, mods: seq<Json>, originals: seq<(string, string)>): Result<string> {
    var lines :- DiffLines(mods, originals, LineTerm(v));
    Ok(DiffText(lines))
  }

  /** For one changed file the written diff runs its `---` header into the
      `+++` header; the corrected one ends each header line. */
  lemma HeaderCounterexample(m: Json, o: seq<(string, string)>, p: string)
    requires m.JObj? && Lookup(m.members, "file_path") == Some(JStr(p)) && p != ""
    requires Lookup(m.members, "new_code").Some? && Lookup(m.members, "new_code").value.JStr?
    requires Lookup(m.members, "new_code").value.s != Lookup(o, p).GetOr("")
    ensures DiffOf(AsWritten, [m], o).Ok?
    ensures StartsWith(DiffOf(AsWritten, [m], o).value, "--- a/" + p + "+++ b/" + p)
    ensures DiffOf(Intended, [m], o).Ok?
    ensures StartsWith(DiffOf(Intended, [m], o).value, "--- a/" + p + "\n" + "+++ b/" + p + "\n")
  {
    SplitLinesInjective(Lookup(o, p).GetOr(""), Lookup(m.members, "new_code").value.s);
    HeaderStart(m, o, p, "");
    HeaderStart(m, o, p, "\n");
    DiffOfText(AsWritten, [m], o);
    DiffOfText(Intended, [m], o);
    HeaderSpelling("--- a/" + p, "+++ b/", p);
  }

  lemma HeaderSpelling(x: string, y: string, p: string)
    ensures x + "" + y + p + "" == x + y + p
  {
    assert x + "" == x;
    assert x + y + p + "" == x + y + p;
  }

  lemma DiffOfText(v: Reading, mods: seq<Json>, o: seq<(string, string)>)
    ensures DiffLines(mods, o, LineTerm(v)).Ok? ==> DiffOf(v, mods, o) == Ok(DiffText(DiffLines(mods, o, LineTerm(v)).value))
  {
  }

  lemma HeaderStart(m: Json, o: seq<(string, string)>, p: string, term: string)
    requires m.JObj? && Lookup(m.members, "file_path") == Some(JStr(p)) && p != ""
    requires Lookup(m.members, "new_code").Some? && Lookup(m.members, "new_code").value.JStr?
    requires SplitLines(Lookup(o, p).GetOr("")) != SplitLines(Lookup(m.members, "new_code").value.s)
    ensures DiffLines([m], o, term).Ok?
    ensures StartsWith(DiffText(DiffLines([m], o, term).value), "--- a/" + p + term + "+++ b/" + p + term)
  {
    var ls := UnifiedDiff(SplitLines(Lookup(o, p).GetOr("")), SplitLines(Lookup(m.members, "new_code").value.s),
                          "a/" + p, "b/" + p, term);
    DiffEntryOfString(m, o, p, term);
    DiffLinesSingle(m, o, term);
    assert DiffLines([m], o, term) == Ok(ls);
    assert ls != [] && ls[0] == "--- " + ("a/" + p) + term && ls[1] == "+++ " + ("b/" + p) + term;
    Regroup("--- ", "a/", p, term);
    Regroup("+++ ", "b/", p, term);
    assert "--- " + "a/" == "--- a/" && "+++ " + "b/" == "+++ b/";
    var h0 := "--- a/" + p + term;
    assert ls[0] == h0 && ls[1] == "+++ b/" + p + term;
    assert DiffText(ls) == Concat(ls);
    ConcatStart(ls);
    Append3(h0, "+++ b/", p, term);
  }

  lemma Regroup(x: string, y: string, z: string, w: string)
    ensures x + (y + z) + w == x + y + z + w
  {
  }

  lemma Append3(x: string, y: string, z: string, w: string)
    ensures x + (y + z + w) == x + y + z + w
  {
  }

  /** The diff of an entry with a string path and string code. */
  lemma DiffEntryOfString(m: Json, o: seq<(string, string)>, p: string, term: string)
    requires m.JObj? && Lookup(m.members, "file_path") == Some(JStr(p)) && p != ""
    requires Lookup(m.members, "new_code").Some? && Lookup(m.members, "new_code").value.JStr?
    ensures DiffEntry(m, o, term) == Ok(UnifiedDiff(SplitLines(Lookup(o, p).GetOr("")),
      SplitLines(Lookup(m.members, "new_code").value.s), "a/" + p, "b/" + p, term))
  {
    assert Get(m, "file_path", JNull) == Ok(JStr(p));
    assert Truthy(JStr(p));
    assert Display(JStr(p)) == p;
  }

  lemma DiffLinesSingle(m: Json, o: seq<(string, string)>, term: string)
    requires DiffEntry(m, o, term).Ok?
    ensures DiffLines([m], o, term) == DiffEntry(m, o, term)
  {
    assert [m][0] == m && [m][1..] == [];
    assert DiffEntry(m, o, term).value + [] == DiffEntry(m, o, term).value;
  }

  // ---------------------------------------------------------------------
  // Lists built entry by entry

  /** `prefix` put in front of a successful result; a failure stays as it is. */
  function Prepend<T>(prefix: seq<T>, r: Result<seq<T>>): (p: Result<seq<T>>)
    ensures p.Ok? <==> r.Ok?
    ensures r.Raise? ==> p == r
    ensures r.Ok? ==> |p.value| == |prefix| + |r.value|
    ensures r.Ok? ==> p.value[..|prefix|] == prefix && p.value[|prefix|..] == r.value
  {
    match r
    case Ok(v) => Ok(prefix + v)
    case Raise(e) => Raise(e)
  }

  lemma PrependAssoc<T>(a: seq<T>, b: seq<T>, r: Result<seq<T>>)
    ensures Prepend(a, Prepend(b, r)) == Prepend(a + b, r)
  {
    if r.Ok? {
      assert a + (b + r.value) == a + b + r.value;
    }
  }

  /** One step of `CheckFrom` at position `i`. */
  lemma CheckFromStep(v: Reading, paths: seq<string>, rules: set<string>, i: nat)
    requires i < |paths|
    ensures Allowed(v, rules, Normalised(paths[i])) ==> CheckFrom(v, paths, rules, i) == CheckFrom(v, paths, rules, i + 1)
    ensures !Allowed(v, rules, Normalised(paths[i])) ==>
      CheckFrom(v, paths, rules, i) == Raise(Exc(PermissionError, DeniedMessage(Normalised(paths[i]))))
  {
  }

  /** One step of `ReadFrom` at position `i`. */
  lemma ReadFromStep(v: Reading, targets: seq<string>, fs: Fs, i: nat, acc: seq<(string, string)>)
    requires i < |targets|
    ensures var clean := Strip(targets[i]);
      var full := Resolve(clean);
      !InsideTest(v, full) ==>
        ReadFrom(v, targets, fs, i, acc)
        == Raise(Exc(PermissionError, "Attempt to access file outside designated codebase via path: '" + clean + "' resolved to '" + full + "'"))
    ensures var clean := Strip(targets[i]);
      var full := Resolve(clean);
      InsideTest(v, full) && UnreadableAt(fs, full) ==>
        ReadFrom(v, targets, fs, i, acc)
        == Raise(Exc(FileNotFoundError, "Could not read target file: '" + clean + "'. Error: " + fs[full].reason))
    ensures var clean := Strip(targets[i]);
      var full := Resolve(clean);
      InsideTest(v, full) && !UnreadableAt(fs, full) ==>
        ReadFrom(v, targets, fs, i, acc) == ReadFrom(v, targets, fs, i + 1, Put(acc, clean, StartingContent(fs, full)))
  {
  }

  /** One step of `FormatAll` at position `i`. */
  lemma FormatAllStep(mods: seq<Json>, fmt: Formatters, i: nat)
    requires i < |mods|
    ensures FormatEntry(mods[i], fmt).Raise? ==> FormatAll(mods[i..], fmt) == Raise(FormatEntry(mods[i], fmt).exc)
    ensures FormatEntry(mods[i], fmt).Ok? ==>
      FormatAll(mods[i..], fmt) == Prepend([FormatEntry(mods[i], fmt).value], FormatAll(mods[i + 1..], fmt))
  {
    assert mods[i..][0] == mods[i] && mods[i..][1..] == mods[i + 1..];
  }

  /** One step of `DiffLines` at position `i`. */
  lemma DiffLinesStep(mods: seq<Json>, originals: seq<(string, string)>, term: string, i: nat)
    requires i < |mods|
    ensures DiffEntry(mods[i], originals, term).Raise? ==>
      DiffLines(mods[i..], originals, term) == Raise(DiffEntry(mods[i], originals, term).exc)
    ensures DiffEntry(mods[i], originals, term).Ok? ==>
      DiffLines(mods[i..], originals, term) == Prepend(DiffEntry(mods[i], originals, term).value, DiffLines(mods[i + 1..], originals, term))
  {
    assert mods[i..][0] == mods[i] && mods[i..][1..] == mods[i + 1..];
  }

  // ---------------------------------------------------------------------
  // The sandboxed test run

  /** A pytest run: it finished with an exit code and its output, or it
      raised (a timeout, a missing interpreter). */
  datatype Pytest = Finished(code: int, stdout: string, stderr: string) | Crashed(message: string)

  /** What the sandbox takes from outside: the clock reading the temporary
      branch is named after, the name `tempfile` picks for the patch file,
      what `git apply` makes of a patch, and the pytest run on a tree. */
  datatype SandboxEnv = SandboxEnv(now: int, patchName: string,
                                   patch: (Tree, string) -> Option<Tree>,
                                   pytest: Tree -> Pytest)

  /** The `{"status", "results"}` dict `_run_tests_on_changes` returns. */
  datatype TestOutcome = TestOutcome(status: TestStatus, results: string)

  const NoRepoMessage := "Git repository not initialized for testing."

  /** The backend directory the tests run in. */
  const BackendDir := CodebasePath + "backend"

  /** It is `os.path.normpath(os.path.join(CODEBASE_PATH, "backend"))`. */
  lemma BackendDirResolved()
    ensures Resolve("backend") == BackendDir
  {
    assert JoinWith(["backend"], "/") == "backend";
    assert Plain("backend");
    PlainPathInside(["backend"]);
  }

  function TempBranchName(taskId: int, now: int): string {
    "frankie-task-test-" + IntToString(taskId) + "-" + IntToString(now)
  }

  function AutostashMessage(taskId: int): string {
    "frankie-autostash-test-" + IntToString(taskId)
  }

  /** `os.path.isdir`: a directory exists in a tree when a file lies below it. */
  predicate HasDir(t: Tree, dir: string) {
    exists k :: k in t && StartsWith(k, dir + "/")
  }

  /** The diff is applied only when it is not blank and not the "no
      changes" placeholder. */
  predicate ShouldApply(diff: string) {
    !IsBlank(diff) && Strip(diff) != NoDiffPlaceholder
  }

  function GitFailure(message: string): TestOutcome {
    TestOutcome(Fail, "Git command failed during testing: " + message)
  }

  function PytestOutcome(run: Pytest): (r: TestOutcome)
    ensures r.status == Pass <==> run.Finished? && run.code == 0
  {
    match run
    case Finished(code, out, err) =>
      TestOutcome(if code == 0 then Pass else Fail,
                  "--- PYTEST STDOUT ---\n" + out + "\n\n--- PYTEST STDERR ---\n" + err)
    case Crashed(message) => TestOutcome(Fail, "An unexpected error occurred during testing: " + message)
  }

  /** The `try` block from `create_head` on, given whether the temporary
      branch name is taken and the working tree the autostash left. */
  function SandboxRun(tempTaken: bool, temp: string, wt: Tree, diff: string, env: SandboxEnv): (r: TestOutcome)
  {
    if tempTaken then GitFailure(BranchExists(temp))
    else
      var written := if ShouldApply(diff) then wt[env.patchName := diff] else wt;
      if ShouldApply(diff) && env.patch(written, diff).None? then GitFailure(PatchFailed)
      else
        var tested := if ShouldApply(diff) then env.patch(written, diff).value else written;
        if !HasDir(tested, "backend") then
          TestOutcome(Fail, "Backend directory '" + BackendDir + "' not found for running tests.")
        else PytestOutcome(env.pytest(tested))
  }

  /** The outcome `_run_tests_on_changes` reports. */
  function Sandbox(repo: Repo?, taskId: int, diff: string, env: SandboxEnv): TestOutcome
    reads repo
    requires repo != null ==> repo.Valid()
  {
    if repo == null then TestOutcome(Fail, NoRepoMessage)
    else
      var temp := TempBranchName(taskId, env.now);
      SandboxRun(temp in repo.branches, temp, AfterAutostash(repo), diff, env)
  }

  /** The tests pass exactly when a repository is there, the temporary
      branch could be made, the diff (if any) applied, the backend
      directory exists in the tested tree and pytest exited with 0. */
  lemma SandboxPass(repo: Repo?, taskId: int, diff: string, env: SandboxEnv)
    requires repo != null ==> repo.Valid()
    ensures Sandbox(repo, taskId, diff, env).status == Pass <==>
      (repo != null && TempBranchName(taskId, env.now) !in repo.branches
       && var written := if ShouldApply(diff) then AfterAutostash(repo)[env.patchName := diff] else AfterAutostash(repo);
          (ShouldApply(diff) ==> env.patch(written, diff).Some?)
          && var tested := if ShouldApply(diff) then env.patch(written, diff).value else written;
             HasDir(tested, "backend") && env.pytest(tested).Finished? && env.pytest(tested).code == 0)
  {
  }

  /** The placeholder and blank diffs are never applied. */
  lemma PlaceholderNotApplied(diff: string)
    ensures IsBlank(diff) ==> !ShouldApply(diff)
    ensures !ShouldApply(NoDiffPlaceholder)
  {
    var p := NoDiffPlaceholder;
    assert p[0] == '-' && p[|p| - 1] == '-';
    StripUnpadded(p);
  }

  // ---------------------------------------------------------------------
  // `execute`

  const MissingTargetsMessage := "Target files must be specified as a comma-separated string for the Code Modifier plugin."
  const NoValidTargetsMessage := "No valid target files were specified after parsing the input string."
  const NoExplanation := "No explanation provided by LLM."
  const NoModificationsNote := "\n\n(No code modifications were proposed by the LLM.)"
  const NoTestsMessage := "No code changes proposed by LLM, so no tests were run."

  /** The LLM call: what `generate_json` returns for the prompt built from
      the task's prompt and the files read, or the exception it raises (a
      ValueError when no server can be chosen). */
  type LlmCall = (string, seq<(string, string)>) -> Result<Json>

  /** `j["error"]` once `"error" in j` held: a dict gives the value, a list
      or a string cannot be indexed by a string. */
  function ErrorValue(j: Json): Result<Json> {
    match j
    case JObj(ms) => Ok(Lookup(ms, "error").GetOr(JNull))
    case JArr(_) => Raise(Exc(TypeError, "list indices must be integers or slices, not str"))
    case _ => Raise(Exc(TypeError, "string indices must be integers, not 'str'"))
  }

  /** `explanation + "\n\n(No code modifications ...)"`. */
  function AppendNote(explanation: Json): (r: Result<string>)
    ensures explanation.JStr? <==> r.Ok?
    ensures explanation.JStr? ==> r.value == explanation.s + NoModificationsNote
  {
    match explanation
    case JStr(s) => Ok(s + NoModificationsNote)
    case JArr(_) => Raise(Exc(TypeError, "can only concatenate list (not \"str\") to list"))
    case _ => Raise(Exc(TypeError, "unsupported operand type(s) for +: '" + TypeName(explanation) + "' and 'str'"))
  }

  /** What the `try` block of `execute` arrives at before the sandbox: no
      modifications, or an explanation and a diff to test. */
  datatype Proposal = NoChanges(text: string) | Changes(explanation: Json, diff: string)

  /** The steps of `execute` from the permission check to the diff; any
      exception they raise is the failure. */
  function Propose(v: Reading, paths: seq<string>, rules: set<string>, fs: Fs, prompt: string,
                   llm: LlmCall, fmt: Formatters): Result<Proposal>
  {
    var _ :- PermissionCheck(v, paths, rules);
    Consult(v, paths, fs, prompt, llm, fmt)
  }

  /** The steps after the permission check: the files are read and the
      LLM asked about them. */
  function Consult(v: Reading, paths: seq<string>, fs: Fs, prompt: string, llm: LlmCall, fmt: Formatters): Result<Proposal> {
    var originals :- FilesRead(v, paths, fs);
    var response :- llm(prompt, originals);
    Interpret(v, response, originals, fmt)
  }

  /** What the LLM's answer leads to: its error, no changes, or the
      formatted modifications and their diff. */
  function Interpret(v: Reading, response: Json, originals: seq<(string, string)>, fmt: Formatters): Result<Proposal> {
    var failed :- In("error", response);
    if failed then
      var err :- ErrorValue(response);
      Raise(Exc(ValueError, "LLM generation failed: " + Display(err)))
    else
      var explanation :- Get(response, "explanation", JStr(NoExplanation));
      var modifications :- Get(response, "modifications", JArr([]));
      if !Truthy(modifications) then
        var text :- AppendNote(explanation);
        Ok(NoChanges(text))
      else
        // the log line before the formatting evaluates `len(modifications)`
        var _ :- PyLen(modifications);
        var items := Iterate(modifications).value;
        var formatted :- FormatAll(items, fmt);
        var diff :- DiffOf(v, formatted, originals);
        Ok(Changes(explanation, diff))
  }

  /** Modifications that are truthy but have no length (a non-zero
      integer, `true`) raise the TypeError of `len` before anything is
      formatted. */
  lemma UnsizedModificationsRaise(v: Reading, ms: Members, originals: seq<(string, string)>, fmt: Formatters)
    requires Lookup(ms, "error").None?
    requires Lookup(ms, "modifications").Some? && Truthy(Lookup(ms, "modifications").value)
    requires !(Lookup(ms, "modifications").value.JArr? || Lookup(ms, "modifications").value.JStr?
               || Lookup(ms, "modifications").value.JObj?)
    ensures Interpret(v, JObj(ms), originals, fmt) ==
      Raise(Exc(TypeError, "object of type '" + TypeName(Lookup(ms, "modifications").value) + "' has no len()"))
  {
  }

  /** Where `execute` ends before the sandbox: refused with an error
      message, or with a proposal. */
  datatype Plan = Refused(message: string) | Proposed(proposal: Proposal)

  /** `execute` up to the sandbox: a missing or empty target string, no
      parsed targets, or an exception in the proposal steps refuse the task. */
  function PlanOf(v: Reading, targetFiles: Option<string>, rules: set<string>, fs: Fs, prompt: string,
                  llm: LlmCall, fmt: Formatters): Plan
  {
    if targetFiles.None? || targetFiles.value == "" then Refused(MissingTargetsMessage)
    else
      var paths := ParseTargets(targetFiles.value);
      if paths == [] then Refused(NoValidTargetsMessage)
      else
        var p := Propose(v, paths, rules, fs, prompt, llm, fmt);
        if p.Raise? then Refused(FailureMessage(p.exc)) else Proposed(p.value)
  }

  /** A proposal exists only when targets were given, every one of them is
      admitted by a rule and every one is readable inside the codebase. */
  lemma ProposedOnlyWhenPermitted(v: Reading, targetFiles: Option<string>, rules: set<string>, fs: Fs, prompt: string,
                                  llm: LlmCall, fmt: Formatters)
    ensures PlanOf(v, targetFiles, rules, fs, prompt, llm, fmt).Proposed? ==>
      targetFiles.Some? && var paths := ParseTargets(targetFiles.value);
        paths != [] && forall j :: 0 <= j < |paths| ==> Allowed(v, rules, Normalised(paths[j])) && Readable(v, fs, paths[j])
  {
    if PlanOf(v, targetFiles, rules, fs, prompt, llm, fmt).Proposed? {
      var paths := ParseTargets(targetFiles.value);
      assert PermissionCheck(v, paths, rules).Ok?;
      assert FilesRead(v, paths, fs).Ok?;
      FilesReadOutcome(v, paths, fs);
    }
  }

  /** A denied target makes the proposal steps raise a PermissionError
      naming a denied path, whatever the files, the LLM and the formatters
      would do: none of them is consulted. */
  lemma DeniedBeforeReading(v: Reading, paths: seq<string>, rules: set<string>, fs: Fs, fs': Fs, prompt: string,
                            llm: LlmCall, llm': LlmCall, fmt: Formatters, fmt': Formatters)
    requires exists j :: 0 <= j < |paths| && !Allowed(v, rules, Normalised(paths[j]))
    ensures Propose(v, paths, rules, fs, prompt, llm, fmt) == Propose(v, paths, rules, fs', prompt, llm', fmt')
    ensures exists j :: (0 <= j < |paths| && !Allowed(v, rules, Normalised(paths[j]))
                         && Propose(v, paths, rules, fs, prompt, llm, fmt) == Raise(Exc(PermissionError, DeniedMessage(Normalised(paths[j])))))
  {
    var pc := PermissionCheck(v, paths, rules);
    ProposeDenied(v, paths, rules, fs, prompt, llm, fmt);
    ProposeDenied(v, paths, rules, fs', prompt, llm', fmt');
  }

  /** The permission check comes first in the proposal steps. */
  lemma ProposeDenied(v: Reading, paths: seq<string>, rules: set<string>, fs: Fs, prompt: string, llm: LlmCall, fmt: Formatters)
    requires PermissionCheck(v, paths, rules).Raise?
    ensures Propose(v, paths, rules, fs, prompt, llm, fmt) == Raise(PermissionCheck(v, paths, rules).exc)
  {
  }

  /** The `except` clauses: file, permission and value errors report their
      own message, anything else is an unexpected error. */
  function FailureMessage(e: Exc): string {
    if e.kind == FileNotFoundError || e.kind == PermissionError || e.kind == ValueError then e.msg
    else "An unexpected error occurred during plugin execution: " + e.msg
  }

  function NoChangesUpdate(explanation: string): Update {
    [("status", VStatus(AwaitingReview)), ("llm_explanation", VStr(explanation)),
     ("proposed_diff", VStr(NoModificationsDiff)), ("test_status", VTest(NotRun)),
     ("test_results", VStr(NoTestsMessage))]
  }

  /** The LLM's explanation as handed to the `llm_explanation` column: a
      string, `None` or an integer as itself; any other value in its
      printed form. */
  function RawValue(j: Json): (r: Value)
    ensures j.JStr? ==> r == VStr(j.s)
    ensures r == VNone <==> j.JNull?
  {
    match j
    case JStr(s) => VStr(s)
    case JNull => VNone
    case JInt(i) => VInt(i)
    case _ => VStr(Display(j))
  }

  function ReviewUpdate(explanation: Json, diff: string, outcome: TestOutcome): Update {
    [("status", VStatus(AwaitingReview)), ("llm_explanation", RawValue(explanation)),
     ("proposed_diff", VStr(diff)), ("test_status", VTest(outcome.status)),
     ("test_results", VStr(outcome.results))]
  }

  // ---------------------------------------------------------------------
  // The plugin

  class CodeModifierPlugin {
    const db: Db
    const task: AgentTask
    /** The repository at `CODEBASE_PATH`, or null when it could not be
        opened (the constructor logs and carries on). */
    const repo: Repo?
    /** Which reading of the three tests this instance runs. */
    const reading: Reading

    constructor (db: Db, task: AgentTask, repo: Repo?, reading: Reading)
      ensures this.db == db && this.task == task && this.repo == repo && this.reading == reading
    {
      this.db := db;
      this.task := task;
      this.repo := repo;
      this.reading := reading;
    }

    /** The rule paths the check sees: `get_permissions(limit=1000)`. */
    function Rules(): set<string>
      reads db
    {
      RulePaths(db.GetPermissions(0, 1000))
    }

    /** `_check_permissions`, looping over the targets and, for each, over
        the rule set until a rule admits it. */
    method CheckPermissions(paths: seq<string>) returns (r: Result<()>)
      ensures r == PermissionCheck(reading, paths, Rules())
    {
      if |paths| == 0 {
        return Raise(Exc(ValueError, NoTargetsMessage));
      }
      var rules := RulePaths(db.GetPermissions(0, 1000));
      var i := 0;
      while i < |paths|
        invariant 0 <= i <= |paths|
        invariant CheckFrom(reading, paths, rules, 0) == CheckFrom(reading, paths, rules, i)
      {
        var target := Normalised(paths[i]);
        var allowed := Admits(reading, rules, target);
        CheckFromStep(reading, paths, rules, i);
        if !allowed {
          return Raise(Exc(PermissionError, DeniedMessage(target)));
        }
        i := i + 1;
      }
      return Ok(());
    }

    /** The inner loop of `_check_permissions`: the rules are tried in the
        set's own order until one admits the target. */
    static method Admits(v: Reading, rules: set<string>, target: string) returns (allowed: bool)
      ensures allowed == Allowed(v, rules, target)
    {
      allowed := false;
      var unseen := rules;
      while unseen != {}
        invariant unseen <= rules
        invariant allowed ==> Allowed(v, rules, target)
        invariant !allowed ==> forall rule :: rule in rules && rule !in unseen ==> !RuleTest(v, rule, target)
        decreases |unseen|
      {
        var rule :| rule in unseen;
        if RuleTest(v, rule, target) {
          allowed := true;
          break;
        }
        unseen := unseen - {rule};
      }
    }

    /** `_read_files`: each target's stripped path maps to its content, or
        `""` when nothing readable is there. */
    method ReadFiles(targets: seq<string>, fs: Fs) returns (r: Result<seq<(string, string)>>)
      ensures r == FilesRead(reading, targets, fs)
    {
      var contents: seq<(string, string)> := [];
      var i := 0;
      while i < |targets|
        invariant 0 <= i <= |targets|
        invariant FilesRead(reading, targets, fs) == ReadFrom(reading, targets, fs, i, contents)
      {
        var step := ReadTarget(targets, fs, i, contents);
        if step.Raise? {
          return step;
        }
        contents := step.value;
        i := i + 1;
      }
      return Ok(contents);
    }

    /** The body of the read loop for target `i`: the error it raises, or
        the contents with the target's entry stored. */
    method ReadTarget(targets: seq<string>, fs: Fs, i: nat, contents: seq<(string, string)>)
      returns (r: Result<seq<(string, string)>>)
      requires i < |targets|
      ensures r.Raise? ==> ReadFrom(reading, targets, fs, i, contents) == r
      ensures r.Ok? ==> ReadFrom(reading, targets, fs, i, contents) == ReadFrom(reading, targets, fs, i + 1, r.value)
    {
      var clean := Strip(targets[i]);
      var full := Resolve(clean);
      ReadFromStep(reading, targets, fs, i, contents);
      if !InsideTest(reading, full) {
        return Raise(Exc(PermissionError, "Attempt to access file outside designated codebase via path: '" + clean + "' resolved to '" + full + "'"));
      }
      if UnreadableAt(fs, full) {
        return Raise(Exc(FileNotFoundError, "Could not read target file: '" + clean + "'. Error: " + fs[full].reason));
      }
      r := Ok(Put(contents, clean, StartingContent(fs, full)));
    }

    /** `_format_modifications`. */
    method FormatModifications(mods: seq<Json>, fmt: Formatters) returns (r: Result<seq<Json>>)
      ensures r == FormatAll(mods, fmt)
    {
      var formatted: seq<Json> := [];
      var i := 0;
      while i < |mods|
        invariant 0 <= i <= |mods|
        invariant FormatAll(mods, fmt) == Prepend(formatted, FormatAll(mods[i..], fmt))
      {
        var entry := FormatEntry(mods[i], fmt);
        FormatAllStep(mods, fmt, i);
        if entry.Raise? {
          return Raise(entry.exc);
        }
        PrependAssoc(formatted, [entry.value], FormatAll(mods[i + 1..], fmt));
        formatted := formatted + [entry.value];
        i := i + 1;
      }
      assert mods[i..] == [];
      assert formatted + [] == formatted;
      return Ok(formatted);
    }

    /** `_generate_diff`, with the reading's line terminator. */
    method GenerateDiff(mods: seq<Json>, originals: seq<(string, string)>) returns (r: Result<string>)
      ensures r == DiffOf(reading, mods, originals)
    {
      var term := LineTerm(reading);
      var lines: seq<string> := [];
      var i := 0;
      while i < |mods|
        invariant 0 <= i <= |mods|
        invariant DiffLines(mods, originals, term) == Prepend(lines, DiffLines(mods[i..], originals, term))
      {
        var entry := DiffEntry(mods[i], originals, term);
        DiffLinesStep(mods, originals, term, i);
        if entry.Raise? {
          return Raise(entry.exc);
        }
        PrependAssoc(lines, entry.value, DiffLines(mods[i + 1..], originals, term));
        lines := lines + entry.value;
        i := i + 1;
      }
      assert mods[i..] == [];
      assert lines + [] == lines;
      return Ok(DiffText(lines));
    }

    /** The `try` block of `_run_tests_on_changes` from `create_head` on:
        make and switch to the temporary branch, write and apply the patch
        file when there is a diff, then run pytest in the backend directory.
        `wrote` tells the `finally` block whether there is a patch file to
        remove. */
    method TestOnTemp(temp: string, diff: string, env: SandboxEnv) returns (outcome: TestOutcome, wrote: bool)
      requires repo != null && repo.Valid()
      modifies repo
      ensures repo.Valid()
      ensures outcome == SandboxRun(temp in old(repo.branches), temp, old(repo.worktree), diff, env)
      ensures repo.commits == old(repo.commits) && repo.stash == old(repo.stash) && repo.index == old(repo.index)
      ensures temp in old(repo.branches) ==> repo.branches == old(repo.branches) && !wrote
      ensures temp !in old(repo.branches) ==> repo.branches == old(repo.branches)[temp := old(repo.HeadCommit())]
      ensures !wrote ==> repo.worktree == old(repo.worktree)
    {
      wrote := false;
      var created := repo.CreateHead(temp);
      if created.Raise? {
        return GitFailure(created.exc.msg), false;
      }
      repo.SwitchTo(temp);
      var applied: Result<()> := Ok(());
      if ShouldApply(diff) {
        repo.WriteFile(env.patchName, diff);
        wrote := true;
        applied := repo.Apply(env.patchName, env.patch);
      }
      if applied.Raise? {
        outcome := GitFailure(applied.exc.msg);
      } else if !HasDir(repo.worktree, "backend") {
        outcome := TestOutcome(Fail, "Backend directory '" + BackendDir + "' not found for running tests.");
      } else {
        outcome := PytestOutcome(env.pytest(repo.worktree));
      }
    }

    /** `_run_tests_on_changes`: stash a dirty tree, test the diff on a
        temporary branch, then force-check-out the original ref, delete the
        temporary branch and remove the patch file. The stash is not popped. */
    method RunTests(diff: string, env: SandboxEnv) returns (outcome: TestOutcome)
      requires repo != null ==> repo.Valid() && env.patchName !in repo.worktree
      modifies repo
      ensures outcome == old(Sandbox(repo, task.id, diff, env))
      ensures repo != null ==> repo.Valid() && repo.ActiveRef() == old(repo.ActiveRef())
      ensures repo != null ==> repo.commits == old(repo.commits) && repo.index == repo.HeadTree()
      ensures repo != null ==> (repo.stash == old(repo.stash) +
        (if old(repo.IsDirty()) then [StashEntry(AutostashMessage(task.id), old(repo.worktree), old(repo.index))] else []))
      ensures repo != null && old(repo.ActiveRef()) != TempBranchName(task.id, env.now) ==>
        repo.branches == old(repo.branches) - {TempBranchName(task.id, env.now)}
      ensures repo != null && old(repo.ActiveRef()) == TempBranchName(task.id, env.now) ==>
        repo.branches.Keys == old(repo.branches).Keys + {TempBranchName(task.id, env.now)}
      ensures repo != null ==> (env.patchName in repo.worktree ==> env.patchName in repo.index)
    {
      if repo == null {
        return TestOutcome(Fail, NoRepoMessage);
      }
      outcome := TestInSandbox(diff, env, TempBranchName(task.id, env.now));
    }

    /** `_run_tests_on_changes` once a repository is there: the steps
        between the stash and the clean-up. */
    method TestInSandbox(diff: string, env: SandboxEnv, temp: string) returns (outcome: TestOutcome)
      requires repo != null && repo.Valid() && env.patchName !in repo.worktree
      modifies repo
      ensures outcome == SandboxRun(temp in old(repo.branches), temp, old(AfterAutostash(repo)), diff, env)
      ensures repo.Valid() && repo.ActiveRef() == old(repo.ActiveRef())
      ensures repo.commits == old(repo.commits) && repo.index == repo.HeadTree()
      ensures repo.stash == old(repo.stash) +
        (if old(repo.IsDirty()) then [StashEntry(AutostashMessage(task.id), old(repo.worktree), old(repo.index))] else [])
      ensures old(repo.ActiveRef()) != temp ==> repo.branches == old(repo.branches) - {temp}
      ensures old(repo.ActiveRef()) == temp ==> repo.branches.Keys == old(repo.branches).Keys + {temp}
      ensures env.patchName in repo.worktree ==> env.patchName in repo.index
    {
      var original := repo.ActiveRef();
      Autostash(env.patchName);
      var wrote;
      outcome, wrote := TestOnTemp(temp, diff, env);
      assert repo.Resolve(original).Some?;
      Restore(original, temp, wrote, env.patchName);
    }

    /** `execute`: parse the targets, check them, read them, ask the LLM,
        format and diff its modifications and test the diff in the
        sandbox. A refused task and a task without modifications leave the
        repository alone. */
    method Execute(fs: Fs, llm: LlmCall, fmt: Formatters, env: SandboxEnv) returns (update: Update)
      requires repo != null ==> repo.Valid() && env.patchName !in repo.worktree
      modifies repo
      ensures var plan := old(PlanOf(reading, task.targetFiles, Rules(), fs, task.prompt, llm, fmt));
        && (plan.Refused? ==> update == ErrorUpdate(plan.message))
        && (plan.Proposed? && plan.proposal.NoChanges? ==> update == NoChangesUpdate(plan.proposal.text))
        && (plan.Proposed? && plan.proposal.Changes? ==>
              update == ReviewUpdate(plan.proposal.explanation, plan.proposal.diff,
                                     old(Sandbox(repo, task.id, plan.proposal.diff, env))))
      ensures !(old(PlanOf(reading, task.targetFiles, Rules(), fs, task.prompt, llm, fmt)).Proposed?
                && old(PlanOf(reading, task.targetFiles, Rules(), fs, task.prompt, llm, fmt)).proposal.Changes?) ==>
        repo == null || unchanged(repo)
      ensures old(PlanOf(reading, task.targetFiles, Rules(), fs, task.prompt, llm, fmt)).Proposed?
              && old(PlanOf(reading, task.targetFiles, Rules(), fs, task.prompt, llm, fmt)).proposal.Changes?
              && repo != null ==>
        repo.Valid() && repo.ActiveRef() == old(repo.ActiveRef())
        && repo.commits == old(repo.commits) && repo.index == repo.HeadTree()
        && repo.stash == old(repo.stash) +
             (if old(repo.IsDirty()) then [StashEntry(AutostashMessage(task.id), old(repo.worktree), old(repo.index))] else [])
        && (old(repo.ActiveRef()) != TempBranchName(task.id, env.now) ==>
              repo.branches == old(repo.branches) - {TempBranchName(task.id, env.now)})
    {
      if task.targetFiles.None? || task.targetFiles.value == "" {
        return ErrorUpdate(MissingTargetsMessage);
      }
      var paths := ParseTargets(task.targetFiles.value);
      if paths == [] {
        return ErrorUpdate(NoValidTargetsMessage);
      }
      var proposal := ProposeChanges(paths, fs, llm, fmt);
      if proposal.Raise? {
        return ErrorUpdate(FailureMessage(proposal.exc));
      }
      match proposal.value
      case NoChanges(explanation) =>
        return NoChangesUpdate(explanation);
      case Changes(explanation, diff) =>
        var outcome := RunTests(diff, env);
        return ReviewUpdate(explanation, diff, outcome);
    }

    /** The `try` block of `execute` before the sandbox, calling the
        plugin's own steps. */
    method ProposeChanges(paths: seq<string>, fs: Fs, llm: LlmCall, fmt: Formatters) returns (r: Result<Proposal>)
      ensures r == Propose(reading, paths, Rules(), fs, task.prompt, llm, fmt)
    {
      var checked := CheckPermissions(paths);
      if checked.Raise? {
        return Raise(checked.exc);
      }
      r := ReadAndAsk(paths, fs, task.prompt, llm, fmt);
    }

    /** The files read, then the LLM asked for modifications. */
    method ReadAndAsk(paths: seq<string>, fs: Fs, prompt: string, llm: LlmCall, fmt: Formatters)
      returns (r: Result<Proposal>)
      ensures r == Consult(reading, paths, fs, prompt, llm, fmt)
    {
      var originals := ReadFiles(paths, fs);
      if originals.Raise? {
        return Raise(originals.exc);
      }
      var called := llm(prompt, originals.value);
      if called.Raise? {
        return Raise(called.exc);
      }
      r := InterpretResponse(called.value, originals.value, fmt);
    }

    /** The second half of `_propose_changes`: the LLM's answer checked,
        formatted and turned into a diff. */
    method InterpretResponse(response: Json, originals: seq<(string, string)>, fmt: Formatters)
      returns (r: Result<Proposal>)
      ensures r == Interpret(reading, response, originals, fmt)
    {
      var failed := In("error", response);
      if failed.Raise? {
        return Raise(failed.exc);
      }
      if failed.value {
        var err := ErrorValue(response);
        if err.Raise? {
          return Raise(err.exc);
        }
        return Raise(Exc(ValueError, "LLM generation failed: " + Display(err.value)));
      }
      var explanation := Get(response, "explanation", JStr(NoExplanation));
      if explanation.Raise? {
        return Raise(explanation.exc);
      }
      // `explanation` was read with `.get`, so `response` is a dict and
      // this second `.get` cannot raise.
      var modifications := Get(response, "modifications", JArr([]));
      if !Truthy(modifications.value) {
        var text := AppendNote(explanation.value);
        if text.Raise? {
          return Raise(text.exc);
        }
        return Ok(NoChanges(text.value));
      }
      var count := PyLen(modifications.value);
      if count.Raise? {
        return Raise(count.exc);
      }
      // what has a length can be iterated
      var items := Iterate(modifications.value).value;
      var formatted := FormatModifications(items, fmt);
      if formatted.Raise? {
        return Raise(formatted.exc);
      }
      var diff := GenerateDiff(formatted.value, originals);
      if diff.Raise? {
        return Raise(diff.exc);
      }
      return Ok(Changes(explanation.value, diff.value));
    }

    /** `git stash push -u` when the repository is dirty. A file absent
        before is not left untracked. */
    method Autostash(absent: string)
      requires repo != null && repo.Valid() && absent !in repo.worktree
      modifies repo
      ensures repo.Valid() && repo.worktree == old(AfterAutostash(repo))
      ensures repo.stash == old(repo.stash) +
        (if old(repo.IsDirty()) then [StashEntry(AutostashMessage(task.id), old(repo.worktree), old(repo.index))] else [])
      ensures repo.commits == old(repo.commits) && repo.branches == old(repo.branches) && repo.head == old(repo.head)
      ensures old(repo.IsDirty()) ==> repo.index == repo.HeadTree()
      ensures !old(repo.IsDirty()) ==> repo.index == old(repo.index)
      ensures absent in repo.worktree ==> absent in repo.index
    {
      if repo.IsDirty() {
        repo.StashPush(AutostashMessage(task.id));
      }
    }

    /** The `finally` block of `_run_tests_on_changes`: force-check-out the
        original ref, delete the temporary branch if that worked, and remove
        the patch file if one was written. */
    method Restore(original: string, temp: string, wrote: bool, patchName: string)
      requires repo != null && repo.Valid() && repo.Resolve(original).Some?
      requires !wrote ==> (patchName in repo.worktree ==> patchName in repo.index)
      modifies repo
      ensures repo.Valid() && repo.ActiveRef() == original
      ensures repo.commits == old(repo.commits) && repo.stash == old(repo.stash) && repo.index == repo.HeadTree()
      ensures original != temp ==> repo.branches == old(repo.branches) - {temp}
      ensures original == temp ==> repo.branches == old(repo.branches)
      ensures patchName in repo.worktree ==> patchName in repo.index
    {
      var back := repo.ForceCheckout(original);
      if back.Ok? {
        var deleted := repo.DeleteHead(temp);
      }
      if wrote {
        repo.RemoveFile(patchName);
      }
    }
  }
}
