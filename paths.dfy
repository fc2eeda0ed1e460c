/** POSIX path handling as the backend uses it: `pathlib.PurePosixPath(...)
    .as_posix()` and `os.path.join` / `normpath` / `abspath` (of absolute paths). Paths are
    strings; a path's segments are its `/`-separated pieces. */
module Paths {
  import opened Text

  /** The leading slashes a normalised path keeps: exactly two stay two, one
      or three and more become one (POSIX leaves `//` implementation-defined). */
  function Root(s: string): (r: string)
    ensures r == "" || r == "/" || r == "//"
    ensures r == "" <==> !StartsWith(s, "/")
  {
    if StartsWith(s, "//") && !StartsWith(s, "///") then "//"
    else if StartsWith(s, "/") then "/"
    else ""
  }

  /** A segment that names something: not empty and not `.`. */
  predicate Named(seg: string) {
    seg != "" && seg != "."
  }

  /** The segments that name something, in order. */
  function NamedSegments(segs: seq<string>): (r: seq<string>)
    ensures forall k :: 0 <= k < |r| ==> Named(r[k]) && r[k] in segs
  {
    if |segs| == 0 then []
    else if Named(segs[0]) then [segs[0]] + NamedSegments(segs[1..])
    else NamedSegments(segs[1..])
  }

  /** `str(pathlib.PurePosixPath(s))`, which `as_posix()` returns: repeated
      and trailing slashes and `.` segments disappear, `..` stays, and the
      empty path is `.`. */
  function AsPosix(s: string): (r: string)
    ensures r != ""
  {
    var p := Root(s) + JoinWith(NamedSegments(Split(s, '/')), "/");
    if p == "" then "." else p
  }

  lemma {:induction false} JoinWithLast(parts: seq<string>, sep: string)
    requires |parts| > 0 && parts[|parts| - 1] != ""
    ensures |JoinWith(parts, sep)| > 0
    ensures JoinWith(parts, sep)[|JoinWith(parts, sep)| - 1] == parts[|parts| - 1][|parts[|parts| - 1]| - 1]
  {
    if |parts| > 1 {
      JoinWithLast(parts[1..], sep);
    }
  }

  /** Only the bare roots `/` and `//` end in a slash once normalised, so a
      rule written as `dir/` loses its slash. */
  lemma AsPosixTrailingSlash(s: string)
    ensures EndsWith(AsPosix(s), "/") <==> AsPosix(s) == "/" || AsPosix(s) == "//"
  {
    var segs := NamedSegments(Split(s, '/'));
    if |segs| > 0 {
      var last := segs[|segs| - 1];
      JoinWithLast(segs, "/");
      assert last in Split(s, '/');
      var j := JoinWith(segs, "/");
      var r := Root(s) + j;
      assert r[|r| - 1] == j[|j| - 1];
      assert '/' !in last;
      assert last[|last| - 1] in last;
    }
  }

  /** `posixpath.join(a, b)`: an absolute `b` replaces `a`. */
  function Join(a: string, b: string): (r: string)
    ensures StartsWith(b, "/") ==> r == b
    ensures StartsWith(a, "/") ==> StartsWith(r, "/")
  {
    if StartsWith(b, "/") then b
    else if a == "" || EndsWith(a, "/") then a + b
    else a + "/" + b
  }

  /** The segment stack `posixpath.normpath` keeps while scanning: `..`
      removes the previous named segment, and is kept only where nothing can
      be removed in a relative path (in an absolute path it is dropped). */
  function NormStack(segs: seq<string>, rooted: bool, acc: seq<string>): seq<string>
    decreases |segs|
  {
    if |segs| == 0 then acc
    else
      var c := segs[0];
      var acc' :=
        if c == "" || c == "." then acc
        else if c != ".." || (!rooted && |acc| == 0) || (|acc| > 0 && acc[|acc| - 1] == "..") then acc + [c]
        else if |acc| > 0 then acc[..|acc| - 1]
        else acc;
      NormStack(segs[1..], rooted, acc')
  }

  /** `posixpath.normpath(s)`; for an absolute path this is also what
      `posixpath.abspath` returns. */
  function Normpath(s: string): (r: string)
    ensures r != ""
    ensures StartsWith(s, "/") ==> StartsWith(r, "/")
  {
    if s == "" then "."
    else
      var root := Root(s);
      var p := root + JoinWith(NormStack(Split(s, '/'), root != "", []), "/");
      if p == "" then "." else p
  }

  // ---------------------------------------------------------------------
  // Facts for computing these functions on paths built from segments

  /** A segment `normpath` and `as_posix` keep as it is. */
  predicate Plain(seg: string) {
    seg != "" && seg != "." && seg != ".." && '/' !in seg
  }

  lemma {:induction false} SplitPlain(s: string, c: char)
    requires c !in s
    ensures Split(s, c) == [s]
  {
    if |s| > 0 {
      SplitPlain(s[1..], c);
      assert [s[0]] + s[1..] == s;
    }
  }

  lemma {:induction false} SplitCons(a: string, c: char, b: string)
    requires c !in a
    ensures Split(a + [c] + b, c) == [a] + Split(b, c)
  {
    if |a| == 0 {
      assert a + [c] + b == [c] + b;
      assert ([c] + b)[1..] == b;
    } else {
      assert (a + [c] + b)[1..] == a[1..] + [c] + b;
      SplitCons(a[1..], c, b);
      assert [a[0]] + a[1..] == a;
    }
  }

  /** Splitting a join of slash-free pieces gives the pieces back. */
  lemma {:induction false} SplitJoin(parts: seq<string>)
    requires |parts| > 0 && forall k :: 0 <= k < |parts| ==> '/' !in parts[k]
    ensures Split(JoinWith(parts, "/"), '/') == parts
  {
    if |parts| == 1 {
      SplitPlain(parts[0], '/');
    } else {
      SplitJoin(parts[1..]);
      SplitCons(parts[0], '/', JoinWith(parts[1..], "/"));
      assert parts == [parts[0]] + parts[1..];
    }
  }

  lemma {:induction false} NormStackPlain(segs: seq<string>, rooted: bool, acc: seq<string>)
    requires forall k :: 0 <= k < |segs| ==> Plain(segs[k])
    ensures NormStack(segs, rooted, acc) == acc + segs
  {
    if |segs| > 0 {
      NormStackPlain(segs[1..], rooted, acc + [segs[0]]);
      assert acc + [segs[0]] + segs[1..] == acc + segs;
    }
  }

  lemma {:induction false} JoinWithCons(a: string, parts: seq<string>, sep: string)
    requires |parts| > 0
    ensures JoinWith([a] + parts, sep) == a + sep + JoinWith(parts, sep)
  {
    assert ([a] + parts)[1..] == parts;
  }

  lemma RootSingle(s: string)
    requires |s| >= 2 && s[0] == '/' && s[1] != '/'
    ensures Root(s) == "/"
  {
    assert s[..2] != "//";
    assert s[..1] == "/";
  }

  lemma SplitRooted(segs: seq<string>)
    requires |segs| > 0 && forall k :: 0 <= k < |segs| ==> Plain(segs[k])
    ensures Split("/" + JoinWith(segs, "/"), '/') == [""] + segs
  {
    var parts := [""] + segs;
    forall k | 0 <= k < |parts|
      ensures '/' !in parts[k]
    {
      if k > 0 {
        assert parts[k] == segs[k - 1];
      }
    }
    SplitJoin(parts);
    JoinWithCons("", segs, "/");
    EmptyPrefix("/" + JoinWith(segs, "/"));
  }

  lemma EmptyPrefix(s: string)
    ensures "" + s == s
  {
  }

  lemma RootOfPlain(segs: seq<string>)
    requires |segs| > 0 && Plain(segs[0])
    ensures Root("/" + JoinWith(segs, "/")) == "/"
  {
    JoinWithHead(segs, "/");
    assert segs[0][0] in segs[0];
    RootSingle("/" + JoinWith(segs, "/"));
  }

  /** An absolute path made of plain segments is already normal. */
  lemma NormpathOfPlain(segs: seq<string>)
    requires |segs| > 0 && forall k :: 0 <= k < |segs| ==> Plain(segs[k])
    ensures Normpath("/" + JoinWith(segs, "/")) == "/" + JoinWith(segs, "/")
  {
    var s := "/" + JoinWith(segs, "/");
    SplitRooted(segs);
    RootOfPlain(segs);
    NormStackPlain(segs, true, []);
    assert ([""] + segs)[1..] == segs;
    assert NormStack([""] + segs, true, []) == segs;
  }

  lemma {:induction false} JoinWithHead(parts: seq<string>, sep: string)
    requires |parts| > 0 && parts[0] != ""
    ensures |JoinWith(parts, sep)| > 0 && JoinWith(parts, sep)[0] == parts[0][0]
  {
  }

  lemma NormStackSkip(segs: seq<string>, rooted: bool, acc: seq<string>)
    requires |segs| > 0 && (segs[0] == "" || segs[0] == ".")
    ensures NormStack(segs, rooted, acc) == NormStack(segs[1..], rooted, acc)
  {
  }

  lemma NormStackPush(segs: seq<string>, rooted: bool, acc: seq<string>)
    requires |segs| > 0 && Plain(segs[0])
    ensures NormStack(segs, rooted, acc) == NormStack(segs[1..], rooted, acc + [segs[0]])
  {
  }

  /** In an absolute path, `..` after a named segment removes it. */
  lemma NormStackPop(segs: seq<string>, acc: seq<string>)
    requires |segs| > 0 && segs[0] == ".." && |acc| > 0 && acc[|acc| - 1] != ".."
    ensures NormStack(segs, true, acc) == NormStack(segs[1..], true, acc[..|acc| - 1])
  {
  }

  /** `normpath("/<name>/") == "/<name>"`. */
  lemma NormpathOfDir(name: string)
    requires Plain(name)
    ensures Normpath("/" + name + "/") == "/" + name
  {
    var s := "/" + name + "/";
    assert s == "" + ['/'] + (name + ['/'] + "");
    SplitCons("", '/', name + ['/'] + "");
    SplitCons(name, '/', "");
    var segs := ["", name, ""];
    assert Split(s, '/') == segs;
    assert name[0] in name;
    RootSingle(s);
    NormStackSkip(segs, true, []);
    assert segs[1..] == [name, ""];
    NormStackPush(segs[1..], true, []);
    assert segs[1..][1..] == [""];
    NormStackSkip([""], true, [name]);
    assert [""][1..] == [];
  }

  /** `normpath("/<dir>/../<name>") == "/<name>"`. */
  lemma NormpathOfParent(dir: string, name: string)
    requires Plain(dir) && Plain(name)
    ensures Normpath("/" + dir + "/../" + name) == "/" + name
  {
    var s := "/" + dir + "/../" + name;
    assert s == "" + ['/'] + (dir + ['/'] + (".." + ['/'] + name));
    assert '/' !in "..";
    SplitCons("", '/', dir + ['/'] + (".." + ['/'] + name));
    SplitCons(dir, '/', ".." + ['/'] + name);
    SplitCons("..", '/', name);
    SplitPlain(name, '/');
    var segs := ["", dir, "..", name];
    assert Split(s, '/') == segs;
    assert dir[0] in dir;
    RootSingle(s);
    NormStackSkip(segs, true, []);
    assert segs[1..] == [dir, "..", name];
    NormStackPush(segs[1..], true, []);
    assert segs[1..][1..] == ["..", name];
    NormStackPop(["..", name], [dir]);
    assert ["..", name][1..] == [name];
    NormStackPush([name], true, []);
    assert [name][1..] == [];
  }
}
