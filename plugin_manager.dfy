/** The plugin contract (backend/app/plugins/base_plugin.py) and the plugin
    registry of backend/app/services/plugin_manager.py. Importing modules and
    inspecting their classes are not modelled as such: the plugin directory
    is given as its listing, each file with the outcome of importing it and
    the classes `inspect.getmembers` finds in it. */
module Plugins {
  import opened Wrappers
  import opened Text
  import opened Dicts

  /** A class found in a plugin module. `isPlugin` tells whether it is a
      subclass of `FrankiePlugin`, `isBase` whether it is `FrankiePlugin`
      itself; the three static accessors may raise. */
  datatype PluginClass = PluginClass(
    className: string,
    isPlugin: bool,
    isBase: bool,
    id: Result<string>,
    name: Result<string>,
    description: Result<string>)

  /** A directory entry and what importing it as a module gives: the classes
      in the order `inspect.getmembers` lists them, or the exception. */
  datatype PluginFile = PluginFile(filename: string, imported: Result<seq<PluginClass>>)

  /** One entry of `list_plugins`. */
  datatype PluginInfo = PluginInfo(id: string, name: string, description: string)

  /** The registry: plugin id to class, in insertion order. */
  type Registry = seq<(string, PluginClass)>

  /** The file-name convention for plugin modules. */
  predicate IsPluginFile(filename: string) {
    EndsWith(filename, "_plugin.py") && !StartsWith(filename, "base_")
  }

  /** `filename[:-3]`: the module name, without `.py`. */
  function ModuleName(filename: string): (r: string)
    requires IsPluginFile(filename)
    ensures r + ".py" == filename
  {
    var r := filename[..|filename| - 3];
    assert filename[|filename| - 3..] == ".py";
    assert r + filename[|filename| - 3..] == filename;
    r
  }

  /** A class that `load_plugins` registers: a proper subclass of the
      plugin base whose `get_id()` returns. */
  predicate Registrable(c: PluginClass) {
    c.isPlugin && !c.isBase && c.id.Ok?
  }

  // ---------------------------------------------------------------------
  // Registration, as a left fold over the files and their classes

  function RegisterClass(m: Registry, c: PluginClass): Registry {
    if Registrable(c) then Put(m, c.id.value, c) else m
  }

  function RegisterClasses(m: Registry, cs: seq<PluginClass>): Registry
    decreases |cs|
  {
    if |cs| == 0 then m else RegisterClasses(RegisterClass(m, cs[0]), cs[1..])
  }

  /** A file is imported only when its name follows the convention; a
      failed import registers nothing. */
  function RegisterFile(m: Registry, f: PluginFile): Registry {
    if IsPluginFile(f.filename) && f.imported.Ok? then RegisterClasses(m, f.imported.value) else m
  }

  function RegisterFiles(m: Registry, fs: seq<PluginFile>): Registry
    decreases |fs|
  {
    if |fs| == 0 then m else RegisterFiles(RegisterFile(m, fs[0]), fs[1..])
  }

  /** The registry `load_plugins` builds from a directory listing, or from
      a missing directory (`None`). */
  function Loaded(dir: Option<seq<PluginFile>>): Registry {
    if dir.None? then [] else RegisterFiles([], dir.value)
  }

  /** The classes of the importable plugin files, in loading order. */
  function Candidates(fs: seq<PluginFile>): (r: seq<PluginClass>)
    ensures forall c :: c in r ==> exists i :: 0 <= i < |fs| && IsPluginFile(fs[i].filename)
                                                && fs[i].imported.Ok? && c in fs[i].imported.value
  {
    if |fs| == 0 then []
    else
      var rest := Candidates(fs[1..]);
      assert forall c :: c in rest ==> exists i :: 0 <= i < |fs| && IsPluginFile(fs[i].filename)
                                                  && fs[i].imported.Ok? && c in fs[i].imported.value by {
        forall c | c in rest
          ensures exists i :: 0 <= i < |fs| && IsPluginFile(fs[i].filename)
                              && fs[i].imported.Ok? && c in fs[i].imported.value
        {
          var i :| 0 <= i < |fs[1..]| && IsPluginFile(fs[1..][i].filename)
                   && fs[1..][i].imported.Ok? && c in fs[1..][i].imported.value;
          assert fs[1..][i] == fs[i + 1];
        }
      }
      (if IsPluginFile(fs[0].filename) && fs[0].imported.Ok? then fs[0].imported.value else []) + rest
  }

  /** The last registrable class with the id: the one a lookup finds. */
  function LastWithId(cs: seq<PluginClass>, pid: string): (r: Option<PluginClass>)
    ensures r.Some? ==> r.value in cs && Registrable(r.value) && r.value.id == Ok(pid)
    ensures r.None? <==> forall i :: 0 <= i < |cs| ==> !(Registrable(cs[i]) && cs[i].id == Ok(pid))
    ensures r.Some? ==> exists i :: 0 <= i < |cs| && cs[i] == r.value
                                    && forall j :: i < j < |cs| ==> !(Registrable(cs[j]) && cs[j].id == Ok(pid))
  {
    if |cs| == 0 then None
    else
      var later := LastWithId(cs[1..], pid);
      if later.Some? then
        var i :| 0 <= i < |cs[1..]| && cs[1..][i] == later.value
                 && forall j :: i < j < |cs[1..]| ==> !(Registrable(cs[1..][j]) && cs[1..][j].id == Ok(pid));
        assert cs[i + 1] == later.value;
        assert forall j :: i + 1 < j < |cs| ==> cs[j] == cs[1..][j - 1];
        later
      else if Registrable(cs[0]) && cs[0].id == Ok(pid) then
        assert forall j :: 0 < j < |cs| ==> cs[j] == cs[1..][j - 1];
        Some(cs[0])
      else
        assert forall j :: 0 < j < |cs| ==> cs[j] == cs[1..][j - 1];
        None
  }

  /** Registering a sequence of classes: an id registered by a later class
      is found as that class, any other id as before. */
  lemma {:induction false} LookupRegisterClasses(m: Registry, cs: seq<PluginClass>, pid: string)
    ensures Lookup(RegisterClasses(m, cs), pid) ==
            (if LastWithId(cs, pid).Some? then LastWithId(cs, pid) else Lookup(m, pid))
    decreases |cs|
  {
    if |cs| > 0 {
      LookupRegisterClasses(RegisterClass(m, cs[0]), cs[1..], pid);
    }
  }

  lemma {:induction false} RegisterClassesAppend(m: Registry, a: seq<PluginClass>, b: seq<PluginClass>)
    ensures RegisterClasses(m, a + b) == RegisterClasses(RegisterClasses(m, a), b)
    decreases |a|
  {
    if |a| > 0 {
      assert (a + b)[0] == a[0] && (a + b)[1..] == a[1..] + b;
      RegisterClassesAppend(RegisterClass(m, a[0]), a[1..], b);
    } else {
      assert a + b == b;
    }
  }

  /** Loading file by file is registering the candidates in order. */
  lemma {:induction false} RegisterFilesCandidates(m: Registry, fs: seq<PluginFile>)
    ensures RegisterFiles(m, fs) == RegisterClasses(m, Candidates(fs))
    decreases |fs|
  {
    if |fs| > 0 {
      var first := if IsPluginFile(fs[0].filename) && fs[0].imported.Ok? then fs[0].imported.value else [];
      RegisterFilesCandidates(RegisterFile(m, fs[0]), fs[1..]);
      RegisterClassesAppend(m, first, Candidates(fs[1..]));
    }
  }

  /** The registry maps an id to the last proper plugin subclass, from an
      importable `*_plugin.py` file that is not `base_*`, whose `get_id()`
      returns it: duplicates are overwritten, the base class never appears,
      and a missing directory registers nothing. */
  lemma LastRegistrationWins(dir: Option<seq<PluginFile>>, pid: string)
    ensures dir.None? ==> Loaded(dir) == []
    ensures dir.Some? ==> Lookup(Loaded(dir), pid) == LastWithId(Candidates(dir.value), pid)
    ensures Lookup(Loaded(dir), pid).Some? ==>
      var c := Lookup(Loaded(dir), pid).value;
      c.isPlugin && !c.isBase && c.id == Ok(pid)
      && exists i :: 0 <= i < |dir.value| && IsPluginFile(dir.value[i].filename)
                     && dir.value[i].imported.Ok? && c in dir.value[i].imported.value
  {
    if dir.Some? {
      RegisterFilesCandidates([], dir.value);
      LookupRegisterClasses([], Candidates(dir.value), pid);
    }
  }

  // ---------------------------------------------------------------------
  // Listing

  /** `list_plugins`: one entry per registered id, in registry order,
      skipping classes whose name or description accessor raises. */
  function Listing(m: Registry): (r: seq<PluginInfo>)
    ensures |r| <= |m|
  {
    if |m| == 0 then []
    else
      var (pid, c) := m[0];
      (if c.name.Ok? && c.description.Ok? then [PluginInfo(pid, c.name.value, c.description.value)] else [])
      + Listing(m[1..])
  }

  /** Every listed entry is a registered id with the name and description
      its class answers. */
  lemma {:induction false} ListingSound(m: Registry)
    ensures forall e :: e in Listing(m) ==> exists i :: 0 <= i < |m| && m[i].0 == e.id
                                                     && m[i].1.name == Ok(e.name) && m[i].1.description == Ok(e.description)
  {
    if |m| > 0 {
      ListingSound(m[1..]);
      var rest := Listing(m[1..]);
      forall e | e in Listing(m)
        ensures exists i :: 0 <= i < |m| && m[i].0 == e.id
                            && m[i].1.name == Ok(e.name) && m[i].1.description == Ok(e.description)
      {
        if e in rest {
          var i :| 0 <= i < |m[1..]| && m[1..][i].0 == e.id
                   && m[1..][i].1.name == Ok(e.name) && m[1..][i].1.description == Ok(e.description);
          assert m[1..][i] == m[i + 1];
        } else {
          assert m[0].0 == e.id && m[0].1.name == Ok(e.name) && m[0].1.description == Ok(e.description);
        }
      }
    }
  }

  /** Every registered class whose accessors answer is listed. */
  lemma {:induction false} ListingComplete(m: Registry, i: nat)
    requires i < |m| && m[i].1.name.Ok? && m[i].1.description.Ok?
    ensures PluginInfo(m[i].0, m[i].1.name.value, m[i].1.description.value) in Listing(m)
  {
    if i > 0 {
      assert m[1..][i - 1] == m[i];
      ListingComplete(m[1..], i - 1);
    }
  }

  // ---------------------------------------------------------------------
  // The manager

  class PluginManager {
    /** `self.plugins`. */
    var plugins: Registry

    /** `PluginManager()`: loads the plugins of the directory at once. */
    constructor (dir: Option<seq<PluginFile>>)
      ensures plugins == Loaded(dir)
    {
      plugins := [];
      new;
      LoadPlugins(dir);
    }

    /** `load_plugins`: for each directory entry following the convention,
        each registrable class of its module is stored under its id. */
    method LoadPlugins(dir: Option<seq<PluginFile>>)
      modifies this
      ensures old(plugins) == [] ==> plugins == Loaded(dir)
      ensures dir.Some? ==> plugins == RegisterFiles(old(plugins), dir.value)
      ensures dir.None? ==> plugins == old(plugins)
    {
      if dir.None? {
        return;
      }
      var files := dir.value;
      var i := 0;
      while i < |files|
        invariant 0 <= i <= |files|
        invariant RegisterFiles(plugins, files[i..]) == RegisterFiles(old(plugins), files)
      {
        var f := files[i];
        assert files[i..][0] == f && files[i..][1..] == files[i + 1..];
        if IsPluginFile(f.filename) && f.imported.Ok? {
          var classes := f.imported.value;
          var start := plugins;
          var j := 0;
          while j < |classes|
            invariant 0 <= j <= |classes|
            invariant RegisterClasses(plugins, classes[j..]) == RegisterClasses(start, classes)
          {
            var c := classes[j];
            assert classes[j..][0] == c && classes[j..][1..] == classes[j + 1..];
            if c.isPlugin && !c.isBase && c.id.Ok? {
              plugins := Put(plugins, c.id.value, c);
            }
            j := j + 1;
          }
          assert classes[j..] == [];
        }
        i := i + 1;
      }
      assert files[i..] == [];
    }

    /** `get_plugin_class`: the registered class, or nothing for an
        unknown id. */
    function GetPluginClass(pid: string): (r: Option<PluginClass>)
      reads this
      ensures r.Some? <==> exists i :: 0 <= i < |plugins| && plugins[i].0 == pid
    {
      Lookup(plugins, pid)
    }

    /** `list_plugins`, appending entry by entry. */
    method ListPlugins() returns (r: seq<PluginInfo>)
      ensures r == Listing(plugins)
    {
      r := [];
      var i := 0;
      while i < |plugins|
        invariant 0 <= i <= |plugins|
        invariant r + Listing(plugins[i..]) == Listing(plugins)
      {
        var (pid, c) := plugins[i];
        ListingStep(plugins, i, r);
        if c.name.Ok? && c.description.Ok? {
          r := r + [PluginInfo(pid, c.name.value, c.description.value)];
        }
        i := i + 1;
      }
      assert plugins[i..] == [];
      assert r + [] == r;
    }
  }

  /** One registry entry moves from the listing still to come to the
      listing made so far. */
  lemma ListingStep(m: Registry, i: nat, r: seq<PluginInfo>)
    requires i < |m| && r + Listing(m[i..]) == Listing(m)
    ensures var c := m[i].1;
      (if c.name.Ok? && c.description.Ok? then r + [PluginInfo(m[i].0, c.name.value, c.description.value)] else r)
      + Listing(m[i + 1..]) == Listing(m)
  {
    assert m[i..][0] == m[i] && m[i..][1..] == m[i + 1..];
    var c := m[i].1;
    var rest := Listing(m[i + 1..]);
    if c.name.Ok? && c.description.Ok? {
      var h := [PluginInfo(m[i].0, c.name.value, c.description.value)];
      assert Listing(m[i..]) == h + rest;
      calc {
        (r + h) + rest;
        r + (h + rest);
        r + Listing(m[i..]);
      }
    } else {
      assert Listing(m[i..]) == rest;
    }
  }

  /** `get_plugin_manager`: the instance made at startup, or a RuntimeError
      before it exists. */
  function GetPluginManager(instance: Option<PluginManager>): (r: Result<PluginManager>)
    ensures r.Ok? <==> instance.Some?
    ensures instance.Some? ==> r.value == instance.value
    ensures instance.None? ==> r.exc.kind == RuntimeError
  {
    if instance.None? then
      Raise(Exc(RuntimeError, "PluginManager has not been initialized. This should occur during application startup."))
    else Ok(instance.value)
  }
}
