/** The closure of a specification under EXTENDS and INSTANCE: a breadth-first walk over an
    abstract file system. */
module SpecClosure {
  import opened Schedules
  import opened ImportClauses
  import Counting

  /** `canonical` resolves a path to the file it names, if any; `content` holds the readable
      files; `parent` is the directory of a file. */
  datatype FileSystem = FileSystem(canonical: string -> Option<string>, content: map<string, string>, parent: string -> string)

  /** Resolving a resolved path changes nothing. */
  ghost predicate Resolved(fs: FileSystem) {
    forall p :: fs.canonical(p).Some? ==> fs.canonical(fs.canonical(p).value) == fs.canonical(p)
  }

  function Join(dir: string, name: string): string { dir + "/" + name + ".tla" }

  /** Where a module may be found: beside its importer first, then in the search directories. */
  function Directories(fs: FileSystem, dirs: seq<string>, importer: string): seq<string> {
    [fs.parent(importer)] + dirs
  }

  ghost function CandidateSet(fs: FileSystem, places: seq<string>, name: string): set<string> {
    set i | 0 <= i < |places| && fs.canonical(Join(places[i], name)).Some? :: fs.canonical(Join(places[i], name)).value
  }

  /** All distinct files an import may mean, in search order. */
  method Candidates(fs: FileSystem, places: seq<string>, name: string) returns (found: seq<string>)
    ensures (set f | f in found) == CandidateSet(fs, places, name)
    ensures forall i, j :: 0 <= i < j < |found| ==> found[i] != found[j]
  {
    found := [];
    for k := 0 to |places|
      invariant forall f :: f in found <==> f in CandidateSet(fs, places[..k], name)
      invariant forall i, j :: 0 <= i < j < |found| ==> found[i] != found[j]
    {
      var file := fs.canonical(Join(places[k], name));
      CandidatesAppend(fs, places, name, k);
      if file.Some? && file.value !in found { found := found + [file.value]; }
    }
    assert places[..|places|] == places;
  }

  lemma {:induction false} CandidatesAppend(fs: FileSystem, places: seq<string>, name: string, k: nat)
    requires k < |places|
    ensures var file := fs.canonical(Join(places[k], name));
            CandidateSet(fs, places[..k + 1], name) == CandidateSet(fs, places[..k], name) + if file.Some? then {file.value} else {}
  {
    var now, before := CandidateSet(fs, places[..k + 1], name), CandidateSet(fs, places[..k], name);
    forall f | f in before ensures f in now {
      var i :| 0 <= i < k && fs.canonical(Join(places[..k][i], name)) == Some(f);
      assert places[..k + 1][i] == places[..k][i];
    }
    if fs.canonical(Join(places[k], name)).Some? { assert places[..k + 1][k] == places[k]; }
  }

  // ----- imports as edges -----------------------------------------------------------------------

  ghost predicate Imports(fs: FileSystem, f: string, name: string) {
    f in fs.content && name in ImportNames(fs.content[f]) && !Builtin(name)
  }

  /** `g` is the one file that some import of `f` can mean. */
  ghost predicate Edge(fs: FileSystem, dirs: seq<string>, f: string, g: string) {
    exists name :: Imports(fs, f, name) && CandidateSet(fs, Directories(fs, dirs, f), name) == {g}
  }

  /** A readable file whose imports each have exactly one candidate. */
  ghost predicate Sound(fs: FileSystem, dirs: seq<string>, f: string) {
    && f in fs.content
    && forall name :: Imports(fs, f, name) ==> exists g :: CandidateSet(fs, Directories(fs, dirs, f), name) == {g}
  }

  /** A chain of imports from the root to `f`. */
  ghost predicate Path(fs: FileSystem, dirs: seq<string>, root: string, f: string, path: seq<string>) {
    && path != [] && path[0] == root && path[|path| - 1] == f
    && forall k :: 0 <= k < |path| - 1 ==> Edge(fs, dirs, path[k], path[k + 1])
  }

  ghost predicate Reachable(fs: FileSystem, dirs: seq<string>, root: string, f: string) {
    exists path :: Path(fs, dirs, root, f, path)
  }

  /** `d` imports lead to `f`, and no fewer do. */
  ghost predicate Distance(fs: FileSystem, dirs: seq<string>, root: string, f: string, d: nat) {
    && (exists path :: Path(fs, dirs, root, f, path) && |path| == d + 1)
    && forall path :: Path(fs, dirs, root, f, path) ==> |path| >= d + 1
  }

  lemma {:induction false} PathAppend(fs: FileSystem, dirs: seq<string>, root: string, f: string, path: seq<string>, g: string)
    requires Path(fs, dirs, root, f, path) && Edge(fs, dirs, f, g)
    ensures Path(fs, dirs, root, g, path + [g])
  {
    var longer := path + [g];
    hide Edge;
    forall k | 0 <= k < |longer| - 1 ensures Edge(fs, dirs, longer[k], longer[k + 1]) {
      if k == |path| - 1 {
        assert longer[k] == f && longer[k + 1] == g;
      } else {
        assert longer[k] == path[k] && longer[k + 1] == path[k + 1];
      }
    }
  }

  // ----- the walk ------------------------------------------------------------------------------------

  /** The files found so far with their levels: distinct, readable, in nondecreasing level, each
      with a chain of that many imports. */
  ghost predicate Found(fs: FileSystem, dirs: seq<string>, root: string, files: seq<string>, levels: seq<nat>) {
    && |levels| == |files| && (files != [] ==> files[0] == root && levels[0] == 0)
    && (forall i, j :: 0 <= i < j < |files| ==> files[i] != files[j] && levels[i] <= levels[j])
    && (forall i :: 0 <= i < |files| ==> files[i] in fs.content && AtLevel(fs, dirs, root, files[i], levels[i]))
  }

  ghost predicate AtLevel(fs: FileSystem, dirs: seq<string>, root: string, f: string, level: nat) {
    exists path :: Path(fs, dirs, root, f, path) && |path| == level + 1
  }

  /** `g` is among the files, at most one level below `level`. */
  ghost predicate Within(files: seq<string>, levels: seq<nat>, g: string, level: nat)
    requires |files| == |levels|
  {
    exists p :: 0 <= p < |files| && files[p] == g && levels[p] <= level + 1
  }

  /** Every import of `f` resolves to a file already found. */
  ghost predicate Expanded(fs: FileSystem, dirs: seq<string>, f: string, level: nat, files: seq<string>, levels: seq<nat>)
    requires |files| == |levels|
  {
    forall name :: Imports(fs, f, name) ==> ResolvedIn(fs, dirs, f, name, level, files, levels)
  }

  ghost predicate ResolvedIn(fs: FileSystem, dirs: seq<string>, f: string, name: string, level: nat, files: seq<string>, levels: seq<nat>)
    requires |files| == |levels|
  {
    exists g :: CandidateSet(fs, Directories(fs, dirs, f), name) == {g} && Within(files, levels, g, level)
  }

  /** Every level is at most `bound`. */
  ghost predicate Below(levels: seq<nat>, bound: nat) {
    forall i :: 0 <= i < |levels| ==> levels[i] <= bound
  }

  lemma {:induction false} FoundOneMore(fs: FileSystem, dirs: seq<string>, root: string, files: seq<string>, levels: seq<nat>, g: string, level: nat)
    requires Found(fs, dirs, root, files, levels) && g !in files && g in fs.content && Below(levels, level)
    requires AtLevel(fs, dirs, root, g, level) && (files == [] ==> g == root && level == 0)
    ensures Found(fs, dirs, root, files + [g], levels + [level])
  {
    hide AtLevel;
  }

  /** What was resolved stays resolved when more files are found. */
  lemma {:induction false} StaysExpanded(fs: FileSystem, dirs: seq<string>, f: string, level: nat, files: seq<string>, levels: seq<nat>,
                                         files': seq<string>, levels': seq<nat>)
    requires |files| == |levels| && |files'| == |levels'| && files <= files' && levels <= levels'
    ensures forall name :: ResolvedIn(fs, dirs, f, name, level, files, levels) ==> ResolvedIn(fs, dirs, f, name, level, files', levels')
    ensures Expanded(fs, dirs, f, level, files, levels) ==> Expanded(fs, dirs, f, level, files', levels')
  {
    hide CandidateSet, Directories, Imports;
    forall name | ResolvedIn(fs, dirs, f, name, level, files, levels) ensures ResolvedIn(fs, dirs, f, name, level, files', levels') {
      var g :| CandidateSet(fs, Directories(fs, dirs, f), name) == {g} && Within(files, levels, g, level);
      var p :| 0 <= p < |files| && files[p] == g && levels[p] <= level + 1;
      assert files'[p] == g && levels'[p] <= level + 1;
      assert Within(files', levels', g, level);
    }
  }

  /** Along any chain of imports, levels grow by at most one at each import. */
  lemma {:induction false} LevelsAreShort(fs: FileSystem, dirs: seq<string>, root: string, files: seq<string>, levels: seq<nat>, f: string, path: seq<string>)
    requires Found(fs, dirs, root, files, levels) && files != []
    requires forall i :: 0 <= i < |files| ==> Expanded(fs, dirs, files[i], levels[i], files, levels)
    requires Path(fs, dirs, root, f, path)
    ensures exists p :: 0 <= p < |files| && files[p] == f && levels[p] < |path|
    decreases |path|
  {
    if |path| == 1 {
      assert files[0] == f && levels[0] < |path|;
    } else {
      var n := |path| - 1;
      var before, last := path[..n], path[n - 1];
      hide Edge, Expanded;
      assert Path(fs, dirs, root, last, before) by {
        forall k | 0 <= k < |before| - 1 ensures Edge(fs, dirs, before[k], before[k + 1]) {
          assert Edge(fs, dirs, path[k], path[k + 1]);
        }
      }
      LevelsAreShort(fs, dirs, root, files, levels, last, before);
      var p :| 0 <= p < |files| && files[p] == last && levels[p] < n;
      assert Edge(fs, dirs, path[n - 1], path[n]);
      Next(fs, dirs, files, levels, p, f);
    }
  }

  lemma {:induction false} Next(fs: FileSystem, dirs: seq<string>, files: seq<string>, levels: seq<nat>, p: nat, g: string)
    requires |files| == |levels| && p < |files| && Expanded(fs, dirs, files[p], levels[p], files, levels) && Edge(fs, dirs, files[p], g)
    ensures Within(files, levels, g, levels[p])
  {
    var name :| Imports(fs, files[p], name) && CandidateSet(fs, Directories(fs, dirs, files[p]), name) == {g};
    assert ResolvedIn(fs, dirs, files[p], name, levels[p], files, levels);
    var h :| CandidateSet(fs, Directories(fs, dirs, files[p]), name) == {h} && Within(files, levels, h, levels[p]);
    assert h in {g};
  }

  /** A file that should have been readable and resolvable is not. */
  ghost predicate Defect(fs: FileSystem, dirs: seq<string>, root: string) {
    exists f :: Reachable(fs, dirs, root, f) && !Sound(fs, dirs, f)
  }

  class Walk {
    const fs: FileSystem
    const dirs: seq<string>
    const root: string
    var sources: seq<string>
    var pending: seq<string>
    var visited: set<string>
    ghost var levels: seq<nat>

    ghost predicate Valid()
      reads this
    {
      && Found(fs, dirs, root, pending, levels)
      && visited == (set f | f in pending)
      && |sources| == |pending| == |levels| && forall i :: 0 <= i < |pending| ==> pending[i] in fs.content && sources[i] == fs.content[pending[i]]
    }

    constructor (fs: FileSystem, dirs: seq<string>, root: string)
      ensures Valid() && pending == [] && this.fs == fs && this.dirs == dirs && this.root == root
    {
      this.fs, this.dirs, this.root := fs, dirs, root;
      sources, pending, visited, levels := [], [], {}, [];
    }

    /** Resolves and reads a file unless it was read before; fails exactly when it cannot. */
    method PushFile(path: string, ghost level: nat) returns (ok: bool)
      requires Valid() && Below(levels, level)
      requires fs.canonical(path).Some? ==> AtLevel(fs, dirs, root, fs.canonical(path).value, level)
      requires pending == [] ==> fs.canonical(path) == Some(root) && level == 0
      modifies this
      ensures Valid() && (ok <==> fs.canonical(path).Some? && fs.canonical(path).value in fs.content)
      ensures var more := ok && fs.canonical(path).value !in old(pending);
              && pending == old(pending) + (if more then [fs.canonical(path).value] else [])
              && levels == old(levels) + (if more then [level] else [])
    {
      hide AtLevel, Below, Found;
      var canonical := fs.canonical(path);
      if canonical.None? { return false; }
      var file := canonical.value;
      if file in visited {
        return true;
      }
      if file !in fs.content { return false; }
      FoundOneMore(fs, dirs, root, pending, levels, file, level);
      visited := visited + {file};
      sources := sources + [fs.content[file]];
      pending := pending + [file];
      levels := levels + [level];
      return true;
    }

    /** Finds the one file an import means and reads it. */
    method Resolve(importer: string, name: string, ghost level: nat) returns (ok: bool)
      requires Valid() && Resolved(fs) && pending != [] && AtLevel(fs, dirs, root, importer, level) && Imports(fs, importer, name)
      requires Below(levels, level + 1)
      modifies this
      ensures Valid() && old(pending) <= pending && old(levels) <= levels && Below(levels, level + 1)
      ensures ok ==> ResolvedIn(fs, dirs, importer, name, level, pending, levels)
      ensures !ok ==> Defect(fs, dirs, root)
    {
      hide Found, AtLevel, Imports, CandidateSet, Directories, Defect;
      var found := Candidates(fs, Directories(fs, dirs, importer), name);
      if |found| != 1 {
        NotOne(fs, dirs, root, importer, level, name, found);
        return false;
      }
      var g := found[0];
      assert (set f | f in found) == {g};
      OneLevelDown(fs, dirs, root, importer, level, name, g);
      CandidateIsResolved(fs, Directories(fs, dirs, importer), name, g);
      ghost var before := pending;
      ok := PushFile(g, level + 1);
      if !ok {
        Missing(fs, dirs, root, g, level + 1);
        return;
      }
      if g in before {
        var p :| 0 <= p < |before| && before[p] == g;
        assert pending[p] == g && levels[p] <= level + 1;
      } else {
        assert pending[|before|] == g && levels[|before|] == level + 1;
      }
      assert Within(pending, levels, g, level);
    }

    /** Resolves every import of the file at `at`. */
    method Expand(at: nat) returns (ok: bool)
      requires Valid() && Resolved(fs) && at < |pending| && Below(levels, levels[at] + 1)
      modifies this
      ensures Valid() && old(pending) <= pending && old(levels) <= levels && Below(levels, levels[at] + 1)
      ensures ok ==> Expanded(fs, dirs, pending[at], levels[at], pending, levels)
      ensures !ok ==> Defect(fs, dirs, root)
    {
      hide Found, AtLevel, Below, ResolvedIn, Defect, Builtin, ImportNames;
      var importer := pending[at];
      ghost var level := levels[at];
      LevelOf(fs, dirs, root, pending, levels, at);
      var names := FindImports(sources[at]);
      for n := 0 to |names|
        invariant Valid() && old(pending) <= pending && old(levels) <= levels && Below(levels, level + 1)
        invariant forall m :: 0 <= m < n && !Builtin(names[m]) ==> ResolvedIn(fs, dirs, importer, names[m], level, pending, levels)
      {
        if Builtin(names[n]) { continue; }
        ghost var files, ls := pending, levels;
        ok := Resolve(importer, names[n], level);
        if !ok { return; }
        StaysExpanded(fs, dirs, importer, level, files, ls, pending, levels);
      }
      return true;
    }

    /** Expands every file in turn, the ones found on the way included. */
    method Finish() returns (ok: bool)
      requires Valid() && Resolved(fs) && |pending| == 1
      modifies this
      ensures Valid() && pending != [] && (!ok ==> Defect(fs, dirs, root))
      ensures ok ==> forall i :: 0 <= i < |pending| ==> Expanded(fs, dirs, pending[i], levels[i], pending, levels)
    {
      hide Resolved, Found, Expanded, Defect;
      var i := 0;
      OnlyRoot(fs, dirs, root, pending, levels);
      while i < |pending|
        invariant Valid() && i <= |pending| && pending != []
        invariant i < |pending| ==> Below(levels, levels[i] + 1)
        invariant forall k :: 0 <= k < i ==> Expanded(fs, dirs, pending[k], levels[k], pending, levels)
        decreases |fs.content.Keys| - i
      {
        ghost var files, ls := pending, levels;
        ok := Expand(i);
        if !ok { return; }
        forall k | 0 <= k < i ensures Expanded(fs, dirs, pending[k], levels[k], pending, levels) {
          StaysExpanded(fs, dirs, files[k], ls[k], files, ls, pending, levels);
        }
        Ascending(fs, dirs, root, pending, levels, i);
        NoMoreThanReadable(fs, dirs, root, pending, levels);
        i := i + 1;
      }
      return true;
    }
  }

  lemma {:induction false} OnlyRoot(fs: FileSystem, dirs: seq<string>, root: string, files: seq<string>, levels: seq<nat>)
    requires Found(fs, dirs, root, files, levels) && |files| == 1
    ensures |levels| == 1 && Below(levels, levels[0] + 1)
  {
  }

  /** Levels do not fall, so the next file is at most one above the highest, too. */
  lemma {:induction false} Ascending(fs: FileSystem, dirs: seq<string>, root: string, files: seq<string>, levels: seq<nat>, i: nat)
    requires Found(fs, dirs, root, files, levels) && i < |files| && |levels| == |files| && Below(levels, levels[i] + 1)
    ensures i + 1 < |files| ==> Below(levels, levels[i + 1] + 1)
  {
    hide AtLevel;
  }

  lemma {:induction false} CandidateIsResolved(fs: FileSystem, places: seq<string>, name: string, g: string)
    requires Resolved(fs) && g in CandidateSet(fs, places, name)
    ensures fs.canonical(g) == Some(g)
  {
    var i :| 0 <= i < |places| && fs.canonical(Join(places[i], name)) == Some(g);
    var p := Join(places[i], name);
    assert fs.canonical(p).Some?;
  }

  lemma {:induction false} LevelOf(fs: FileSystem, dirs: seq<string>, root: string, files: seq<string>, levels: seq<nat>, at: nat)
    requires Found(fs, dirs, root, files, levels) && at < |files|
    ensures |levels| == |files| && AtLevel(fs, dirs, root, files[at], levels[at])
  {
    hide AtLevel;
  }

  lemma {:induction false} OneLevelDown(fs: FileSystem, dirs: seq<string>, root: string, f: string, level: nat, name: string, g: string)
    requires AtLevel(fs, dirs, root, f, level) && Imports(fs, f, name) && CandidateSet(fs, Directories(fs, dirs, f), name) == {g}
    ensures AtLevel(fs, dirs, root, g, level + 1)
  {
    var path :| Path(fs, dirs, root, f, path) && |path| == level + 1;
    hide Path, CandidateSet, Imports, Directories;
    assert Edge(fs, dirs, f, g);
    PathAppend(fs, dirs, root, f, path, g);
  }

  lemma {:induction false} Missing(fs: FileSystem, dirs: seq<string>, root: string, g: string, level: nat)
    requires AtLevel(fs, dirs, root, g, level) && g !in fs.content
    ensures Defect(fs, dirs, root)
  {
    hide Path;
    assert Reachable(fs, dirs, root, g) && !Sound(fs, dirs, g);
  }

  lemma {:induction false} NotOne(fs: FileSystem, dirs: seq<string>, root: string, f: string, level: nat, name: string, found: seq<string>)
    requires AtLevel(fs, dirs, root, f, level) && Imports(fs, f, name) && |found| != 1
    requires (set g | g in found) == CandidateSet(fs, Directories(fs, dirs, f), name)
    requires forall i, j :: 0 <= i < j < |found| ==> found[i] != found[j]
    ensures Defect(fs, dirs, root)
  {
    hide Path, Imports, CandidateSet, Directories;
    var all := set x | x in found;
    forall g ensures all != {g} {
      if found == [] {
        assert g !in all;
      } else {
        assert found[0] in all && found[1] in all && found[0] != found[1];
      }
    }
    assert Reachable(fs, dirs, root, f) && !Sound(fs, dirs, f);
  }

  // ----- the result -----------------------------------------------------------------------------------

  /** The files of a finished walk: the root first, then everything reachable, once each. */
  ghost predicate Closure(fs: FileSystem, dirs: seq<string>, root: string, files: seq<string>) {
    && files != [] && files[0] == root && Counting.Distinct(files)
    && (forall f :: f in files <==> Reachable(fs, dirs, root, f))
    && (forall f :: f in files ==> Sound(fs, dirs, f))
  }

  /** Nondecreasing import distance. */
  ghost predicate InOrder(fs: FileSystem, dirs: seq<string>, root: string, files: seq<string>, levels: seq<nat>) {
    && |levels| == |files| && (forall i, j :: 0 <= i < j < |files| ==> levels[i] <= levels[j])
    && forall i :: 0 <= i < |files| ==> Distance(fs, dirs, root, files[i], levels[i])
  }

  /** A walk in which every file is expanded has found exactly what is reachable, at its distance. */
  lemma {:induction false} WalkIsComplete(fs: FileSystem, dirs: seq<string>, root: string, files: seq<string>, levels: seq<nat>)
    requires Found(fs, dirs, root, files, levels) && files != []
    requires forall i :: 0 <= i < |files| ==> Expanded(fs, dirs, files[i], levels[i], files, levels)
    ensures Closure(fs, dirs, root, files) && InOrder(fs, dirs, root, files, levels) && !Defect(fs, dirs, root)
  {
    hide Path, Expanded;
    forall f, path | Path(fs, dirs, root, f, path)
      ensures f in files && forall p :: 0 <= p < |files| && files[p] == f ==> levels[p] < |path|
    {
      LevelsAreShort(fs, dirs, root, files, levels, f, path);
    }
    forall f | f in files ensures Reachable(fs, dirs, root, f) && Sound(fs, dirs, f) {
      var i :| 0 <= i < |files| && files[i] == f;
      assert AtLevel(fs, dirs, root, files[i], levels[i]);
      ExpandedIsSound(fs, dirs, f, levels[i], files, levels);
    }
    forall i | 0 <= i < |files| ensures Distance(fs, dirs, root, files[i], levels[i]) {
      assert AtLevel(fs, dirs, root, files[i], levels[i]);
    }
  }

  lemma {:induction false} ExpandedIsSound(fs: FileSystem, dirs: seq<string>, f: string, level: nat, files: seq<string>, levels: seq<nat>)
    requires |files| == |levels| && f in fs.content && Expanded(fs, dirs, f, level, files, levels)
    ensures Sound(fs, dirs, f)
  {
    hide Imports, CandidateSet, Directories;
  }

  lemma {:induction false} NoMoreThanReadable(fs: FileSystem, dirs: seq<string>, root: string, files: seq<string>, levels: seq<nat>)
    requires Found(fs, dirs, root, files, levels)
    ensures |files| <= |fs.content.Keys|
  {
    hide AtLevel;
    var members := set k | 0 <= k < |files| :: files[k];
    Counting.MembersCount(files, members);
    Counting.SubsetCount(members, fs.content.Keys);
  }

  lemma {:induction false} RootIsReachable(fs: FileSystem, dirs: seq<string>, root: string)
    ensures AtLevel(fs, dirs, root, root, 0) && Reachable(fs, dirs, root, root)
  {
    assert Path(fs, dirs, root, root, [root]);
  }

  /** The sources of a specification, or nothing. It succeeds exactly when the root resolves and
      everything reachable from it can be read and resolved; then the sources are those of the
      root and of every file reachable from it, once each, in nondecreasing import distance. */
  method SpecFromFiles(fs: FileSystem, root: string, dirs: seq<string>) returns (ok: bool, sources: seq<string>, files: seq<string>, ghost levels: seq<nat>)
    requires Resolved(fs)
    ensures ok <==> fs.canonical(root).Some? && !Defect(fs, dirs, fs.canonical(root).value)
    ensures ok ==>
              && Closure(fs, dirs, fs.canonical(root).value, files) && InOrder(fs, dirs, fs.canonical(root).value, files, levels)
              && |sources| == |files| && forall i :: 0 <= i < |files| ==> files[i] in fs.content && sources[i] == fs.content[files[i]]
  {
    hide Resolved, Found, AtLevel, Below, Expanded, Defect, Closure, InOrder;
    ok, sources, files, levels := false, [], [], [];
    var start := fs.canonical(root);
    if start.None? { return; }
    RootIsReachable(fs, dirs, start.value);
    var walk := new Walk(fs, dirs, start.value);
    NoLevels();
    ok := walk.PushFile(root, 0);
    if !ok {
      Missing(fs, dirs, start.value, start.value, 0);
      return;
    }
    ok := walk.Finish();
    if !ok { return; }
    WalkIsComplete(fs, dirs, start.value, walk.pending, walk.levels);
    sources, files, levels := walk.sources, walk.pending, walk.levels;
  }

  lemma {:induction false} NoLevels()
    ensures Below([], 0)
  {
  }
}
