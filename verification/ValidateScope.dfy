/** Which crates a validation run covers: the owners of the changed files, their dependents on demand, or the
    whole workspace.  A path is the sequence of its components, relative to the repository root. */
module ValidateScope {
  import opened Options

  type Path = seq<string>
  type Crate = string

  // ---------------------------------------------------------------------------------------------
  // Dependents
  // ---------------------------------------------------------------------------------------------

  datatype Package = Package(name: Crate, dependencies: seq<Option<Crate>>)

  function Names(packages: seq<Package>): set<Crate> {
    set i | 0 <= i < |packages| :: packages[i].name
  }

  /** The package lists the dependency by name. */
  ghost predicate DependsOn(p: Package, dep: Crate) {
    exists k :: 0 <= k < |p.dependencies| && p.dependencies[k] == Some(dep)
  }

  /** The workspace crates that directly depend on each workspace crate. */
  ghost predicate Dependents(packages: seq<Package>, dependents: map<Crate, set<Crate>>) {
    && (forall name :: name in dependents <==> exists i :: 0 <= i < |packages| && packages[i].name == name)
    && forall dep, name :: dep in dependents ==>
         (name in dependents[dep] <==>
          exists i :: 0 <= i < |packages| && packages[i].name == name && DependsOn(packages[i], dep))
  }

  method BuildDependents(packages: seq<Package>) returns (dependents: map<Crate, set<Crate>>)
    ensures Dependents(packages, dependents)
  {
    var members := Names(packages);
    dependents := map name | name in members :: {};
    var i := 0;
    while i < |packages|
      invariant 0 <= i <= |packages| && dependents.Keys == members
      invariant forall dep, name :: dep in members ==>
        (name in dependents[dep] <==> exists j :: 0 <= j < i && packages[j].name == name && DependsOn(packages[j], dep))
    {
      ghost var before := dependents;
      var p := packages[i];
      var k := 0;
      while k < |p.dependencies|
        invariant 0 <= k <= |p.dependencies| && dependents.Keys == members
        invariant forall dep, name :: dep in members ==>
          (name in dependents[dep] <==>
           name in before[dep] || (name == p.name && exists m :: 0 <= m < k && p.dependencies[m] == Some(dep)))
      {
        var dep := p.dependencies[k];
        if dep.Some? && dep.value in members {
          dependents := dependents[dep.value := dependents[dep.value] + {p.name}];
        }
        k := k + 1;
      }
      assert forall dep :: dep in members ==>
        ((exists m :: 0 <= m < |p.dependencies| && p.dependencies[m] == Some(dep)) <==> DependsOn(p, dep));
      i := i + 1;
    }
  }

  function DirectDependents(dependents: map<Crate, set<Crate>>, crate: Crate): set<Crate> {
    if crate in dependents then dependents[crate] else {}
  }

  /** The second crate depends directly on the first. */
  predicate Depends(dependents: map<Crate, set<Crate>>, crate: Crate, dependent: Crate) {
    crate in dependents && dependent in dependents[crate]
  }

  /** No crate outside the set depends directly on one inside. */
  ghost predicate Closed(dependents: map<Crate, set<Crate>>, crates: set<Crate>) {
    forall c, d :: c in crates && Depends(dependents, c, d) ==> d in crates
  }

  /** The least closed set that contains the changed crates. */
  ghost predicate LeastClosed(dependents: map<Crate, set<Crate>>, changed: set<Crate>, crates: set<Crate>) {
    && changed <= crates && Closed(dependents, crates)
    && forall other :: changed <= other && Closed(dependents, other) ==> crates <= other
  }

  /** Each crate of a chain depends directly on the one before it. */
  ghost predicate Chain(dependents: map<Crate, set<Crate>>, path: seq<Crate>) {
    && path != []
    && forall i :: 0 < i < |path| ==> Depends(dependents, path[i - 1], path[i])
  }

  ghost predicate ReachedBy(dependents: map<Crate, set<Crate>>, changed: set<Crate>, crate: Crate, path: seq<Crate>) {
    Chain(dependents, path) && path[0] in changed && path[|path| - 1] == crate
  }

  lemma {:induction false} ChainStays(dependents: map<Crate, set<Crate>>, crates: set<Crate>, path: seq<Crate>)
    requires Closed(dependents, crates) && Chain(dependents, path) && path[0] in crates
    ensures path[|path| - 1] in crates
    decreases |path|
  {
    if |path| > 1 {
      ChainStays(dependents, crates, path[..|path| - 1]);
    }
  }

  /** The least closed set holds exactly the crates that transitively depend on a changed one. */
  lemma LeastIsTransitive(dependents: map<Crate, set<Crate>>, changed: set<Crate>, crates: set<Crate>, crate: Crate)
    requires LeastClosed(dependents, changed, crates)
    ensures crate in crates <==> exists path :: ReachedBy(dependents, changed, crate, path)
  {
    if crate in crates {
      var reached := set c | c in crates && exists path :: ReachedBy(dependents, changed, c, path);
      forall c | c in changed ensures c in reached {
        assert ReachedBy(dependents, changed, c, [c]);
      }
      forall c, d | c in reached && Depends(dependents, c, d) ensures d in reached {
        var path :| ReachedBy(dependents, changed, c, path);
        assert ReachedBy(dependents, changed, d, path + [d]);
      }
      assert Closed(dependents, reached);
    }
    if exists path :: ReachedBy(dependents, changed, crate, path) {
      var path :| ReachedBy(dependents, changed, crate, path);
      ChainStays(dependents, crates, path);
    }
  }

  // ---------------------------------------------------------------------------------------------
  // The worklist
  // ---------------------------------------------------------------------------------------------

  ghost predicate NoRepeats(s: seq<Crate>) {
    forall i, j :: 0 <= i < j < |s| ==> s[i] != s[j]
  }

  /** The elements of a set, in some order. */
  method Listed(crates: set<Crate>) returns (list: seq<Crate>)
    ensures NoRepeats(list) && forall c :: c in list <==> c in crates
  {
    list := [];
    var rest := crates;
    while rest != {}
      invariant rest <= crates && NoRepeats(list)
      invariant forall c :: c in list <==> c in crates - rest
    {
      var c :| c in rest;
      assert c !in list;
      list := list + [c];
      rest := rest - {c};
    }
  }

  /** Takes the last entry off.  Callers learn only that some entry was taken, so what they prove holds for
      every order. */
  method Pop(stack: seq<Crate>) returns (crate: Crate, rest: seq<Crate>)
    requires stack != []
    ensures |rest| < |stack| && multiset(rest) + multiset{crate} == multiset(stack)
  {
    crate, rest := stack[|stack| - 1], stack[..|stack| - 1];
    assert stack == rest + [crate];
  }

  /** Every selected crate is waiting or its dependents are selected; nothing was selected without need. */
  ghost predicate Working(dependents: map<Crate, set<Crate>>, changed: set<Crate>,
                          result: set<Crate>, stack: seq<Crate>) {
    && changed <= result
    && (forall c :: c in stack ==> c in result)
    && (forall c :: c in result && c !in stack ==> DirectDependents(dependents, c) <= result)
    && (forall other :: changed <= other && Closed(dependents, other) ==> result <= other)
  }

  ghost function Universe(dependents: map<Crate, set<Crate>>, changed: set<Crate>): (all: set<Crate>)
    ensures changed <= all && forall c, d :: d in DirectDependents(dependents, c) ==> d in all
  {
    changed + (set c, d | c in dependents.Keys && d in dependents[c] :: d)
  }

  /** One entry of the worklist: its unselected dependents are selected and pushed. */
  method Visit(dependents: map<Crate, set<Crate>>, cur: Crate, result: set<Crate>, stack: seq<Crate>,
               ghost pushed: seq<Crate>)
    returns (result': set<Crate>, stack': seq<Crate>, ghost pushed': seq<Crate>)
    requires NoRepeats(pushed) && (forall c :: c in pushed <==> c in result)
    ensures result' == result + DirectDependents(dependents, cur)
    ensures forall c :: c in stack' <==> c in stack || c in result' - result
    ensures NoRepeats(pushed') && (forall c :: c in pushed' <==> c in result')
    ensures result' == result ==> stack' == stack
  {
    result', stack', pushed' := result, stack, pushed;
    var parents := DirectDependents(dependents, cur);
    var rest := parents;
    while rest != {}
      invariant rest <= parents && result' == result + (parents - rest)
      invariant forall c :: c in stack' <==> c in stack || c in result' - result
      invariant NoRepeats(pushed') && (forall c :: c in pushed' <==> c in result')
      invariant result' == result ==> stack' == stack
    {
      var parent :| parent in rest;
      rest := rest - {parent};
      if parent !in result' {
        result' := result' + {parent};
        stack' := stack' + [parent];
        pushed' := pushed' + [parent];
      }
    }
  }

  lemma VisitKeepsWorking(dependents: map<Crate, set<Crate>>, changed: set<Crate>, cur: Crate, result: set<Crate>,
                          stack: seq<Crate>, rest: seq<Crate>, result': set<Crate>, stack': seq<Crate>)
    requires Working(dependents, changed, result, stack)
    requires multiset(rest) + multiset{cur} == multiset(stack)
    requires result' == result + DirectDependents(dependents, cur)
    requires forall c :: c in stack' <==> c in rest || c in result' - result
    ensures Working(dependents, changed, result', stack')
  {
    forall c: Crate ensures c in stack <==> c in rest || c == cur {
      assert c in stack <==> c in multiset(stack);
      assert c in rest <==> c in multiset(rest);
    }
    assert cur in result;
    forall other | changed <= other && Closed(dependents, other) ensures result' <= other {
      assert result <= other;
      assert DirectDependents(dependents, cur) <= other;
    }
  }

  /** Selects the changed crates and all that depend on them; each crate is pushed at most once.  Without
      metadata nothing is added. */
  method WorkspaceRdeps(changed: set<Crate>, metadata: Option<seq<Package>>)
    returns (result: set<Crate>, ghost dependents: map<Crate, set<Crate>>, ghost pushed: seq<Crate>)
    ensures metadata.None? ==> result == changed
    ensures metadata.Some? ==> Dependents(metadata.value, dependents) && LeastClosed(dependents, changed, result)
    ensures metadata.Some? ==> ClosedOver(metadata.value, result)
    ensures metadata.Some? ==> NoRepeats(pushed) && forall c :: c in pushed <==> c in result
  {
    if metadata.None? {
      return changed, map[], [];
    }
    hide Dependents, ClosedOver, LeastClosed, DirectDependents;
    var direct := BuildDependents(metadata.value);
    dependents := direct;
    result := changed;
    var stack := Listed(changed);
    pushed := stack;
    ghost var all := Universe(direct, changed);
    while stack != []
      invariant Working(direct, changed, result, stack) && result <= all
      invariant NoRepeats(pushed) && forall c :: c in pushed <==> c in result
      decreases |all - result|, |stack|
    {
      ghost var before, waiting := result, stack;
      var cur, rest := Pop(stack);
      result, stack, pushed := Visit(direct, cur, result, rest, pushed);
      VisitKeepsWorking(direct, changed, cur, before, waiting, rest, result, stack);
      LessLeft(all, before, result);
    }
    NothingWaits(direct, changed, result);
    ClosedMeansOver(metadata.value, direct, result);
  }

  lemma NothingWaits(dependents: map<Crate, set<Crate>>, changed: set<Crate>, result: set<Crate>)
    requires Working(dependents, changed, result, [])
    ensures LeastClosed(dependents, changed, result) && Closed(dependents, result)
  {
    forall c, d | c in result && Depends(dependents, c, d) ensures d in result {
      assert d in DirectDependents(dependents, c);
    }
  }

  /** A workspace package that names a selected workspace crate as a dependency is selected. */
  ghost predicate ClosedOver(packages: seq<Package>, crates: set<Crate>) {
    forall i, j, k ::
      && 0 <= i < |packages| && 0 <= j < |packages| && 0 <= k < |packages[i].dependencies|
      && packages[i].dependencies[k] == Some(packages[j].name) && packages[j].name in crates ==>
        packages[i].name in crates
  }

  lemma ClosedMeansOver(packages: seq<Package>, dependents: map<Crate, set<Crate>>, crates: set<Crate>)
    requires Dependents(packages, dependents) && Closed(dependents, crates)
    ensures ClosedOver(packages, crates)
  {
    forall i, j, k |
      && 0 <= i < |packages| && 0 <= j < |packages| && 0 <= k < |packages[i].dependencies|
      && packages[i].dependencies[k] == Some(packages[j].name) && packages[j].name in crates
      ensures packages[i].name in crates
    {
      assert DependsOn(packages[i], packages[j].name);
      assert Depends(dependents, packages[j].name, packages[i].name);
    }
  }

  lemma LessLeft(all: set<Crate>, before: set<Crate>, after: set<Crate>)
    requires before <= after <= all
    ensures |all - after| <= |all - before|
    ensures before != after ==> |all - after| < |all - before|
  {
    assert all - before == (all - after) + (after - before);
  }

  // ---------------------------------------------------------------------------------------------
  // Owners
  // ---------------------------------------------------------------------------------------------

  const CODEX_RS: string := "codex-rs"

  /** Directories with a manifest that names a package. */
  type Manifests = map<Path, Crate>

  /** The directory is the workspace or lies under it. */
  predicate UnderWorkspace(dir: Path) {
    dir != [] && dir[0] == CODEX_RS
  }

  /** The crate of the innermost directory above the file that has one: k components deep. */
  ghost predicate OwnedAt(file: Path, manifests: Manifests, k: nat) {
    && 0 < k < |file| && file[0] == "codex-rs" && file[..k] in manifests
    && forall m :: k < m < |file| ==> file[..m] !in manifests
  }

  /** The nearest owning crate, if there is one. */
  ghost predicate Owner(file: Path, manifests: Manifests, crate: Option<Crate>) {
    if crate.Some? then exists k: nat :: OwnedAt(file, manifests, k) && manifests[file[..k]] == crate.value
    else file == [] || file[0] != "codex-rs" || forall m :: 0 < m < |file| ==> file[..m] !in manifests
  }

  lemma OwnerIsUnique(file: Path, manifests: Manifests, a: Option<Crate>, b: Option<Crate>)
    requires Owner(file, manifests, a) && Owner(file, manifests, b)
    ensures a == b
  {
    if a.Some? && b.Some? {
      var j: nat :| OwnedAt(file, manifests, j) && manifests[file[..j]] == a.value;
      var k: nat :| OwnedAt(file, manifests, k) && manifests[file[..k]] == b.value;
      assert j == k;
    }
  }

  function Parent(dir: Path): Path {
    if dir == [] then [] else dir[..|dir| - 1]
  }

  /** Walks up from the file until a manifest names a package or the workspace ends. */
  method OwningCrate(file: Path, manifests: Manifests) returns (crate: Option<Crate>)
    ensures Owner(file, manifests, crate)
  {
    var dir := Parent(file);
    while true
      invariant dir == file[..|dir|] && (file == [] || |dir| < |file|)
      invariant forall m :: |dir| < m < |file| ==> file[..m] !in manifests
      decreases |dir|
    {
      if !UnderWorkspace(dir) {
        assert dir == [] || file[0] != CODEX_RS;
        return None;
      }
      if dir in manifests {
        assert OwnedAt(file, manifests, |dir|);
        return Some(manifests[dir]);
      }
      if dir == [CODEX_RS] {
        return None;
      }
      assert Parent(dir) == file[..|dir| - 1];
      dir := Parent(dir);
    }
  }

  // ---------------------------------------------------------------------------------------------
  // Classification
  // ---------------------------------------------------------------------------------------------

  const WORKSPACE_ROOT_FILES: set<Path> := {
    ["Cargo.toml"], ["Cargo.lock"], [".config", "nextest.toml"], [".cargo", "config.toml"], ["rust-toolchain.toml"],
    ["deny.toml"], ["clippy.toml"], ["rustfmt.toml"]}

  predicate InWorkspace(file: Path) {
    |file| > 1 && file[0] == CODEX_RS
  }

  predicate RootFile(file: Path) {
    InWorkspace(file) && file[1..] in WORKSPACE_ROOT_FILES
  }

  /** The files that concern the whole workspace. */
  lemma RootFilesExactly(file: Path)
    ensures RootFile(file) <==>
      || file == ["codex-rs", "Cargo.toml"] || file == ["codex-rs", "Cargo.lock"]
      || file == ["codex-rs", ".config", "nextest.toml"] || file == ["codex-rs", ".cargo", "config.toml"]
      || file == ["codex-rs", "rust-toolchain.toml"] || file == ["codex-rs", "deny.toml"]
      || file == ["codex-rs", "clippy.toml"] || file == ["codex-rs", "rustfmt.toml"]
  {
    if |file| > 0 {
      assert file == [file[0]] + file[1..];
    }
    if RootFile(file) {
      assert file == ["codex-rs"] + file[1..];
    }
  }

  /** The file is attributed to the crate. */
  ghost predicate Attributed(file: Path, manifests: Manifests, crate: Crate) {
    InWorkspace(file) && !RootFile(file) && Owner(file, manifests, Some(crate))
  }

  /** The file forces the whole workspace. */
  ghost predicate Escalates(file: Path, manifests: Manifests) {
    RootFile(file) || (InWorkspace(file) && Owner(file, manifests, None))
  }

  /** The crates are exactly the owners of changed files, and the workspace is needed exactly when a file escalates. */
  ghost predicate Classified(files: seq<Path>, manifests: Manifests, crates: set<Crate>,
                             needsFull: bool, reasons: seq<Path>) {
    && (forall c :: c in crates <==> exists i :: 0 <= i < |files| && Attributed(files[i], manifests, c))
    && (forall f :: f in reasons <==> f in files && Escalates(f, manifests))
    && (needsFull <==> reasons != [])
  }

  method Classify(files: seq<Path>, manifests: Manifests)
    returns (crates: set<Crate>, needsFull: bool, reasons: seq<Path>)
    ensures Classified(files, manifests, crates, needsFull, reasons)
  {
    crates, needsFull, reasons := {}, false, [];
    var i := 0;
    while i < |files|
      invariant 0 <= i <= |files| && Classified(files[..i], manifests, crates, needsFull, reasons)
    {
      var f := files[i];
      assert files[..i + 1] == files[..i] + [f];
      ghost var crates0, full0, reasons0 := crates, needsFull, reasons;
      ghost var owner: Option<Crate> := None;
      if InWorkspace(f) {
        if RootFile(f) {
          needsFull := true;
          reasons := reasons + [f];
        } else {
          var crate := OwningCrate(f, manifests);
          owner := crate;
          if crate.Some? {
            crates := crates + {crate.value};
          } else {
            needsFull := true;
            reasons := reasons + [f];
          }
        }
      }
      ClassifiedOneMore(files[..i], f, manifests, crates0, full0, reasons0, crates, needsFull, reasons, owner);
      i := i + 1;
    }
    assert files[..i] == files;
  }

  lemma ClassifiedOneMore(files: seq<Path>, f: Path, manifests: Manifests,
                          crates: set<Crate>, full: bool, reasons: seq<Path>,
                          crates': set<Crate>, full': bool, reasons': seq<Path>, owner: Option<Crate>)
    requires Classified(files, manifests, crates, full, reasons)
    requires InWorkspace(f) && !RootFile(f) ==> Owner(f, manifests, owner)
    requires
      if InWorkspace(f) && !RootFile(f) && owner.Some?
        then crates' == crates + {owner.value} && full' == full && reasons' == reasons
      else if InWorkspace(f) then crates' == crates && full' && reasons' == reasons + [f]
      else crates' == crates && full' == full && reasons' == reasons
    ensures Classified(files + [f], manifests, crates', full', reasons')
  {
    hide Owner;
    var more := files + [f];
    forall c: Crate ensures Attributed(f, manifests, c) <==> InWorkspace(f) && !RootFile(f) && owner == Some(c) {
      if Attributed(f, manifests, c) {
        OwnerIsUnique(f, manifests, owner, Some(c));
      }
    }
    assert Escalates(f, manifests) <==> RootFile(f) || (InWorkspace(f) && owner.None?) by {
      if Escalates(f, manifests) && !RootFile(f) {
        OwnerIsUnique(f, manifests, owner, None);
      }
    }
    hide Attributed, Escalates, RootFile;
    forall c: Crate
      ensures (exists i :: 0 <= i < |more| && Attributed(more[i], manifests, c)) <==>
        Attributed(f, manifests, c) || exists i :: 0 <= i < |files| && Attributed(files[i], manifests, c)
    {
      assert more[|files|] == f;
      if exists i :: 0 <= i < |files| && Attributed(files[i], manifests, c) {
        var i :| 0 <= i < |files| && Attributed(files[i], manifests, c);
        assert more[i] == files[i];
      }
    }
  }

  // ---------------------------------------------------------------------------------------------
  // Selection
  // ---------------------------------------------------------------------------------------------

  datatype Tier = Fmt | Check | Test | Full

  datatype Scope = Formatting | WholeWorkspace | Crates(crates: set<Crate>)

  /** What a run covers: the nearest owner of every changed workspace file is selected, or the whole workspace is;
      the whole workspace exactly when it is asked for, the base is unknown, a file escalates, or no crate changed;
      and otherwise nothing but the owners, with their transitive dependents when these are asked for. */
  method SelectScope(tier: Tier, rdeps: bool, files: seq<Path>, baseMissing: bool, manifests: Manifests,
                     metadata: Option<seq<Package>>)
    returns (scope: Scope, ghost owners: set<Crate>, ghost dependents: map<Crate, set<Crate>>)
    ensures scope.Formatting? <==> tier == Fmt
    ensures forall c :: c in owners <==> exists i :: 0 <= i < |files| && Attributed(files[i], manifests, c)
    ensures scope.WholeWorkspace? <==>
      && tier != Fmt
      && (tier == Full || baseMissing || (exists i :: 0 <= i < |files| && Escalates(files[i], manifests))
          || owners == {})
    ensures scope.Crates? ==>
      if rdeps && metadata.Some? then
        Dependents(metadata.value, dependents) && LeastClosed(dependents, owners, scope.crates)
      else scope.crates == owners
    ensures scope.Crates? ==>
      forall i :: 0 <= i < |files| && InWorkspace(files[i]) ==>
        exists c :: Owner(files[i], manifests, Some(c)) && c in scope.crates
  {
    hide Owner, Attributed, Escalates, Dependents, Closed, InWorkspace;
    var crates, needsFull, reasons := Classify(files, manifests);
    owners, dependents := crates, map[];
    NeedsFullExactly(files, manifests, crates, needsFull, reasons);
    var forceFull := tier == Full || needsFull || baseMissing;
    if tier == Fmt {
      scope := Formatting;
    } else if forceFull || crates == {} {
      scope := WholeWorkspace;
    } else {
      var target := crates;
      if rdeps {
        ghost var pushed;
        target, dependents, pushed := WorkspaceRdeps(crates, metadata);
      }
      scope := Crates(target);
      OwnersSelected(files, manifests, crates, target);
    }
  }

  lemma NeedsFullExactly(files: seq<Path>, manifests: Manifests, crates: set<Crate>,
                         needsFull: bool, reasons: seq<Path>)
    requires Classified(files, manifests, crates, needsFull, reasons)
    ensures needsFull <==> exists i :: 0 <= i < |files| && Escalates(files[i], manifests)
  {
    hide Escalates;
    if needsFull {
      assert reasons[0] in reasons;
    }
  }

  /** A file that does not escalate has its owner among the crates. */
  lemma OwnersSelected(files: seq<Path>, manifests: Manifests, crates: set<Crate>, target: set<Crate>)
    requires forall c :: c in crates <==> exists i :: 0 <= i < |files| && Attributed(files[i], manifests, c)
    requires forall i :: 0 <= i < |files| ==> !Escalates(files[i], manifests)
    requires crates <= target
    ensures forall i :: 0 <= i < |files| && InWorkspace(files[i]) ==>
      exists c :: Owner(files[i], manifests, Some(c)) && c in target
  {
    forall i | 0 <= i < |files| && InWorkspace(files[i])
      ensures exists c :: Owner(files[i], manifests, Some(c)) && c in target
    {
      assert !Escalates(files[i], manifests);
      var c := SomeOwner(files[i], manifests);
      assert Attributed(files[i], manifests, c);
    }
  }

  lemma SomeOwner(file: Path, manifests: Manifests) returns (crate: Crate)
    requires InWorkspace(file) && !Owner(file, manifests, None)
    ensures Owner(file, manifests, Some(crate))
  {
    var m :| 0 < m < |file| && file[..m] in manifests;
    var k := Innermost(file, manifests, m);
    assert OwnedAt(file, manifests, k);
    crate := manifests[file[..k]];
  }

  lemma Innermost(file: Path, manifests: Manifests, m: nat) returns (k: nat)
    requires 0 < m < |file| && file[..m] in manifests
    ensures m <= k < |file| && file[..k] in manifests && forall n :: k < n < |file| ==> file[..n] !in manifests
    decreases |file| - m
  {
    if n :| m < n < |file| && file[..n] in manifests {
      k := Innermost(file, manifests, n);
    } else {
      k := m;
    }
  }
}
