/** The arguments of the argument-comment-lint wrapper: parsed once, completed with defaults, passed on. */
module WrapperArgs {

  /** What the lint arguments select. */
  datatype Flags = Flags(manifest: bool, package: bool, library: bool, noDeps: bool, fix: bool)

  datatype Parsed = Parsed(lintArgs: seq<string>, cargoArgs: seq<string>, flags: Flags, targetSelection: bool)

  const NO_FLAGS: Flags := Flags(false, false, false, false, false)

  // ---------------------------------------------------------------------------------------------
  // The grammar of the arguments
  // ---------------------------------------------------------------------------------------------

  /** The lint arguments: all before the first separator. */
  function Lint(argv: seq<string>): seq<string> {
    if argv == [] || argv[0] == "--" then [] else [argv[0]] + Lint(argv[1..])
  }

  /** The cargo arguments: all after it. */
  function Cargo(argv: seq<string>): seq<string> {
    if argv == [] then [] else if argv[0] == "--" then argv[1..] else Cargo(argv[1..])
  }

  function Either(a: Flags, b: Flags): Flags {
    Flags(a.manifest || b.manifest, a.package || b.package, a.library || b.library,
          a.noDeps || b.noDeps, a.fix || b.fix)
  }

  /** An option whose value is the argument after it. */
  predicate TakesValue(arg: string) {
    arg in ["--manifest-path", "-p", "--package", "--lib", "--lib-path"]
  }

  /** What such an option selects once it has its value. */
  function WithValue(arg: string): Flags {
    if arg == "--manifest-path" then NO_FLAGS.(manifest := true)
    else if arg == "-p" || arg == "--package" then NO_FLAGS.(package := true)
    else if arg == "--lib" || arg == "--lib-path" then NO_FLAGS.(library := true)
    else NO_FLAGS
  }

  /** What an argument selects by itself. */
  function Alone(arg: string): Flags {
    Flags("--manifest-path=" <= arg, "--package=" <= arg || arg == "--workspace",
          "--lib=" <= arg || "--lib-path=" <= arg,
          arg == "--no-deps", arg == "--fix")
  }

  /** What the lint arguments select, option by option; a last option without its value selects nothing. */
  function Selected(args: seq<string>): Flags {
    if args == [] then NO_FLAGS
    else if TakesValue(args[0]) then
      if |args| == 1 then NO_FLAGS else Either(WithValue(args[0]), Selected(args[2..]))
    else Either(Alone(args[0]), Selected(args[1..]))
  }

  predicate SelectsTarget(arg: string) {
    || arg in ["--all-targets", "--lib", "--bins", "--tests", "--examples", "--benches", "--doc"]
    || arg in ["--bin", "--test", "--example", "--bench"]
    || "--bin=" <= arg || "--test=" <= arg || "--example=" <= arg || "--bench=" <= arg
  }

  predicate AnySelectsTarget(args: seq<string>) {
    exists i :: 0 <= i < |args| && SelectsTarget(args[i])
  }

  function Parse(argv: seq<string>): Parsed {
    Parsed(Lint(argv), Cargo(argv), Selected(Lint(argv)), AnySelectsTarget(Cargo(argv)))
  }

  // ---------------------------------------------------------------------------------------------
  // The parser loop
  // ---------------------------------------------------------------------------------------------

  datatype Expected = Nothing | ManifestPath | PackageSelection | LibrarySelection

  function Expects(arg: string): Expected {
    if arg == "--manifest-path" then ManifestPath
    else if arg == "-p" || arg == "--package" then PackageSelection
    else if arg == "--lib" || arg == "--lib-path" then LibrarySelection
    else Nothing
  }

  function Granted(e: Expected): Flags {
    match e
    case Nothing => NO_FLAGS
    case ManifestPath => NO_FLAGS.(manifest := true)
    case PackageSelection => NO_FLAGS.(package := true)
    case LibrarySelection => NO_FLAGS.(library := true)
  }

  /** What the rest of the lint arguments still selects. */
  function StillSelects(e: Expected, rest: seq<string>): Flags {
    if e == Nothing then Selected(rest)
    else if rest == [] then NO_FLAGS
    else Either(Granted(e), Selected(rest[1..]))
  }

  lemma ExpectsIsTakesValue(arg: string)
    ensures TakesValue(arg) <==> Expects(arg) != Nothing
    ensures TakesValue(arg) ==> WithValue(arg) == Granted(Expects(arg))
  {
  }

  /** One argument of the loop before the separator. */
  lemma LintStep(e: Expected, rest: seq<string>)
    requires rest != []
    ensures StillSelects(e, rest) ==
      if e != Nothing then Either(Granted(e), StillSelects(Nothing, rest[1..]))
      else if TakesValue(rest[0]) then StillSelects(Expects(rest[0]), rest[1..])
      else Either(Alone(rest[0]), StillSelects(Nothing, rest[1..]))
  {
    ExpectsIsTakesValue(rest[0]);
    if TakesValue(rest[0]) && |rest| > 1 {
      assert rest[1..][1..] == rest[2..];
    }
  }

  /** At most one kind of selection starts an argument. */
  lemma AloneOneKind(arg: string)
    ensures "--manifest-path=" <= arg ==> Alone(arg) == NO_FLAGS.(manifest := true) && !TakesValue(arg)
    ensures "--package=" <= arg ==> Alone(arg) == NO_FLAGS.(package := true) && !TakesValue(arg)
    ensures "--lib=" <= arg || "--lib-path=" <= arg ==> Alone(arg) == NO_FLAGS.(library := true) && !TakesValue(arg)
  {
    if "--manifest-path=" <= arg {
      assert arg[2] == 'm' && |arg| > 15 && arg[15] == '=';
    }
    if "--package=" <= arg {
      assert arg[2] == 'p' && |arg| > 9 && arg[9] == '=';
    }
    if "--lib=" <= arg {
      assert arg[2] == 'l' && |arg| > 5 && arg[5] == '=';
    }
    if "--lib-path=" <= arg {
      assert arg[2] == 'l' && |arg| > 10 && arg[10] == '=';
    }
  }

  /** What one lint argument does: the flags it sets now and the value it waits for. */
  predicate Took(flags: Flags, expected: Expected, arg: string, flags': Flags, expected': Expected) {
    if expected != Nothing then flags' == Either(flags, Granted(expected)) && expected' == Nothing
    else if TakesValue(arg) then flags' == flags && expected' == Expects(arg)
    else flags' == Either(flags, Alone(arg)) && expected' == Nothing
  }

  method TakeLintArg(flags: Flags, expected: Expected, arg: string) returns (flags': Flags, expected': Expected)
    ensures Took(flags, expected, arg, flags', expected')
  {
    flags', expected' := flags, Nothing;
    if expected != Nothing {
      if expected == ManifestPath {
        flags' := flags'.(manifest := true);
      } else if expected == PackageSelection {
        flags' := flags'.(package := true);
      } else if expected == LibrarySelection {
        flags' := flags'.(library := true);
      }
      return;
    }
    AloneOneKind(arg);
    if arg == "--manifest-path" {
      expected' := ManifestPath;
    } else if "--manifest-path=" <= arg {
      flags' := flags'.(manifest := true);
    } else if arg == "-p" || arg == "--package" {
      expected' := PackageSelection;
    } else if "--package=" <= arg {
      flags' := flags'.(package := true);
    } else if arg == "--fix" {
      flags' := flags'.(fix := true);
    } else if arg == "--workspace" {
      flags' := flags'.(package := true);
    } else if arg == "--no-deps" {
      flags' := flags'.(noDeps := true);
    } else if arg == "--lib" || arg == "--lib-path" {
      expected' := LibrarySelection;
    } else if "--lib=" <= arg || "--lib-path=" <= arg {
      flags' := flags'.(library := true);
    }
  }

  /** Before the separator: what was read and what is left make up the whole. */
  ghost predicate Reading(argv: seq<string>, i: nat, lintArgs: seq<string>, flags: Flags, expected: Expected) {
    && i <= |argv|
    && lintArgs + Lint(argv[i..]) == Lint(argv)
    && Cargo(argv[i..]) == Cargo(argv)
    && Either(flags, StillSelects(expected, Lint(argv[i..]))) == Selected(Lint(argv))
  }

  lemma ReadOne(argv: seq<string>, i: nat, lintArgs: seq<string>, flags: Flags, expected: Expected,
                flags': Flags, expected': Expected)
    requires i < |argv| && argv[i] != "--" && Reading(argv, i, lintArgs, flags, expected)
    requires Took(flags, expected, argv[i], flags', expected')
    ensures Reading(argv, i + 1, lintArgs + [argv[i]], flags', expected')
  {
    var rest, next := argv[i..], argv[i + 1..];
    assert rest[1..] == next && rest[0] == argv[i];
    assert Lint(rest) == [argv[i]] + Lint(next) && Cargo(rest) == Cargo(next);
    hide Lint, Cargo, TakesValue, Alone, Expects, Selected;
    assert Lint(rest)[1..] == Lint(next);
    LintStep(expected, Lint(rest));
    assert (lintArgs + [argv[i]]) + Lint(next) == lintArgs + Lint(rest);
  }

  lemma ReadingOver(argv: seq<string>, i: nat, lintArgs: seq<string>, flags: Flags, expected: Expected)
    requires Reading(argv, i, lintArgs, flags, expected)
    requires i == |argv| || argv[i] == "--"
    ensures lintArgs == Lint(argv) && flags == Selected(Lint(argv))
    ensures Cargo(argv) == if i == |argv| then [] else argv[i + 1..]
  {
    assert i < |argv| ==> argv[i..][0] == "--" && argv[i..][1..] == argv[i + 1..];
    assert Lint(argv[i..]) == [];
  }

  /** The loop computes what the grammar says. */
  method ParseWrapperArgs(argv: seq<string>) returns (parsed: Parsed)
    ensures parsed == Parse(argv)
  {
    var lintArgs: seq<string>, cargoArgs: seq<string> := [], [];
    var flags, target := NO_FLAGS, false;
    var afterSeparator, expected := false, Nothing;
    var i := 0;
    assert argv[0..] == argv;
    assert Reading(argv, i, lintArgs, flags, expected);
    assert !AnySelectsTarget(cargoArgs);
    hide SelectsTarget, AnySelectsTarget, Reading, Took, Lint, Cargo, Selected;
    while i < |argv|
      invariant 0 <= i <= |argv|
      invariant !afterSeparator ==> Reading(argv, i, lintArgs, flags, expected) && cargoArgs == []
      invariant afterSeparator ==>
        lintArgs == Lint(argv) && flags == Selected(Lint(argv)) && cargoArgs + argv[i..] == Cargo(argv)
      invariant target == AnySelectsTarget(cargoArgs)
    {
      var arg := argv[i];
      if afterSeparator {
        ghost var before := cargoArgs;
        cargoArgs := cargoArgs + [arg];
        SelectsOneMore(before, arg);
        if SelectsTarget(arg) {
          target := true;
        }
        assert before + argv[i..] == cargoArgs + argv[i + 1..];
      } else if arg == "--" {
        ReadingOver(argv, i, lintArgs, flags, expected);
        afterSeparator := true;
      } else {
        var flags', expected' := TakeLintArg(flags, expected, arg);
        ReadOne(argv, i, lintArgs, flags, expected, flags', expected');
        lintArgs := lintArgs + [arg];
        flags, expected := flags', expected';
      }
      i := i + 1;
    }
    if !afterSeparator {
      ReadingOver(argv, i, lintArgs, flags, expected);
    }
    assert cargoArgs == Cargo(argv);
    parsed := Parsed(lintArgs, cargoArgs, flags, target);
  }

  lemma SelectsOneMore(args: seq<string>, arg: string)
    ensures AnySelectsTarget(args + [arg]) == (SelectsTarget(arg) || AnySelectsTarget(args))
  {
    hide SelectsTarget;
    var more := args + [arg];
    assert more[|args|] == arg;
    assert forall k :: 0 <= k < |args| ==> more[k] == args[k];
    if AnySelectsTarget(args) {
      var k :| 0 <= k < |args| && SelectsTarget(args[k]);
      assert SelectsTarget(more[k]);
    }
  }

  // ---------------------------------------------------------------------------------------------
  // Completing the arguments
  // ---------------------------------------------------------------------------------------------

  /** The defaults put in front of the lint arguments. */
  function Defaults(flags: Flags, manifest: string): seq<string> {
    (if flags.manifest then [] else ["--manifest-path", manifest]) +
    (if flags.package || flags.manifest then [] else ["--workspace"]) +
    (if flags.noDeps then [] else ["--no-deps"])
  }

  /** The cargo arguments with the default target selection. */
  function WithTargets(parsed: Parsed): seq<string> {
    if parsed.flags.fix || parsed.targetSelection then parsed.cargoArgs else parsed.cargoArgs + ["--all-targets"]
  }

  function Separated(cargoArgs: seq<string>): seq<string> {
    if cargoArgs == [] then [] else ["--"] + cargoArgs
  }

  function Build(parsed: Parsed, manifest: string): seq<string> {
    Defaults(parsed.flags, manifest) + parsed.lintArgs + Separated(WithTargets(parsed))
  }

  method BuildFinalArgs(parsed: Parsed, manifest: string) returns (final: seq<string>)
    ensures final == Build(parsed, manifest)
  {
    final := [];
    var cargoArgs := parsed.cargoArgs;
    if !parsed.flags.manifest {
      final := final + ["--manifest-path", manifest];
    }
    if !parsed.flags.package && !parsed.flags.manifest {
      final := final + ["--workspace"];
    }
    if !parsed.flags.noDeps {
      final := final + ["--no-deps"];
    }
    assert final == Defaults(parsed.flags, manifest);
    hide Defaults;
    if !parsed.flags.fix && !parsed.targetSelection {
      cargoArgs := cargoArgs + ["--all-targets"];
    }
    final := final + parsed.lintArgs;
    if cargoArgs != [] {
      final := final + (["--"] + cargoArgs);
    }
  }

  // ---------------------------------------------------------------------------------------------
  // Parsing what was built
  // ---------------------------------------------------------------------------------------------

  /** Splitting at the first separator. */
  lemma {:induction false} SplitAt(front: seq<string>, cargoArgs: seq<string>)
    requires "--" !in front
    ensures Lint(front + (["--"] + cargoArgs)) == front && Cargo(front + (["--"] + cargoArgs)) == cargoArgs
    decreases |front|
  {
    var all := front + (["--"] + cargoArgs);
    if front != [] {
      SplitAt(front[1..], cargoArgs);
      assert all[1..] == front[1..] + (["--"] + cargoArgs);
    } else {
      assert all[0] == "--" && all[1..] == cargoArgs;
    }
  }

  /** Without a separator there is nothing to split. */
  lemma {:induction false} NothingToSplit(front: seq<string>)
    requires "--" !in front
    ensures Lint(front) == front && Cargo(front) == []
  {
    if front != [] {
      NothingToSplit(front[1..]);
    }
  }

  lemma {:induction false} NoSeparatorInLint(argv: seq<string>)
    ensures "--" !in Lint(argv)
  {
    if argv != [] && argv[0] != "--" {
      NoSeparatorInLint(argv[1..]);
    }
  }

  lemma NoSeparatorInDefaults(flags: Flags, manifest: string)
    requires manifest != "--" || flags.manifest
    ensures "--" !in Defaults(flags, manifest)
  {
    assert |"--manifest-path"| > 2 && |"--workspace"| > 2 && |"--no-deps"| > 2;
  }

  lemma SplitFront(front: seq<string>, cargoArgs: seq<string>)
    requires "--" !in front
    ensures Lint(front + Separated(cargoArgs)) == front && Cargo(front + Separated(cargoArgs)) == cargoArgs
  {
    hide Lint, Cargo;
    if cargoArgs == [] {
      NothingToSplit(front);
      assert front + [] == front;
    } else {
      SplitAt(front, cargoArgs);
    }
  }

  /** The defaults are complete options: they select what they stand for and leave the rest alone. */
  lemma DefaultsSelect(flags: Flags, manifest: string, args: seq<string>)
    ensures Selected(Defaults(flags, manifest) + args) ==
      Either(Flags(!flags.manifest, !flags.package && !flags.manifest, false, !flags.noDeps, false), Selected(args))
  {
    hide Selected;
    var a := if flags.noDeps then args else ["--no-deps"] + args;
    SelectNoDeps(args);
    var b := if flags.package || flags.manifest then a else ["--workspace"] + a;
    SelectWorkspace(a);
    var c := if flags.manifest then b else ["--manifest-path", manifest] + b;
    SelectManifest(manifest, b);
    assert Defaults(flags, manifest) + args == c;
  }

  lemma NotPrefix(p: string, arg: string, k: nat)
    requires k < |p| && k < |arg| && p[k] != arg[k]
    ensures !(p <= arg)
  {
  }

  /** The default switches are options of their own. */
  lemma Switches(arg: string)
    requires arg == "--no-deps" || arg == "--workspace"
    ensures !TakesValue(arg)
    ensures Alone(arg) == if arg == "--workspace" then NO_FLAGS.(package := true) else NO_FLAGS.(noDeps := true)
  {
    assert arg[2] == 'n' || arg[2] == 'w';
    NotPrefix("--manifest-path=", arg, 2);
    NotPrefix("--package=", arg, 2);
    NotPrefix("--lib=", arg, 2);
    NotPrefix("--lib-path=", arg, 2);
  }

  lemma SelectNoDeps(args: seq<string>)
    ensures Selected(["--no-deps"] + args) == Either(NO_FLAGS.(noDeps := true), Selected(args))
  {
    Switches("--no-deps");
    hide Alone, TakesValue;
    assert (["--no-deps"] + args)[1..] == args;
  }

  lemma SelectWorkspace(args: seq<string>)
    ensures Selected(["--workspace"] + args) == Either(NO_FLAGS.(package := true), Selected(args))
  {
    Switches("--workspace");
    hide Alone, TakesValue;
    assert (["--workspace"] + args)[1..] == args;
  }

  lemma SelectManifest(manifest: string, args: seq<string>)
    ensures Selected(["--manifest-path", manifest] + args) == Either(NO_FLAGS.(manifest := true), Selected(args))
  {
    assert (["--manifest-path", manifest] + args)[2..] == args;
  }

  /** The condition under which the built arguments read back: no manifest path that looks like a separator
      is put in. */
  predicate Readable(argv: seq<string>, manifest: string) {
    manifest != "--" || Parse(argv).flags.manifest
  }

  /** Read back, the built arguments are the user's lint arguments after the defaults, and the user's cargo
      arguments before the default target selection. */
  lemma ArgsSurvive(argv: seq<string>, manifest: string)
    requires Readable(argv, manifest)
    ensures var p := Parse(argv); var again := Parse(Build(p, manifest));
      && again.lintArgs == Defaults(p.flags, manifest) + Lint(argv)
      && again.cargoArgs == WithTargets(p)
      && (again.cargoArgs == Cargo(argv) || again.cargoArgs == Cargo(argv) + ["--all-targets"])
      && again.flags ==
         Either(Flags(!p.flags.manifest, !p.flags.package && !p.flags.manifest, false, !p.flags.noDeps, false), p.flags)
  {
    hide Selected, SelectsTarget, Lint, Cargo, Separated;
    var p := Parse(argv);
    NoSeparatorInLint(argv);
    NoSeparatorInDefaults(p.flags, manifest);
    var front := Defaults(p.flags, manifest) + p.lintArgs;
    DefaultsSelect(p.flags, manifest, p.lintArgs);
    hide Defaults;
    SplitFront(front, WithTargets(p));
    assert Build(p, manifest) == front + Separated(WithTargets(p));
  }

  lemma TargetsSettled(argv: seq<string>, manifest: string)
    requires Readable(argv, manifest)
    ensures var again := Parse(Build(Parse(argv), manifest)); again.flags.fix || again.targetSelection
  {
    hide Selected, Build, Defaults;
    ArgsSurvive(argv, manifest);
    var p := Parse(argv);
    var again := Parse(Build(p, manifest));
    if p.targetSelection {
      var i :| 0 <= i < |Cargo(argv)| && SelectsTarget(Cargo(argv)[i]);
      assert again.cargoArgs[i] == Cargo(argv)[i];
    } else if !p.flags.fix {
      assert SelectsTarget(again.cargoArgs[|Cargo(argv)|]);
    }
  }

  /** Completing the arguments twice is completing them once, exactly under that condition. */
  lemma BuildIdempotent(argv: seq<string>, manifest: string)
    ensures Build(Parse(Build(Parse(argv), manifest)), manifest) == Build(Parse(argv), manifest)
      <==> Readable(argv, manifest)
  {
    if Readable(argv, manifest) {
      BuildAgain(argv, manifest);
    } else {
      SeparatorGrows(argv);
    }
  }

  lemma BuildAgain(argv: seq<string>, manifest: string)
    requires Readable(argv, manifest)
    ensures Build(Parse(Build(Parse(argv), manifest)), manifest) == Build(Parse(argv), manifest)
  {
    hide Selected, Parse, Lint, Cargo;
    ArgsSurvive(argv, manifest);
    TargetsSettled(argv, manifest);
    ParsedParts(argv);
    var p := Parse(argv);
    var again := Parse(Build(p, manifest));
    assert Defaults(again.flags, manifest) == [];
    assert WithTargets(again) == again.cargoArgs;
    hide Defaults, WithTargets, Separated;
    assert Build(again, manifest) == [] + again.lintArgs + Separated(again.cargoArgs);
    assert [] + again.lintArgs == again.lintArgs;
  }

  lemma ParsedParts(argv: seq<string>)
    ensures Parse(argv).lintArgs == Lint(argv) && Parse(argv).cargoArgs == Cargo(argv)
  {
  }

  /** A manifest path "--" that is put in ends the lint arguments, so each round puts in more. */
  lemma SeparatorGrows(argv: seq<string>)
    requires !Parse(argv).flags.manifest
    ensures !Parse(Build(Parse(argv), "--")).flags.manifest
    ensures |Build(Parse(Build(Parse(argv), "--")), "--")| > |Build(Parse(argv), "--")|
  {
    hide Parse;
    var p := Parse(argv);
    var rest := Build(p, "--")[2..];
    assert Build(p, "--") == ["--manifest-path", "--"] + rest;
    hide Build, Defaults, WithTargets, Separated;
    ReadsBackShort(rest);
    GrowsFrom(Parse(["--manifest-path", "--"] + rest), rest);
  }

  lemma ReadsBackShort(rest: seq<string>)
    ensures var again := Parse(["--manifest-path", "--"] + rest);
      again.lintArgs == ["--manifest-path"] && again.cargoArgs == rest && again.flags == NO_FLAGS
  {
    SplitAt(["--manifest-path"], rest);
    hide Lint, Cargo;
    assert ["--manifest-path", "--"] + rest == ["--manifest-path"] + (["--"] + rest);
  }

  lemma GrowsFrom(again: Parsed, rest: seq<string>)
    requires again.lintArgs == ["--manifest-path"] && again.cargoArgs == rest && again.flags == NO_FLAGS
    ensures |Build(again, "--")| > 2 + |rest|
  {
    assert |Defaults(again.flags, "--")| == 4;
    hide Defaults;
    assert |Separated(WithTargets(again))| >= |rest|;
  }

  /** The arguments after n rounds of completing them. */
  function Rounds(argv: seq<string>, manifest: string, n: nat): seq<string> {
    if n == 0 then argv else Build(Parse(Rounds(argv, manifest, n - 1)), manifest)
  }

  /** Then every round after the first makes the list longer. */
  lemma {:induction false} EveryRoundGrows(argv: seq<string>, n: nat)
    requires !Parse(argv).flags.manifest
    ensures !Parse(Rounds(argv, "--", n)).flags.manifest
    ensures n > 0 ==> |Rounds(argv, "--", n + 1)| > |Rounds(argv, "--", n)|
  {
    hide Parse, Build;
    if n > 0 {
      EveryRoundGrows(argv, n - 1);
      SeparatorGrows(Rounds(argv, "--", n - 1));
    }
  }

  // ---------------------------------------------------------------------------------------------
  // The options by name
  // ---------------------------------------------------------------------------------------------

  /** An option with its value, before anything else: which selection each name makes. */
  lemma ValueOptions(value: string, rest: seq<string>)
    ensures Selected(["--manifest-path", value] + rest) == Selected(rest).(manifest := true)
    ensures Selected(["-p", value] + rest) == Selected(rest).(package := true)
    ensures Selected(["--package", value] + rest) == Selected(rest).(package := true)
    ensures Selected(["--lib", value] + rest) == Selected(rest).(library := true)
    ensures Selected(["--lib-path", value] + rest) == Selected(rest).(library := true)
  {
    ValueOption("--manifest-path", value, rest);
    ValueOption("-p", value, rest);
    ValueOption("--package", value, rest);
    ValueOption("--lib", value, rest);
    ValueOption("--lib-path", value, rest);
  }

  lemma ValueOption(option: string, value: string, rest: seq<string>)
    requires TakesValue(option)
    ensures Selected([option, value] + rest) == Either(WithValue(option), Selected(rest))
  {
    hide WithValue;
    var args := [option, value] + rest;
    assert args[0] == option && args[2..] == rest && |args| > 1;
  }

  /** Such an option at the end, without its value, selects nothing. */
  lemma DanglingOptions()
    ensures Selected(["--manifest-path"]) == NO_FLAGS && Selected(["-p"]) == NO_FLAGS
    ensures Selected(["--package"]) == NO_FLAGS
    ensures Selected(["--lib"]) == NO_FLAGS && Selected(["--lib-path"]) == NO_FLAGS
  {
  }

  /** Any other argument: which selection it makes by itself. */
  lemma OtherArguments(arg: string, rest: seq<string>)
    requires arg != "--manifest-path" && arg != "-p" && arg != "--package" && arg != "--lib" && arg != "--lib-path"
    ensures var here, later := Selected([arg] + rest), Selected(rest);
      && here.manifest == ("--manifest-path=" <= arg || later.manifest)
      && here.package == ("--package=" <= arg || arg == "--workspace" || later.package)
      && here.library == ("--lib=" <= arg || "--lib-path=" <= arg || later.library)
      && here.noDeps == (arg == "--no-deps" || later.noDeps)
      && here.fix == (arg == "--fix" || later.fix)
  {
    assert ([arg] + rest)[1..] == rest && ([arg] + rest)[0] == arg;
  }

  /** A cargo argument that selects targets. */
  ghost predicate NamesTarget(arg: string) {
    || arg == "--all-targets" || arg == "--lib" || arg == "--bins" || arg == "--tests" || arg == "--examples"
    || arg == "--benches" || arg == "--doc"
    || arg == "--bin" || arg == "--test" || arg == "--example" || arg == "--bench"
    || "--bin=" <= arg || "--test=" <= arg || "--example=" <= arg || "--bench=" <= arg
  }

  /** All targets are selected by default exactly if the user neither fixes nor names a target. */
  lemma AllTargetsExactly(argv: seq<string>)
    ensures WithTargets(Parse(argv)) ==
      if Parse(argv).flags.fix || exists i :: 0 <= i < |Cargo(argv)| && NamesTarget(Cargo(argv)[i]) then Cargo(argv)
      else Cargo(argv) + ["--all-targets"]
  {
    forall arg: string ensures SelectsTarget(arg) <==> NamesTarget(arg) {
      TargetNames(arg);
    }
    hide SelectsTarget, NamesTarget, Selected, Lint;
    var args := Cargo(argv);
    if exists i :: 0 <= i < |args| && NamesTarget(args[i]) {
      var i :| 0 <= i < |args| && NamesTarget(args[i]);
      assert SelectsTarget(args[i]);
    }
  }

  lemma TargetNames(arg: string)
    ensures SelectsTarget(arg) <==> NamesTarget(arg)
  {
  }
}
