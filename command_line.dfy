/** The `jsc` command line: `CommandLine::parseArguments` turns `argv` into an
    ordered list of scripts, the harness flags and the trailing script
    arguments, or ends the process with the usage statement. */
module CommandLineParser {
  import opened CStrings
  import opened Wrappers

  /** One script to run: a file name (`isFile`) or inline source text. */
  datatype Script = Script(isFile: bool, argument: Text)

  /** The members of `CommandLine`, as a value. */
  datatype Settings = Settings(
    interactive: bool,
    dump: bool,
    exitCode: bool,
    scripts: seq<Script>,
    arguments: seq<Text>,
    profile: bool,
    profilerOutput: Text)
  {
    function AddScript(s: Script): Settings { this.(scripts := scripts + [s]) }
  }

  /** What the `CommandLine` constructor sets before parsing. */
  const Defaults := Settings(false, false, false, [], [], false, [])

  /** The state of the flag loop: the members plus the locals
      `needToDumpOptions` and `needToExit`. */
  datatype Walk = Walk(settings: Settings, dumpOptions: bool, exitAfterDump: bool)

  /** How the flag loop ends: `printUsageStatement` (which exits), or the end
      of `argv`, or a `--` token, after which `trailing` is left over. */
  datatype ScanEnd =
    | UsageExit(help: bool)
    | Stopped(walk: Walk, trailing: seq<Text>, sawSeparator: bool)

  /** The result of `parseArguments`. `Usage` stands for the call of
      `printUsageStatement`, which never returns. */
  datatype ParseResult =
    | Usage(help: bool)
    | Parsed(settings: Settings, dumpOptions: bool, exitAfterDump: bool)

  /** What `parseArguments` tells its caller (the process exits in the first
      case; in the second it dumps the options and exits when asked to). */
  datatype ParseStatus =
    | PrintUsage(help: bool)
    | Proceed(dumpOptions: bool, exitAfterDump: bool)

  /** How one pass of the flag loop's body ends: `continue` at index
      `next`, `break` with the tokens from `next` on left over, or the usage
      statement (which exits). */
  datatype Pass = Continue(next: nat) | Break(next: nat) | Exit(help: bool)

  /** The tokens after the program name, from position `i` on. */
  function Rest(argv: seq<Text>, i: nat): seq<Text>
  {
    if i < |argv| then argv[i..] else []
  }

  /** The tokens the harness itself recognises, in the order of the
      `strcmp` tests of the flag loop. */
  datatype Flag =
    | FileFlag | EvalFlag | InteractiveFlag | DumpFlag | ProfileFlag | SignalFlag
    | ExitCodeFlag | SeparatorFlag | HelpFlag | OptionsFlag | DumpOptionsFlag
    | NotAFlag

  /** The `strcmp` chain, decided on the length and the characters of the
      token (`ClassifyIsStrcmpChain` shows it is the same test). */
  function Classify(t: Text): Flag
  {
    if |t| == 2 && t[0] == '-' then
      var c := t[1];
      if c == 'f' then FileFlag
      else if c == 'e' then EvalFlag
      else if c == 'i' then InteractiveFlag
      else if c == 'd' then DumpFlag
      else if c == 'p' then ProfileFlag
      else if c == 's' then SignalFlag
      else if c == 'x' then ExitCodeFlag
      else if c == '-' then SeparatorFlag
      else if c == 'h' then HelpFlag
      else NotAFlag
    else if |t| == 6 && t == "--help" then HelpFlag
    else if |t| == 9 && t == "--options" then OptionsFlag
    else if |t| == 13 && t == "--dumpOptions" then DumpOptionsFlag
    else NotAFlag
  }

  /** `Classify` names a flag exactly when the token equals that flag's
      spelling, as the `strcmp` tests of `parseArguments` decide. */
  lemma ClassifyIsStrcmpChain(t: Text)
    ensures Classify(t) == FileFlag <==> t == "-f"
    ensures Classify(t) == EvalFlag <==> t == "-e"
    ensures Classify(t) == InteractiveFlag <==> t == "-i"
    ensures Classify(t) == DumpFlag <==> t == "-d"
    ensures Classify(t) == ProfileFlag <==> t == "-p"
    ensures Classify(t) == SignalFlag <==> t == "-s"
    ensures Classify(t) == ExitCodeFlag <==> t == "-x"
    ensures Classify(t) == SeparatorFlag <==> t == "--"
    ensures Classify(t) == HelpFlag <==> t == "-h" || t == "--help"
    ensures Classify(t) == OptionsFlag <==> t == "--options"
    ensures Classify(t) == DumpOptionsFlag <==> t == "--dumpOptions"
  {
    if |t| == 2 && t[0] == '-' {
      assert t == ['-', t[1]];
    }
  }

  predicate IsHarnessFlag(t: Text)
  {
    Classify(t) != NotAFlag
  }

  /** The option lookup: the token with its first two characters skipped,
      given to the VM's option parser (an oracle here). This is the
      corrected lookup: a token shorter than two characters is never
      offered, where the source reads past its terminator
      (`OptionSuffixAsWritten`); for every longer token it asks the same
      question as the source (`OptionLookupAgrees`). */
  predicate IsVmOption(t: Text, setOption: Text -> bool)
  {
    |t| >= 2 && setOption(t[2..])
  }

  /** One pass of the flag loop's body at index `i`: go on after `consumed`
      tokens (a flag, or a flag and its argument), stop at `--`, or exit
      through `printUsageStatement`. */
  datatype Step =
    | Advance(consumed: nat, next: Walk)
    | Separator
    | UsageStep(help: bool)

  function StepAt(argv: seq<Text>, i: nat, w: Walk, setOption: Text -> bool): (r: Step)
    requires i < |argv|
    ensures r.Advance? ==> 1 <= r.consumed <= 2 && i + r.consumed <= |argv|
    ensures r.Advance? ==> (r.consumed == 2 <==> Classify(argv[i]) in {FileFlag, EvalFlag, ProfileFlag})
  {
    var arg := argv[i];
    match Classify(arg)
    case FileFlag =>
      if i + 1 == |argv| then UsageStep(false)
      else Advance(2, w.(settings := w.settings.AddScript(Script(true, argv[i + 1]))))
    case EvalFlag =>
      if i + 1 == |argv| then UsageStep(false)
      else Advance(2, w.(settings := w.settings.AddScript(Script(false, argv[i + 1]))))
    case InteractiveFlag => Advance(1, w.(settings := w.settings.(interactive := true)))
    case DumpFlag => Advance(1, w.(settings := w.settings.(dump := true)))
    case ProfileFlag =>
      if i + 1 == |argv| then UsageStep(false)
      else Advance(2, w.(settings := w.settings.(profile := true, profilerOutput := argv[i + 1])))
    case SignalFlag => Advance(1, w)
    case ExitCodeFlag => Advance(1, w.(settings := w.settings.(exitCode := true)))
    case SeparatorFlag => Separator
    case HelpFlag => UsageStep(true)
    case OptionsFlag => Advance(1, w.(dumpOptions := true, exitAfterDump := true))
    case DumpOptionsFlag => Advance(1, w.(dumpOptions := true))
    case NotAFlag =>
      if IsVmOption(arg, setOption) then Advance(1, w)
      else Advance(1, w.(settings := w.settings.AddScript(Script(true, arg))))
  }

  /** The flag loop of `parseArguments`, from index `i` of `argv` on. */
  function ScanFrom(argv: seq<Text>, i: nat, w: Walk, setOption: Text -> bool): (r: ScanEnd)
    ensures r.Stopped? && r.trailing != [] ==> i + |r.trailing| < |argv|
    ensures r.Stopped? && !r.sawSeparator ==> r.trailing == []
    decreases |argv| - i
  {
    if i >= |argv| then Stopped(w, [], false)
    else
      match StepAt(argv, i, w, setOption)
      case Advance(n, next) => ScanFrom(argv, i + n, next, setOption)
      case Separator => Stopped(w, argv[i + 1..], true)
      case UsageStep(help) => UsageExit(help)
  }

  /** `parseArguments` run on members that start as `start`. */
  function ParseFrom(argv: seq<Text>, start: Settings, setOption: Text -> bool): (r: ParseResult)
    ensures r.Parsed? && r.settings.scripts == [] ==> r.settings.interactive
  {
    match ScanFrom(argv, 1, Walk(start, false, false), setOption)
    case UsageExit(help) => Usage(help)
    case Stopped(w, trailing, _) =>
      Parsed(w.settings.(interactive := w.settings.interactive || w.settings.scripts == [],
                         arguments := w.settings.arguments + trailing),
             w.dumpOptions, w.exitAfterDump)
  }

  /** What `CommandLine(argc, argv)` computes. */
  function Parse(argv: seq<Text>, setOption: Text -> bool): ParseResult
  {
    ParseFrom(argv, Defaults, setOption)
  }

  class CommandLine {
    var interactive: bool
    var dump: bool
    var exitCode: bool
    var scripts: seq<Script>
    var arguments: seq<Text>
    var profile: bool
    var profilerOutput: Text

    function Members(): Settings
      reads this
    {
      Settings(interactive, dump, exitCode, scripts, arguments, profile, profilerOutput)
    }

    constructor ()
      ensures Members() == Defaults
    {
      interactive, dump, exitCode, profile := false, false, false, false;
      scripts, arguments, profilerOutput := [], [], [];
    }

    /** `CommandLine::parseArguments`: the result and the new members are
        those of `ParseFrom` on the members as they were. */
    method ParseArguments(argv: seq<Text>, setOption: Text -> bool) returns (status: ParseStatus)
      modifies this
      ensures match ParseFrom(argv, old(Members()), setOption)
              case Usage(help) => status == PrintUsage(help)
              case Parsed(s, dumpOptions, exitAfterDump) =>
                Members() == s && status == Proceed(dumpOptions, exitAfterDump)
    {
      var i, usage, needToDumpOptions, needToExit := FlagLoop(argv, setOption);
      if usage.Some? {
        return PrintUsage(usage.value);
      }
      if scripts == [] {
        interactive := true;
      }
      AppendArguments(argv, i);
      status := Proceed(needToDumpOptions, needToExit);
    }

    /** The first loop of `parseArguments`, over `argv[1..]`: it ends as
        `ScanFrom` does, with the usage statement, or with the members and
        the locals of the walk and the index of the first token left over. */
    method FlagLoop(argv: seq<Text>, setOption: Text -> bool)
      returns (i: nat, usage: Option<bool>, needToDumpOptions: bool, needToExit: bool)
      modifies this
      ensures match ScanFrom(argv, 1, Walk(old(Members()), false, false), setOption)
              case UsageExit(help) => usage == Some(help)
              case Stopped(w, trailing, _) =>
                usage == None && 1 <= i && trailing == Rest(argv, i)
                && w == Walk(Members(), needToDumpOptions, needToExit)
    {
      ghost var start := Walk(Members(), false, false);
      ghost var w := start;
      i := 1;
      needToDumpOptions, needToExit := false, false;
      while i < |argv|
        invariant 1 <= i
        invariant w == Walk(Members(), needToDumpOptions, needToExit)
        invariant ScanFrom(argv, 1, start, setOption) == ScanFrom(argv, i, w, setOption)
      {
        ghost var step := StepAt(argv, i, w, setOption);
        var pass;
        pass, needToDumpOptions, needToExit := TakeArgument(argv, i, setOption, needToDumpOptions, needToExit, w);
        match pass {
        case Exit(help) =>
          return i, Some(help), needToDumpOptions, needToExit;
        case Break(next) =>
          assert ScanFrom(argv, 1, start, setOption) == Stopped(w, Rest(argv, next), true);
          return next, None, needToDumpOptions, needToExit;
        case Continue(next) =>
          i := next;
          w := step.next;
        }
      }
      usage := None;
    }

    /** The body of the flag loop of `parseArguments` for the token at
        index `i`: the members and the two locals change as `StepAt` says,
        and the loop goes on, breaks after `--`, or prints the usage. */
    method TakeArgument(argv: seq<Text>, i: nat, setOption: Text -> bool,
                        dumpOptions: bool, exitAfterDump: bool, ghost w: Walk)
      returns (pass: Pass, needToDumpOptions: bool, needToExit: bool)
      requires 1 <= i < |argv|
      requires w == Walk(Members(), dumpOptions, exitAfterDump)
      modifies this
      ensures match StepAt(argv, i, w, setOption)
              case Advance(n, next) =>
                pass == Continue(i + n) && Walk(Members(), needToDumpOptions, needToExit) == next
              case Separator =>
                pass == Break(i + 1) && Members() == old(Members())
                && needToDumpOptions == dumpOptions && needToExit == exitAfterDump
              case UsageStep(help) => pass == Exit(help)
    {
      needToDumpOptions, needToExit := dumpOptions, exitAfterDump;
      var arg := argv[i];
      var j := i;
      match Classify(arg) {
      case FileFlag =>
        j := j + 1;
        if j == |argv| {
          return Exit(false), needToDumpOptions, needToExit;
        }
        scripts := scripts + [Script(true, argv[j])];
      case EvalFlag =>
        j := j + 1;
        if j == |argv| {
          return Exit(false), needToDumpOptions, needToExit;
        }
        scripts := scripts + [Script(false, argv[j])];
      case InteractiveFlag =>
        interactive := true;
      case DumpFlag =>
        dump := true;
      case ProfileFlag =>
        j := j + 1;
        if j == |argv| {
          return Exit(false), needToDumpOptions, needToExit;
        }
        profile := true;
        profilerOutput := argv[j];
      case SignalFlag =>
        // The crash signal handlers are installed here; no member changes.
      case ExitCodeFlag =>
        exitCode := true;
      case SeparatorFlag =>
        return Break(j + 1), needToDumpOptions, needToExit;
      case HelpFlag =>
        return Exit(true), needToDumpOptions, needToExit;
      case OptionsFlag =>
        needToDumpOptions := true;
        needToExit := true;
      case DumpOptionsFlag =>
        needToDumpOptions := true;
      case NotAFlag =>
        // Recognised VM options were applied by the oracle; anything else is a file.
        if !IsVmOption(arg, setOption) {
          scripts := scripts + [Script(true, arg)];
        }
      }
      pass := Continue(j + 1);
    }

    /** The second loop of `parseArguments`: every token from index `i` on
        is appended to the script arguments, in order. */
    method AppendArguments(argv: seq<Text>, i: nat)
      requires 1 <= i
      modifies this
      ensures Members() == old(Members()).(arguments := old(arguments) + Rest(argv, i))
    {
      var j := i;
      while j < |argv|
        invariant i <= j
        invariant Members() == old(Members()).(arguments := arguments)
        invariant i < |argv| ==> j <= |argv| && arguments == old(arguments) + argv[i..j]
        invariant i >= |argv| ==> arguments == old(arguments)
      {
        assert argv[i..j + 1] == argv[i..j] + [argv[j]];
        arguments := arguments + [argv[j]];
        j := j + 1;
      }
    }
  }

  // ----- Properties of the parse -----

  /** The flag loop ran from `i` to the end of `p` without stopping at `--`
      or exiting. */
  predicate Exhausts(p: seq<Text>, i: nat, w: Walk, setOption: Text -> bool)
  {
    var e := ScanFrom(p, i, w, setOption); e.Stopped? && !e.sawSeparator
  }

  /** Tokens in front of the ones the loop looks at do not matter. */
  lemma StepAtSkip(a: seq<Text>, b: seq<Text>, j: nat, w: Walk, setOption: Text -> bool)
    requires j < |b|
    ensures StepAt(a + b, |a| + j, w, setOption) == StepAt(b, j, w, setOption)
  {
    assert (a + b)[|a| + j] == b[j];
    if j + 1 < |b| {
      assert (a + b)[|a| + j + 1] == b[j + 1];
    }
  }

  lemma {:induction false} ScanSkip(a: seq<Text>, b: seq<Text>, j: nat, w: Walk, setOption: Text -> bool)
    requires j <= |b|
    ensures ScanFrom(a + b, |a| + j, w, setOption) == ScanFrom(b, j, w, setOption)
    decreases |b| - j
  {
    if j < |b| {
      StepAtSkip(a, b, j, w, setOption);
      var s := StepAt(b, j, w, setOption);
      if s.Advance? {
        ScanSkip(a, b, j + s.consumed, s.next, setOption);
      } else if s.Separator? {
        assert (a + b)[|a| + j + 1..] == b[j + 1..];
      }
    }
  }

  /** `argv[0]` is the program name; the flag loop starts after it. */
  lemma CommandTokens(prog: Text, ts: seq<Text>, w: Walk, setOption: Text -> bool)
    ensures ScanFrom([prog] + ts, 1, w, setOption) == ScanFrom(ts, 0, w, setOption)
  {
    ScanSkip([prog], ts, 0, w, setOption);
  }

  /** One step looks at no more tokens than it consumes (or, for `--`, than
      the separator itself). */
  lemma StepAtExtended(p: seq<Text>, q: seq<Text>, i: nat, w: Walk, setOption: Text -> bool)
    requires i < |p| && !StepAt(p, i, w, setOption).UsageStep?
    ensures StepAt(p + q, i, w, setOption) == StepAt(p, i, w, setOption)
  {
    assert (p + q)[i] == p[i];
    if i + 1 < |p| {
      assert (p + q)[i + 1] == p[i + 1];
    }
  }

  /** Scanning is compositional: tokens that were walked through completely
      leave a state from which the rest of `argv` is scanned alone. */
  lemma {:induction false} ScanConcat(p: seq<Text>, q: seq<Text>, i: nat, w: Walk, setOption: Text -> bool)
    requires i <= |p| && Exhausts(p, i, w, setOption)
    ensures ScanFrom(p + q, i, w, setOption) == ScanFrom(q, 0, ScanFrom(p, i, w, setOption).walk, setOption)
    decreases |p| - i
  {
    if i == |p| {
      ScanSkip(p, q, 0, w, setOption);
    } else {
      StepAtExtended(p, q, i, w, setOption);
      var s := StepAt(p, i, w, setOption);
      ScanConcat(p, q, i + s.consumed, s.next, setOption);
    }
  }

  /** Scripts are only ever appended: those collected so far stay, in order,
      at the front of the final list; the script arguments are untouched. */
  lemma {:induction false} ScanKeepsScripts(ts: seq<Text>, i: nat, w: Walk, setOption: Text -> bool)
    requires ScanFrom(ts, i, w, setOption).Stopped?
    ensures w.settings.scripts <= ScanFrom(ts, i, w, setOption).walk.settings.scripts
    ensures ScanFrom(ts, i, w, setOption).walk.settings.arguments == w.settings.arguments
    decreases |ts| - i
  {
    if i < |ts| && StepAt(ts, i, w, setOption).Advance? {
      var s := StepAt(ts, i, w, setOption);
      StepKeepsScripts(ts, i, w, setOption);
      ScanKeepsScripts(ts, i + s.consumed, s.next, setOption);
      var last := ScanFrom(ts, i + s.consumed, s.next, setOption).walk.settings.scripts;
      assert last[..|w.settings.scripts|] == last[..|s.next.settings.scripts|][..|w.settings.scripts|];
    }
  }

  /** When the flag loop stops at a `--`, the tokens it leaves for the script
      arguments are exactly those after that `--`, up to the end of `argv`. */
  lemma {:induction false} ScanTrailingIsSuffix(argv: seq<Text>, i: nat, w: Walk, setOption: Text -> bool)
    ensures var r := ScanFrom(argv, i, w, setOption);
            r.Stopped? && r.sawSeparator ==>
              i + |r.trailing| < |argv| && argv[|argv| - |r.trailing| - 1] == "--"
              && r.trailing == argv[|argv| - |r.trailing|..]
    decreases |argv| - i
  {
    if i < |argv| {
      var s := StepAt(argv, i, w, setOption);
      if s.Advance? {
        ScanTrailingIsSuffix(argv, i + s.consumed, s.next, setOption);
      } else if s.Separator? {
        ClassifyIsStrcmpChain(argv[i]);
      }
    }
  }

  /** One step appends at most one script and leaves the arguments alone. */
  lemma StepKeepsScripts(ts: seq<Text>, i: nat, w: Walk, setOption: Text -> bool)
    requires i < |ts| && StepAt(ts, i, w, setOption).Advance?
    ensures w.settings.scripts <= StepAt(ts, i, w, setOption).next.settings.scripts
    ensures StepAt(ts, i, w, setOption).next.settings.arguments == w.settings.arguments
  {
    var a := w.settings.scripts;
    assert a[..|a|] == a;
    match Classify(ts[i]) {
      case FileFlag => AppendKeeps(a, Script(true, ts[i + 1]));
      case EvalFlag => AppendKeeps(a, Script(false, ts[i + 1]));
      case NotAFlag => AppendKeeps(a, Script(true, ts[i]));
      case _ =>
    }
  }

  lemma AppendKeeps(a: seq<Script>, x: Script)
    ensures a <= a + [x]
  {
    assert (a + [x])[..|a|] == a;
  }

  /** Without a `--` token the flag loop only stops at the end of `argv`. */
  lemma {:induction false} ScanWithoutSeparator(ts: seq<Text>, i: nat, w: Walk, setOption: Text -> bool)
    requires forall k :: i <= k < |ts| ==> ts[k] != "--"
    ensures ScanFrom(ts, i, w, setOption).Stopped? ==> ScanFrom(ts, i, w, setOption).trailing == []
    decreases |ts| - i
  {
    if i < |ts| {
      ClassifyIsStrcmpChain(ts[i]);
      var s := StepAt(ts, i, w, setOption);
      if s.Advance? {
        ScanWithoutSeparator(ts, i + s.consumed, s.next, setOption);
      }
    }
  }

  /** The state after the tokens `p`, scanned from the constructor's defaults. */
  function WalkAfter(p: seq<Text>, setOption: Text -> bool): Walk
    requires Exhausts(p, 0, Walk(Defaults, false, false), setOption)
  {
    ScanFrom(p, 0, Walk(Defaults, false, false), setOption).walk
  }

  /** `-f X` and `-e X` met as flags append exactly one script, a file for
      `-f` and inline code for `-e`, whose argument is the next token; the
      scripts collected before stay in front of it, in order. */
  lemma ScriptFlagAppends(prog: Text, p: seq<Text>, flag: Text, x: Text, q: seq<Text>, setOption: Text -> bool)
    requires flag == "-f" || flag == "-e"
    requires Exhausts(p, 0, Walk(Defaults, false, false), setOption)
    ensures var w := WalkAfter(p, setOption);
            ScanFrom(p + ([flag, x] + q), 0, Walk(Defaults, false, false), setOption)
              == ScanFrom(q, 0, w.(settings := w.settings.AddScript(Script(flag == "-f", x))), setOption)
    ensures var w := WalkAfter(p, setOption);
            var r := Parse([prog] + (p + ([flag, x] + q)), setOption);
            r.Parsed? ==>
              |r.settings.scripts| > |w.settings.scripts|
              && r.settings.scripts[..|w.settings.scripts|] == w.settings.scripts
              && r.settings.scripts[|w.settings.scripts|] == Script(flag == "-f", x)
  {
    var init := Walk(Defaults, false, false);
    var w := WalkAfter(p, setOption);
    var tail := [flag, x] + q;
    ScanConcat(p, tail, 0, init, setOption);
    var w' := w.(settings := w.settings.AddScript(Script(flag == "-f", x)));
    assert StepAt(tail, 0, w, setOption) == Advance(2, w');
    ScanSkip([flag, x], q, 0, w', setOption);
    CommandTokens(prog, p + tail, init, setOption);
    if ScanFrom(q, 0, w', setOption).Stopped? {
      ScanKeepsScripts(q, 0, w', setOption);
    }
  }

  /** `-f`, `-e` or `-p` met as the last token is a usage error: the usage
      statement is printed and the process exits with failure. */
  lemma MissingArgumentIsUsage(prog: Text, p: seq<Text>, flag: Text, start: Settings, setOption: Text -> bool)
    requires flag == "-f" || flag == "-e" || flag == "-p"
    requires Exhausts(p, 0, Walk(start, false, false), setOption)
    ensures ParseFrom([prog] + (p + [flag]), start, setOption) == Usage(false)
  {
    var init := Walk(start, false, false);
    ScanConcat(p, [flag], 0, init, setOption);
    CommandTokens(prog, p + [flag], init, setOption);
  }

  /** After a `--` met as a flag, every remaining token becomes a script
      argument, in order, and none becomes a script. */
  lemma SeparatorTakesTheRest(prog: Text, p: seq<Text>, rest: seq<Text>, start: Settings, setOption: Text -> bool)
    requires Exhausts(p, 0, Walk(start, false, false), setOption)
    ensures var w := ScanFrom(p, 0, Walk(start, false, false), setOption).walk;
            var r := ParseFrom([prog] + (p + (["--"] + rest)), start, setOption);
            r.Parsed? && r.settings.arguments == start.arguments + rest
            && r.settings.scripts == w.settings.scripts
  {
    var init := Walk(start, false, false);
    var tail := ["--"] + rest;
    ScanConcat(p, tail, 0, init, setOption);
    assert tail[0] == "--" && tail[1..] == rest;
    CommandTokens(prog, p + tail, init, setOption);
    ScanKeepsScripts(p, 0, init, setOption);
  }

  /** With no `--` token anywhere, the script arguments stay as they were
      (empty, for a fresh `CommandLine`). */
  lemma NoSeparatorNoArguments(argv: seq<Text>, start: Settings, setOption: Text -> bool)
    requires forall k :: 1 <= k < |argv| ==> argv[k] != "--"
    ensures var r := ParseFrom(argv, start, setOption);
            r.Parsed? ==> r.settings.arguments == start.arguments
  {
    var init := Walk(start, false, false);
    ScanWithoutSeparator(argv, 1, init, setOption);
    if ScanFrom(argv, 1, init, setOption).Stopped? {
      ScanKeepsScripts(argv, 1, init, setOption);
    }
  }

  /** A token that is no harness flag and that the VM option parser rejects
      is taken as the name of a script file, not reported as an error. */
  lemma UnmatchedTokenIsFileScript(p: seq<Text>, t: Text, q: seq<Text>, start: Settings, setOption: Text -> bool)
    requires !IsHarnessFlag(t) && !IsVmOption(t, setOption)
    requires Exhausts(p, 0, Walk(start, false, false), setOption)
    ensures var w := ScanFrom(p, 0, Walk(start, false, false), setOption).walk;
            ScanFrom(p + ([t] + q), 0, Walk(start, false, false), setOption)
              == ScanFrom(q, 0, w.(settings := w.settings.AddScript(Script(true, t))), setOption)
  {
    var w := ScanFrom(p, 0, Walk(start, false, false), setOption).walk;
    ScanConcat(p, [t] + q, 0, Walk(start, false, false), setOption);
    ScanSkip([t], q, 0, w.(settings := w.settings.AddScript(Script(true, t))), setOption);
  }

  /** A token the VM option parser accepts adds no script and changes no
      member; this holds for bare tokens too, not only for `--` ones. */
  lemma AcceptedOptionAddsNoScript(p: seq<Text>, t: Text, q: seq<Text>, start: Settings, setOption: Text -> bool)
    requires !IsHarnessFlag(t) && IsVmOption(t, setOption)
    requires Exhausts(p, 0, Walk(start, false, false), setOption)
    ensures ScanFrom(p + ([t] + q), 0, Walk(start, false, false), setOption)
              == ScanFrom(q, 0, ScanFrom(p, 0, Walk(start, false, false), setOption).walk, setOption)
  {
    var w := ScanFrom(p, 0, Walk(start, false, false), setOption).walk;
    ScanConcat(p, [t] + q, 0, Walk(start, false, false), setOption);
    ScanSkip([t], q, 0, w, setOption);
  }

  // ----- The short-token read past the terminator -----

  /** The C string the source hands to the option parser for every token
      that reaches the lookup, `&arg[2]`. An argv entry is stored as its
      characters and a NUL, and the string is read from cell 2 of those
      cells up to the first NUL. `None` stands for a start one or two cells
      past the terminator, where the read is undefined. */
  function OptionSuffixAsWritten(t: Text): (r: Option<Text>)
    requires NUL !in t
    ensures r.Some? <==> 2 < |t + [NUL]|
    ensures r.Some? ==> r.value == CPrefix((t + [NUL])[2..])
    ensures r.Some? ==> t == t[..2] + r.value
  {
    if 2 <= |t| then
      assert (t + [NUL])[2..] == t[2..] + [NUL] + [];
      BeforeFirst(t[2..], NUL, []);
      Some(t[2..])
    else None
  }

  /** For every token of two characters or more, the model's lookup asks
      the option parser exactly the string the source hands it. */
  lemma OptionLookupAgrees(t: Text, setOption: Text -> bool)
    requires NUL !in t && 2 <= |t|
    ensures OptionSuffixAsWritten(t).Some?
    ensures IsVmOption(t, setOption) <==> setOption(OptionSuffixAsWritten(t).value)
  {
  }

  /** For `jsc a` the flag loop reaches the option lookup with the token
      `a`, whose suffix `&arg[2]` lies past its terminator. */
  lemma ShortTokenReadsPastTerminator()
    ensures var t: Text := "a";
            !IsHarnessFlag(t) && OptionSuffixAsWritten(t) == None
  {
  }

  /** The flag loop of this model, `ScanFrom`, takes the corrected lookup:
      a token too short to carry an option is a file script, whatever the
      option parser would say. */
  lemma ShortTokenIsFileScript(t: Text, q: seq<Text>, w: Walk, setOption: Text -> bool)
    requires |t| < 2
    ensures ScanFrom([t] + q, 0, w, setOption)
              == ScanFrom(q, 0, w.(settings := w.settings.AddScript(Script(true, t))), setOption)
  {
    var w' := w.(settings := w.settings.AddScript(Script(true, t)));
    assert StepAt([t] + q, 0, w, setOption) == Advance(1, w');
    ScanSkip([t], q, 0, w', setOption);
  }
}
