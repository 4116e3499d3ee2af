/** The shell's driver: `runWithScripts` evaluates the scripts of the command
    line in order, `runInteractive` is the read-eval-print loop without GNU
    readline, and `jscmain` ties them to the parsed command line and maps
    the outcome to the exit code. The engine is an oracle: `eval` takes the
    global object's state and a source and returns the new state and the
    completion (value or exception) as the text `toString` gives. */
module Driver {
  import opened CStrings
  import opened Wrappers
  import opened JsSource
  import CL = CommandLineParser
  import SL = SourceLoader
  import LR = LineReader

  /** The files `fopen` can open, each as the chunks `fread` returns. */
  type FileSystem = map<Text, seq<Text>>

  /** `fread` never returns more than it is asked for. */
  predicate WellFormed(files: FileSystem)
  {
    forall name :: name in files ==> SL.ChunksFit(files[name], 0, 1024)
  }

  /** How an evaluation ends: its value, or the exception with its `stack`
      property when that is neither undefined nor null. */
  datatype Completion = Normal(value: Text) | Threw(exception: Text, stack: Option<Text>)

  /** The lines the shell writes, in order: the usage statement, the options
      dump, `Could not open file: `, `End: `, `Exception: `, a stack trace,
      the prompt `> `, a REPL result, the newline after the session, and
      `jsc exiting `. */
  datatype Event =
    | UsageStatement(help: bool)
    | OptionsDump
    | CouldNotOpen(fileName: Text)
    | End(value: Text)
    | Exception(message: Text)
    | StackTrace(stack: Text)
    | Prompt
    | Value(value: Text)
    | FinalNewline
    | Exiting(code: int)

  const CommandLineName: Text := "[Command Line]"
  const InterpreterName: Text := "Interpreter"

  // ----- runWithScripts -----

  /** The source a script is evaluated as, or `None` when its file cannot be
      opened: a file's bytes, with `#!` rewritten, named by the file; an
      inline script's text, named `[Command Line]`. */
  function Load(script: CL.Script, files: FileSystem): Option<SourceCode>
  {
    if !script.isFile then Some(Source(script.argument + [NUL], CommandLineName))
    else if script.argument in files then
      Some(Source(SL.Rewritten(Concat(files[script.argument])), script.argument))
    else None
  }

  /** A script has a source exactly when it is inline or its file exists;
      the source is named by the file, or `[Command Line]` for inline code,
      whose bytes are the argument up to its first NUL. */
  lemma LoadNamesItsSource(script: CL.Script, files: FileSystem)
    ensures Load(script, files).Some? <==> !script.isFile || script.argument in files
    ensures Load(script, files).Some? ==>
              Load(script, files).value.name == (if script.isFile then script.argument else CommandLineName)
    ensures !script.isFile ==> Load(script, files).value.Bytes() == CPrefix(script.argument)
  {
    if !script.isFile {
      CPrefixOfTerminated(script.argument + [NUL], script.argument);
    }
  }

  /** What is written after one evaluation of the batch. */
  function Report(c: Completion, dump: bool): (r: seq<Event>)
    ensures c.Threw? <==> r != [] && r[0].Exception?
    ensures c.Normal? ==> (r != [] <==> dump)
  {
    match c
    case Normal(v) => if dump then [End(v)] else []
    case Threw(m, stack) =>
      var r := [Exception(m)] + (if stack.Some? then [StackTrace(stack.value)] else []);
      assert r[0] == Exception(m);
      r
  }

  datatype BatchResult<S> = BatchResult(success: bool, global: S, log: seq<Event>)

  /** The batch from script `i` on, starting from the state `g`. */
  function BatchFrom<S>(scripts: seq<CL.Script>, i: nat, dump: bool, files: FileSystem,
                        eval: (S, SourceCode) -> (S, Completion), g: S): BatchResult<S>
    decreases |scripts| - i
  {
    if i >= |scripts| then BatchResult(true, g, [])
    else
      match Load(scripts[i], files)
      case None => BatchResult(false, g, [CouldNotOpen(scripts[i].argument)])
      case Some(src) =>
        var r := eval(g, src);
        var rest := BatchFrom(scripts, i + 1, dump, files, eval, r.0);
        BatchResult(r.1.Normal? && rest.success, rest.global, Report(r.1, dump) + rest.log)
  }

  /** A batch result preceded by the part of the run already done. */
  function Preceded<S>(success: bool, log: seq<Event>, r: BatchResult<S>): BatchResult<S>
  {
    BatchResult(success && r.success, r.global, log + r.log)
  }

  /** `runWithScripts`: the scripts in order, each loaded into one reused
      buffer or taken from the command line and evaluated; the success flag,
      the global object's state and the output are those of `BatchFrom`. */
  method RunWithScripts<S>(global: S, scripts: seq<CL.Script>, dump: bool, files: FileSystem,
                           eval: (S, SourceCode) -> (S, Completion))
      returns (success: bool, g: S, log: seq<Event>)
    requires WellFormed(files)
    ensures BatchResult(success, g, log) == BatchFrom(scripts, 0, dump, files, eval, global)
  {
    var scriptBuffer := new SL.CharVector();
    success, g, log := true, global, [];
    var i := 0;
    while i < |scripts|
      invariant i <= |scripts|
      invariant BatchFrom(scripts, 0, dump, files, eval, global)
                == Preceded(success, log, BatchFrom(scripts, i, dump, files, eval, g))
    {
      var src := LoadScript(scripts[i], files, scriptBuffer);
      if src.None? {
        FailedStep(scripts, i, dump, files, eval, g, success, log);
        // a file that cannot be opened ends the whole batch
        log := log + [CouldNotOpen(scripts[i].argument)];
        return false, g, log;
      }
      var r := eval(g, src.value);
      EvaluatedStep(scripts, i, dump, files, eval, g, success, log, src.value);
      g := r.0;
      success := success && r.1.Normal?;
      log := log + Report(r.1, dump);
      i := i + 1;
    }
  }

  /** A script that does not load ends the batch where it stands. */
  lemma FailedStep<S>(scripts: seq<CL.Script>, i: nat, dump: bool, files: FileSystem,
                      eval: (S, SourceCode) -> (S, Completion), g: S, success: bool, log: seq<Event>)
    requires i < |scripts| && Load(scripts[i], files).None?
    ensures Preceded(success, log, BatchFrom(scripts, i, dump, files, eval, g))
            == BatchResult(false, g, log + [CouldNotOpen(scripts[i].argument)])
  {
  }

  /** A script that loads is evaluated, its report written, and the batch
      goes on with the next one. */
  lemma EvaluatedStep<S>(scripts: seq<CL.Script>, i: nat, dump: bool, files: FileSystem,
                         eval: (S, SourceCode) -> (S, Completion), g: S, success: bool, log: seq<Event>,
                         src: SourceCode)
    requires i < |scripts| && Load(scripts[i], files) == Some(src)
    ensures var r := eval(g, src);
            Preceded(success, log, BatchFrom(scripts, i, dump, files, eval, g))
            == Preceded(success && r.1.Normal?, log + Report(r.1, dump), BatchFrom(scripts, i + 1, dump, files, eval, r.0))
  {
    var r := eval(g, src);
    var rest := BatchFrom(scripts, i + 1, dump, files, eval, r.0);
    assert log + (Report(r.1, dump) + rest.log) == (log + Report(r.1, dump)) + rest.log;
  }

  /** One script made into source code: a file through
      `fillBufferWithContentsOfFile` and `jscSource` on the buffer, inline
      text through `jscSource` on the argument. */
  method LoadScript(script: CL.Script, files: FileSystem, scriptBuffer: SL.CharVector)
      returns (src: Option<SourceCode>)
    requires WellFormed(files)
    modifies scriptBuffer
    ensures src == Load(script, files)
  {
    if !script.isFile {
      var s := JscSource(script.argument + [NUL], CommandLineName);
      return Some(s);
    }
    var file := if script.argument in files then Some(files[script.argument]) else None;
    var ok := SL.FillBufferWithContentsOfFile(file, scriptBuffer);
    if !ok {
      return None;
    }
    ghost var c := Concat(files[script.argument]);
    var s := JscSource(scriptBuffer.data[..], script.argument);
    SourceOfTerminated(scriptBuffer.data[..], SL.Rewritten(c), script.argument);
    return Some(s);
  }

  // ----- Properties of the batch -----

  /** A file script that cannot be opened ends the batch: the outcome is
      failure, and neither the state, nor the output, nor the verdict
      depends on the scripts after it, which are not evaluated. */
  lemma {:induction false} MissingFileStopsTheBatch<S>(p: seq<CL.Script>, s: CL.Script, q: seq<CL.Script>, i: nat,
                                                       dump: bool, files: FileSystem,
                                                       eval: (S, SourceCode) -> (S, Completion), g: S)
    requires s.isFile && s.argument !in files && i <= |p|
    ensures BatchFrom(p + [s] + q, i, dump, files, eval, g) == BatchFrom(p + [s], i, dump, files, eval, g)
    ensures !BatchFrom(p + [s], i, dump, files, eval, g).success
    decreases |p| - i
  {
    assert (p + [s] + q)[i] == (p + [s])[i];
    if i < |p| {
      match Load(p[i], files)
      case None =>
      case Some(src) =>
        MissingFileStopsTheBatch(p, s, q, i + 1, dump, files, eval, eval(g, src).0);
    }
  }

  /** The batch succeeds exactly when it writes neither an exception nor a
      file that could not be opened. */
  lemma {:induction false} SuccessIffNothingFailed<S>(scripts: seq<CL.Script>, i: nat, dump: bool, files: FileSystem,
                                                      eval: (S, SourceCode) -> (S, Completion), g: S)
    ensures var r := BatchFrom(scripts, i, dump, files, eval, g);
            r.success <==> forall e :: e in r.log ==> !e.Exception? && !e.CouldNotOpen?
    decreases |scripts| - i
  {
    if i < |scripts| {
      match Load(scripts[i], files)
      case None =>
        assert CouldNotOpen(scripts[i].argument) in BatchFrom(scripts, i, dump, files, eval, g).log;
      case Some(src) =>
        var r := eval(g, src);
        var rest := BatchFrom(scripts, i + 1, dump, files, eval, r.0);
        SuccessIffNothingFailed(scripts, i + 1, dump, files, eval, r.0);
        if r.1.Threw? {
          assert Report(r.1, dump)[0] == Exception(r.1.exception);
          assert Exception(r.1.exception) in Report(r.1, dump) + rest.log;
        }
        assert forall e :: e in Report(r.1, dump) + rest.log <==> e in Report(r.1, dump) || e in rest.log;
    }
  }

  /** Every script loads. */
  predicate AllLoad(scripts: seq<CL.Script>, files: FileSystem)
  {
    forall k :: 0 <= k < |scripts| ==> Load(scripts[k], files).Some?
  }

  /** The state after evaluating the sources from `i` on, one after the
      other, whatever each completion. */
  function EvalAll<S>(sources: seq<SourceCode>, i: nat, eval: (S, SourceCode) -> (S, Completion), g: S): S
    decreases |sources| - i
  {
    if i >= |sources| then g else EvalAll(sources, i + 1, eval, eval(g, sources[i]).0)
  }

  /** The sources of scripts that all load. */
  function Sources(scripts: seq<CL.Script>, files: FileSystem): (r: seq<SourceCode>)
    requires AllLoad(scripts, files)
    ensures |r| == |scripts| && forall k :: 0 <= k < |r| ==> Load(scripts[k], files) == Some(r[k])
  {
    seq(|scripts|, k requires 0 <= k < |scripts| && AllLoad(scripts, files) => Load(scripts[k], files).value)
  }

  /** When every script loads, every one is evaluated, in order, also after
      one has thrown. */
  lemma {:induction false} EveryScriptEvaluated<S>(scripts: seq<CL.Script>, i: nat, dump: bool, files: FileSystem,
                                                   eval: (S, SourceCode) -> (S, Completion), g: S)
    requires AllLoad(scripts, files)
    ensures BatchFrom(scripts, i, dump, files, eval, g).global == EvalAll(Sources(scripts, files), i, eval, g)
    decreases |scripts| - i
  {
    if i < |scripts| {
      var src := Sources(scripts, files)[i];
      assert Load(scripts[i], files) == Some(src);
      EveryScriptEvaluated(scripts, i + 1, dump, files, eval, eval(g, src).0);
    }
  }

  /** The batch writes no prompt. */
  lemma {:induction false} BatchWritesNoPrompt<S>(scripts: seq<CL.Script>, i: nat, dump: bool, files: FileSystem,
                                                  eval: (S, SourceCode) -> (S, Completion), g: S)
    ensures Prompt !in BatchFrom(scripts, i, dump, files, eval, g).log
    decreases |scripts| - i
  {
    if i < |scripts| {
      match Load(scripts[i], files)
      case None =>
      case Some(src) =>
        var r := eval(g, src);
        BatchWritesNoPrompt(scripts, i + 1, dump, files, eval, r.0);
        assert Prompt !in Report(r.1, dump);
    }
  }

  // ----- runInteractive -----

  /** What the loop writes after evaluating one line. */
  function Reply(c: Completion): (r: Event)
    ensures r.Exception? <==> c.Threw?
    ensures r.Value? <==> c.Normal?
  {
    match c
    case Normal(v) => Value(v)
    case Threw(m, _) => Exception(m)
  }

  datatype Session<S> = Session(global: S, log: seq<Event>, rest: Text)

  /** The session on the input `pending`: a prompt, then a line; an empty
      line (a blank one or the end of input) ends it, any other is
      evaluated and its result written. */
  function Repl<S>(pending: Text, g: S, eval: (S, SourceCode) -> (S, Completion)): (r: Session<S>)
    ensures |r.log| >= 2 && r.log[0] == Prompt
    ensures |r.rest| <= |pending|
    decreases |pending|
  {
    var line := LR.LineOf(pending);
    if line == [] then Session(g, [Prompt, FinalNewline], LR.AfterLine(pending))
    else
      var r := eval(g, Source(line + [NUL], InterpreterName));
      var next := Repl(LR.AfterLine(pending), r.0, eval);
      Session(next.global, [Prompt, Reply(r.1)] + next.log, next.rest)
  }

  /** `runInteractive` without GNU readline: its state, output and the input
      it leaves unread are those of `Repl`. */
  method RunInteractive<S>(global: S, input: LR.Stdin, eval: (S, SourceCode) -> (S, Completion))
      returns (g: S, log: seq<Event>)
    modifies input
    ensures Session(g, log, input.pending) == Repl(old(input.pending), global, eval)
  {
    ghost var whole := Repl(input.pending, global, eval);
    g, log := global, [];
    while true
      invariant whole == Resumed(log, Repl(input.pending, g, eval))
      decreases |input.pending|
    {
      ghost var here := input.pending;
      // the prompt is written, then a line is read
      var line := LR.CollectLine(input);
      if line == [] {
        ReplEnds(here, g, eval, log);
        log := log + [Prompt, FinalNewline];
        break;
      }
      var src := JscSource(line + [NUL], InterpreterName);
      var r := eval(g, src);
      ReplStep(here, g, eval, log);
      g := r.0;
      log := log + [Prompt, Reply(r.1)];
    }
  }

  /** A session preceded by what the loop has already written. */
  function Resumed<S>(log: seq<Event>, s: Session<S>): Session<S>
  {
    s.(log := log + s.log)
  }

  /** An empty line ends the session after its prompt. */
  lemma ReplEnds<S>(pending: Text, g: S, eval: (S, SourceCode) -> (S, Completion), log: seq<Event>)
    requires LR.LineOf(pending) == []
    ensures Resumed(log, Repl(pending, g, eval)) == Session(g, log + [Prompt, FinalNewline], LR.AfterLine(pending))
  {
  }

  /** A non-empty line is evaluated, its result written, and the session
      goes on with the input after it. */
  lemma ReplStep<S>(pending: Text, g: S, eval: (S, SourceCode) -> (S, Completion), log: seq<Event>)
    requires LR.LineOf(pending) != []
    ensures var r := eval(g, Source(LR.LineOf(pending) + [NUL], InterpreterName));
            Resumed(log, Repl(pending, g, eval))
            == Resumed(log + [Prompt, Reply(r.1)], Repl(LR.AfterLine(pending), r.0, eval))
  {
    var r := eval(g, Source(LR.LineOf(pending) + [NUL], InterpreterName));
    var next := Repl(LR.AfterLine(pending), r.0, eval);
    assert log + ([Prompt, Reply(r.1)] + next.log) == (log + [Prompt, Reply(r.1)]) + next.log;
  }

  /** The log ends with a prompt and the newline after the session. */
  predicate EndsSession(log: seq<Event>)
  {
    |log| >= 2 && log[|log| - 2] == Prompt && log[|log| - 1] == FinalNewline
  }

  lemma EndsSessionAfter(front: seq<Event>, log: seq<Event>)
    requires EndsSession(log)
    ensures EndsSession(front + log)
  {
    var all := front + log;
    assert all[|all| - 2] == log[|log| - 2] && all[|all| - 1] == log[|log| - 1];
  }

  /** Whatever the input, the session ends with the prompt that met the
      empty line and the newline after it. */
  lemma {:induction false} SessionEndsWithPrompt<S>(pending: Text, g: S, eval: (S, SourceCode) -> (S, Completion))
    ensures EndsSession(Repl(pending, g, eval).log)
    decreases |pending|
  {
    if LR.LineOf(pending) == [] {
      ReplEnds(pending, g, eval, []);
    } else {
      var r := eval(g, Source(LR.LineOf(pending) + [NUL], InterpreterName));
      var next := Repl(LR.AfterLine(pending), r.0, eval);
      ReplStep(pending, g, eval, []);
      SessionEndsWithPrompt(LR.AfterLine(pending), r.0, eval);
      EndsSessionAfter([Prompt, Reply(r.1)], next.log);
    }
  }

  /** The session leaves a suffix of its input unread. */
  lemma {:induction false} SessionLeavesSuffix<S>(pending: Text, g: S, eval: (S, SourceCode) -> (S, Completion))
    ensures var rest := Repl(pending, g, eval).rest;
            |rest| <= |pending| && rest == pending[|pending| - |rest|..]
    decreases |pending|
  {
    var line := LR.LineOf(pending);
    if line != [] {
      var r := eval(g, Source(line + [NUL], InterpreterName));
      var after := LR.AfterLine(pending);
      var next := Repl(after, r.0, eval);
      SessionLeavesSuffix(after, r.0, eval);
      assert Repl(pending, g, eval).rest == next.rest;
      assert pending[|pending| - |after|..][|after| - |next.rest|..] == pending[|pending| - |next.rest|..];
    }
  }

  /** A blank line ends the session at once: nothing is evaluated and the
      input after the newline is left unread. */
  lemma BlankLineEndsSession<S>(rest: Text, g: S, eval: (S, SourceCode) -> (S, Completion))
    ensures Repl([NEWLINE] + rest, g, eval) == Session(g, [Prompt, FinalNewline], rest)
  {
    LR.EndedLine([], rest);
    assert [] + [NEWLINE] + rest == [NEWLINE] + rest;
  }

  // ----- jscmain -----

  datatype Outcome = Outcome(code: int, log: seq<Event>, rest: Text)

  /** The exit status `printUsageStatement` ends the process with. */
  function UsageCode(help: bool): (r: int)
    ensures r == 0 <==> help
    ensures r != 3
  {
    if help then 0 else 1
  }

  /** `jscmain` on the command line `argv` and the input `input`. */
  function Main<S>(argv: seq<Text>, setOption: Text -> bool, files: FileSystem, input: Text,
                   createGlobal: seq<Text> -> S, eval: (S, SourceCode) -> (S, Completion)): (r: Outcome)
    ensures r.code == 0 || r.code == 1 || r.code == 3
    ensures r.code == 1 <==> CL.Parse(argv, setOption) == CL.Usage(false)
  {
    match CL.Parse(argv, setOption)
    case Usage(help) => Outcome(UsageCode(help), [UsageStatement(help)], input)
    case Parsed(settings, dumpOptions, exitAfterDump) =>
      var dumped := if dumpOptions then [OptionsDump] else [];
      if exitAfterDump then Outcome(0, dumped, input)
      else
        var batch := BatchFrom(settings.scripts, 0, settings.dump, files, eval, createGlobal(settings.arguments));
        var session :=
          if settings.interactive && batch.success then Repl(input, batch.global, eval)
          else Session(batch.global, [], input);
        var result := if batch.success then 0 else 3;
        Outcome(result, dumped + batch.log + session.log + (if settings.exitCode then [Exiting(result)] else []),
                session.rest)
  }

  /** `jscmain`: the parsed command line, the batch, the session when it is
      interactive and the batch succeeded, the exit code 0 or 3, and the
      `-x` line; a usage statement or `--options` ends it early. */
  method JscMain<S>(argv: seq<Text>, setOption: Text -> bool, files: FileSystem, input: LR.Stdin,
                    createGlobal: seq<Text> -> S, eval: (S, SourceCode) -> (S, Completion))
      returns (result: int, log: seq<Event>)
    requires WellFormed(files)
    modifies input
    ensures Outcome(result, log, input.pending)
            == Main(argv, setOption, files, old(input.pending), createGlobal, eval)
  {
    var options := new CL.CommandLine();
    var status := options.ParseArguments(argv, setOption);
    if status.PrintUsage? {
      return UsageCode(status.help), [UsageStatement(status.help)];
    }
    log := if status.dumpOptions then [OptionsDump] else [];
    if status.exitAfterDump {
      return 0, log;
    }
    var globalObject := createGlobal(options.arguments);
    var success, batchLog;
    success, globalObject, batchLog := RunWithScripts(globalObject, options.scripts, options.dump, files, eval);
    log := log + batchLog;
    var sessionLog := [];
    if options.interactive && success {
      globalObject, sessionLog := RunInteractive(globalObject, input, eval);
    }
    log := log + sessionLog;
    result := if success then 0 else 3;
    if options.exitCode {
      log := log + [Exiting(result)];
    }
  }

  // ----- Properties of jscmain -----

  /** The exit code is that of the usage statement, 0 after `--options`,
      and otherwise 0 when the batch succeeded and 3 when it failed. */
  lemma ExitCodeFollowsBatch<S>(argv: seq<Text>, setOption: Text -> bool, files: FileSystem, input: Text,
                                createGlobal: seq<Text> -> S, eval: (S, SourceCode) -> (S, Completion))
    ensures var m := Main(argv, setOption, files, input, createGlobal, eval);
            var pr := CL.Parse(argv, setOption);
            (pr.Usage? ==> m.code == (if pr.help then 0 else 1))
            && (pr.Parsed? && pr.exitAfterDump ==> m.code == 0)
            && (pr.Parsed? && !pr.exitAfterDump ==>
                  var batch := BatchFrom(pr.settings.scripts, 0, pr.settings.dump, files, eval,
                                         createGlobal(pr.settings.arguments));
                  (m.code == 0 <==> batch.success) && (m.code == 3 <==> !batch.success))
  {
  }

  /** The prompt is written only after a successful batch, and always then
      when the shell is interactive. */
  lemma InteractiveOnlyOnSuccess<S>(argv: seq<Text>, setOption: Text -> bool, files: FileSystem, input: Text,
                                    createGlobal: seq<Text> -> S, eval: (S, SourceCode) -> (S, Completion))
    ensures var m := Main(argv, setOption, files, input, createGlobal, eval);
            Prompt in m.log ==> m.code == 0
    ensures var pr := CL.Parse(argv, setOption);
            pr.Parsed? && !pr.exitAfterDump && pr.settings.interactive
            && BatchFrom(pr.settings.scripts, 0, pr.settings.dump, files, eval, createGlobal(pr.settings.arguments)).success
            ==> Prompt in Main(argv, setOption, files, input, createGlobal, eval).log
  {
    match CL.Parse(argv, setOption)
    case Usage(_) =>
    case Parsed(settings, dumpOptions, exitAfterDump) =>
      if !exitAfterDump {
        var batch := BatchFrom(settings.scripts, 0, settings.dump, files, eval, createGlobal(settings.arguments));
        BatchWritesNoPrompt(settings.scripts, 0, settings.dump, files, eval, createGlobal(settings.arguments));
        var dumped: seq<Event> := if dumpOptions then [OptionsDump] else [];
        var session :=
          if settings.interactive && batch.success then Repl(input, batch.global, eval)
          else Session(batch.global, [], input);
        var result := if batch.success then 0 else 3;
        var exiting: seq<Event> := if settings.exitCode then [Exiting(result)] else [];
        var log := dumped + batch.log + session.log + exiting;
        assert Main(argv, setOption, files, input, createGlobal, eval).log == log;
        if settings.interactive && batch.success {
          assert session.log[0] == Prompt;
          assert log[|dumped| + |batch.log|] == Prompt;
        } else {
          assert forall e :: e in log ==> e in dumped || e in batch.log || e in exiting;
        }
      }
  }

  /** `jsc` with no arguments and nothing on standard input prints one
      prompt and a newline and exits with 0. */
  lemma NoArgumentsNoInput<S>(program: Text, setOption: Text -> bool, files: FileSystem,
                              createGlobal: seq<Text> -> S, eval: (S, SourceCode) -> (S, Completion))
    ensures Main([program], setOption, files, [], createGlobal, eval) == Outcome(0, [Prompt, FinalNewline], [])
  {
    assert CL.Parse([program], setOption).Parsed?;
  }

  /** `jsc name`, where `name` is neither a harness flag nor a VM option and
      no such file exists: the name is taken as a script file, the file
      cannot be opened, and the shell exits with 3 without a prompt. */
  lemma MissingScriptFile<S>(program: Text, name: Text, setOption: Text -> bool, files: FileSystem, input: Text,
                             createGlobal: seq<Text> -> S, eval: (S, SourceCode) -> (S, Completion))
    requires !CL.IsHarnessFlag(name) && !CL.IsVmOption(name, setOption) && name !in files
    ensures Main([program, name], setOption, files, input, createGlobal, eval) == Outcome(3, [CouldNotOpen(name)], input)
  {
    var argv := [program, name];
    var w := CL.Walk(CL.Defaults, false, false);
    var w' := w.(settings := w.settings.AddScript(CL.Script(true, name)));
    assert CL.StepAt(argv, 1, w, setOption) == CL.Advance(1, w');
    assert CL.ScanFrom(argv, 1, w, setOption) == CL.ScanFrom(argv, 2, w', setOption) == CL.Stopped(w', [], false);
    var settings := w'.settings.(arguments := w'.settings.arguments + []);
    assert CL.Parse(argv, setOption) == CL.Parsed(settings, false, false);
    var g := createGlobal(settings.arguments);
    assert BatchFrom(settings.scripts, 0, settings.dump, files, eval, g) == BatchResult(false, g, [CouldNotOpen(name)]);
  }

  /** `jsc -e code` where evaluating `code` throws: the exception is
      written, no prompt follows, and the exit code is 3. */
  lemma ThrowingInlineScript<S>(program: Text, code: Text, setOption: Text -> bool, files: FileSystem, input: Text,
                                createGlobal: seq<Text> -> S, eval: (S, SourceCode) -> (S, Completion))
    requires eval(createGlobal([]), Source(code + [NUL], CommandLineName)).1.Threw?
    ensures var c := eval(createGlobal([]), Source(code + [NUL], CommandLineName)).1;
            Main([program, "-e", code], setOption, files, input, createGlobal, eval)
              == Outcome(3, Report(c, false), input)
  {
    var argv: seq<Text> := [program, "-e", code];
    var w := CL.Walk(CL.Defaults, false, false);
    var w' := w.(settings := w.settings.AddScript(CL.Script(false, code)));
    assert CL.StepAt(argv, 1, w, setOption) == CL.Advance(2, w');
    assert CL.ScanFrom(argv, 1, w, setOption) == CL.ScanFrom(argv, 3, w', setOption) == CL.Stopped(w', [], false);
    var settings := w'.settings.(arguments := w'.settings.arguments + []);
    assert CL.Parse(argv, setOption) == CL.Parsed(settings, false, false);
    var g := createGlobal(settings.arguments);
    var r := eval(g, Source(code + [NUL], CommandLineName));
    assert BatchFrom(settings.scripts, 1, false, files, eval, r.0) == BatchResult(true, r.0, []);
    assert BatchFrom(settings.scripts, 0, false, files, eval, g) == BatchResult(false, r.0, Report(r.1, false));
    assert settings.arguments == [] && g == createGlobal([]);
    assert !settings.interactive && !settings.exitCode;
    assert Main(argv, setOption, files, input, createGlobal, eval).log == [] + Report(r.1, false) + [] + [];
  }

  /** `jsc -f a -f m -f b` where `a` exists and `m` does not: `a` is
      evaluated, `m` is reported, `b` is never loaded, and the exit code is
      3. */
  lemma MissingMiddleFile<S>(program: Text, a: Text, m: Text, b: Text, setOption: Text -> bool, files: FileSystem,
                             input: Text, createGlobal: seq<Text> -> S, eval: (S, SourceCode) -> (S, Completion))
    requires a in files && m !in files
    ensures var c := eval(createGlobal([]), Source(SL.Rewritten(Concat(files[a])), a)).1;
            Main([program, "-f", a, "-f", m, "-f", b], setOption, files, input, createGlobal, eval)
              == Outcome(3, Report(c, false) + [CouldNotOpen(m)], input)
  {
    var scripts := [CL.Script(true, a), CL.Script(true, m), CL.Script(true, b)];
    var settings := CL.Defaults.(scripts := scripts);
    ThreeFileFlags(program, a, m, b, setOption);
    var g := createGlobal([]);
    var pair := [CL.Script(true, a), CL.Script(true, m)];
    assert scripts == pair + [CL.Script(true, b)];
    MissingFileStopsTheBatch([CL.Script(true, a)], CL.Script(true, m), [CL.Script(true, b)], 0, false, files, eval, g);
    var src := Source(SL.Rewritten(Concat(files[a])), a);
    assert Load(pair[0], files) == Some(src);
    var r := eval(g, src);
    assert BatchFrom(pair, 1, false, files, eval, r.0) == BatchResult(false, r.0, [CouldNotOpen(m)]);
    assert BatchFrom(pair, 0, false, files, eval, g) == BatchResult(false, r.0, Report(r.1, false) + [CouldNotOpen(m)]);
    BatchOnly([program, "-f", a, "-f", m, "-f", b], settings, setOption, files, input, createGlobal, eval);
  }

  /** A parse without `-i`, `-x` or the options dump that collected scripts
      gives the batch's output and the exit code its verdict maps to. */
  lemma BatchOnly<S>(argv: seq<Text>, settings: CL.Settings, setOption: Text -> bool, files: FileSystem, input: Text,
                     createGlobal: seq<Text> -> S, eval: (S, SourceCode) -> (S, Completion))
    requires CL.Parse(argv, setOption) == CL.Parsed(settings, false, false)
    requires !settings.interactive && !settings.exitCode
    ensures var batch := BatchFrom(settings.scripts, 0, settings.dump, files, eval, createGlobal(settings.arguments));
            Main(argv, setOption, files, input, createGlobal, eval)
              == Outcome(if batch.success then 0 else 3, batch.log, input)
  {
    var batch := BatchFrom(settings.scripts, 0, settings.dump, files, eval, createGlobal(settings.arguments));
    assert [] + batch.log + [] + [] == batch.log;
  }

  /** `-f a -f m -f b` is parsed into three file scripts and nothing else. */
  lemma ThreeFileFlags(program: Text, a: Text, m: Text, b: Text, setOption: Text -> bool)
    ensures CL.Parse([program, "-f", a, "-f", m, "-f", b], setOption)
            == CL.Parsed(CL.Defaults.(scripts := [CL.Script(true, a), CL.Script(true, m), CL.Script(true, b)]),
                         false, false)
  {
    var argv: seq<Text> := [program, "-f", a, "-f", m, "-f", b];
    var w0 := CL.Walk(CL.Defaults, false, false);
    var w1 := w0.(settings := w0.settings.AddScript(CL.Script(true, a)));
    var w2 := w1.(settings := w1.settings.AddScript(CL.Script(true, m)));
    var w3 := w2.(settings := w2.settings.AddScript(CL.Script(true, b)));
    assert CL.StepAt(argv, 1, w0, setOption) == CL.Advance(2, w1);
    assert CL.StepAt(argv, 3, w1, setOption) == CL.Advance(2, w2);
    assert CL.StepAt(argv, 5, w2, setOption) == CL.Advance(2, w3);
    assert CL.ScanFrom(argv, 7, w3, setOption) == CL.Stopped(w3, [], false);
    assert CL.ScanFrom(argv, 5, w2, setOption) == CL.ScanFrom(argv, 7, w3, setOption);
    assert CL.ScanFrom(argv, 3, w1, setOption) == CL.ScanFrom(argv, 5, w2, setOption);
    assert CL.ScanFrom(argv, 1, w0, setOption) == CL.ScanFrom(argv, 3, w1, setOption);
  }
}
