# jsc shell harness, modelled in Dafny

`jsc` is the command-line shell of the JavaScriptCore engine. Around the
engine it does a small amount of work of its own:
- It parses its command line into an ordered list of scripts, a few flags and the trailing script arguments (`CommandLine::parseArguments`).
- It reads script files into a growable, NUL-terminated buffer and turns a leading `#!` into `//` (`fillBufferWithContentsOfFile`).
- It makes engine source code of a C string, with an ASCII fast path (`jscSource`).
- It runs the scripts in order (`runWithScripts`) and then, when asked and only after a successful batch, runs a read-eval-print loop (`runInteractive`).
- It maps the outcome to the exit code 0 or 3 (`jscmain`).
- It provides the host functions `print`, `readline` and the sampling-flag setters.

This project models those parts and proves what they do. The engine itself
is an oracle:
- `eval` takes the global object's state and a source, and returns the new state and a completion: a value or an exception, as the text `toString` gives.
- `createGlobal` builds the global object from the script arguments.
- `setOption` stands for `JSC::Options::setOption`.

The file system maps a file name to the chunks that successive `fread`
calls return; a name it lacks cannot be opened. Standard input is a `Stdin`
object whose `pending` bytes the harness's own `getchar` loops consume.
Everything the harness itself writes, to standard output or standard error,
is an `Event` in one ordered log. Evaluated code is an oracle on the
global state alone: what a script writes with `print`, or reads with
`readline()`, during a batch or a session is not threaded through
`eval` (see "Left out").

Modules:
- `Wrappers` (`wrappers.dfy`): `Option`.
- `CStrings` (`cstrings.dfy`):
  - C `char` as a byte, read as a signed `char`.
  - NUL-terminated reading (`CPrefix`, `Before`).
  - Concatenation of chunks.
- `CommandLineParser` (`command_line.dfy`):
  - The class `CommandLine` with the members of the source's class.
  - Its method `ParseArguments`, proved against the specification function `ParseFrom`.
  - The properties of the parse.
- `SourceLoader` (`source_loader.dfy`):
  - The vector `CharVector` over an `array`.
  - `FillBufferWithContentsOfFile` with its read loop, capacity arithmetic and the shebang rewrite.
- `JsSource` (`js_source.dfy`): `jscSource` with its ASCII scan.
- `LineReader` (`line_reader.dfy`): `getchar`, the line-collecting loop shared by `readline()` and the interactive loop, and `functionReadline`.
- `Natives` (`natives.dfy`): `print` and the sampling-flag filters.
- `Driver` (`driver.dfy`):
  - `runWithScripts`, `runInteractive` and `jscmain`.
  - The specification functions `BatchFrom`, `Repl` and `Main`.
  - Their properties and end-to-end scenarios.

The command line follows the code, not the comment at
`source/jsc.cpp:737`. Every token that is not one of the harness's own
flags reaches `setOption(&arg[2])`, whether or not it starts with `--`, so
a bare `foo.js` is first offered to the VM option parser. It becomes a file
script only when that parser rejects it. The one exception is a token of
fewer than two characters: the source hands the option parser a pointer
past that token's terminator, and the model takes the corrected behaviour
instead (see "Findings"), so such a token becomes a file script without
being offered to the option parser.

## Model

| member | source | states |
|---|---|---|
| CStrings.SignedChar | source/jsc.cpp:273-276 | a byte read through a signed `char` is positive exactly when it is in 1..127 |
| CStrings.CPrefixOfTerminated | source/jsc.cpp:811 | writing a NUL after some bytes makes every C-string reader see those bytes (up to their own first NUL) whatever follows in the buffer |
| CStrings.CPrefixAt | source/jsc.cpp:273-285 | the first NUL of a buffer, at index k, ends what `const char*` consumers read: exactly the k bytes before it |
| CommandLineParser.StepAt | source/jsc.cpp:678-745 | one pass of the loop body that goes on consumes one or two tokens, all within `argv`, and two exactly when the token is `-f`, `-e` or `-p`, the flags that take an argument |
| CommandLineParser.ScanFrom | source/jsc.cpp:677-746 | the flag loop leaves trailing tokens for the script arguments only when it stopped at `--`, and those tokens lie after its starting index |
| CommandLineParser.ScanTrailingIsSuffix | source/jsc.cpp:718-750 | when the flag loop stops at `--`, the tokens left for the script arguments are exactly the tokens after that `--`, up to the end of `argv` |
| CommandLineParser.ClassifyIsStrcmpChain | source/jsc.cpp:679-734 | the flag classification names a flag exactly when the token equals that flag's spelling (`-f`, `-e`, `-i`, `-d`, `-p`, `-s`, `-x`, `--`, `-h`/`--help`, `--options`, `--dumpOptions`), so it is the `strcmp` chain |
| CommandLineParser.ParseFrom | source/jsc.cpp:748-749 | a parse that ends normally with no script collected is interactive, whatever flags were given |
| CommandLineParser.CommandLine.constructor | source/jsc.cpp:128-135 | a fresh command line has all flags false and no scripts, arguments or profiler output |
| CommandLineParser.CommandLine.ParseArguments | source/jsc.cpp:671-758 | the method ends with the usage statement (help or failure) exactly where the specification parse does, and otherwise leaves the members and the dump/exit requests the specification parse computes from the old members |
| CommandLineParser.CommandLine.FlagLoop | source/jsc.cpp:673-746 | the first loop stops with the usage statement, or at the end of `argv`, or after `--`, leaving the members, the two locals and the index of the first unread token as the specification scan does |
| CommandLineParser.CommandLine.TakeArgument | source/jsc.cpp:678-745 | one pass of the loop body: each flag's member update, `-f`/`-e`/`-p` consuming the next token or exiting when there is none, `--` breaking with nothing changed, `-h`/`--help` exiting with help, other tokens offered to the option parser and otherwise appended as file scripts |
| CommandLineParser.CommandLine.AppendArguments | source/jsc.cpp:751-752 | every token from the index the first loop stopped at is appended to the script arguments, in order, and no other member changes |
| CommandLineParser.ScanSkip | source/jsc.cpp:677-746 | the flag loop at index |a|+j of `a + b` behaves as the loop at j of `b`: tokens before the cursor are never looked at again |
| CommandLineParser.CommandTokens | source/jsc.cpp:673 | the loop starts after `argv[0]`, the program name, which never matters |
| CommandLineParser.ScanConcat | source/jsc.cpp:677-746 | a prefix walked through without `--` or usage leaves a state from which the rest of `argv` is scanned on its own |
| CommandLineParser.ScanKeepsScripts | source/jsc.cpp:682-745 | scripts are only appended: those collected so far stay at the front, in order, and the loop never touches the script arguments |
| CommandLineParser.StepKeepsScripts | source/jsc.cpp:678-745 | one pass keeps the scripts collected so far at the front and leaves the script arguments alone |
| CommandLineParser.ScanWithoutSeparator | source/jsc.cpp:719-722 | without a `--` token, a flag loop that ends normally leaves no trailing tokens for the script arguments |
| CommandLineParser.ScriptFlagAppends | source/jsc.cpp:679-690 | `-f X` / `-e X` append exactly one script, a file for `-f` and inline code for `-e`, with argument X, after the scripts already collected and in front of later ones |
| CommandLineParser.MissingArgumentIsUsage | source/jsc.cpp:679-705 | `-f`, `-e` or `-p` as the last token ends the parse with the failing usage statement |
| CommandLineParser.SeparatorTakesTheRest | source/jsc.cpp:719-752 | after a `--` met as a flag, the remaining tokens become the script arguments, in order, and none becomes a script |
| CommandLineParser.NoSeparatorNoArguments | source/jsc.cpp:751-752 | with no `--` token in `argv`, the script arguments stay as they were (empty for a fresh command line) |
| CommandLineParser.UnmatchedTokenIsFileScript | source/jsc.cpp:736-745 | a token that is no harness flag and that the option parser rejects is appended as a file script, not reported as an error |
| CommandLineParser.AcceptedOptionAddsNoScript | source/jsc.cpp:738-741 | a token the option parser accepts adds no script and changes no member, for bare tokens as well as `--` ones |
| CommandLineParser.OptionSuffixAsWritten | source/jsc.cpp:736-738 | the string handed to the option parser starts within the token's characters and terminator exactly when the token has at least two characters; it is then the C string read from cell 2, and the token is its first two characters followed by that string |
| CommandLineParser.OptionLookupAgrees | source/jsc.cpp:736-741 | for every token of two characters or more, the model's option test asks the option parser exactly the string the source hands it |
| CommandLineParser.ShortTokenReadsPastTerminator | source/jsc.cpp:736-738 | the one-character token `a` is no harness flag and still reaches `setOption(&arg[2])`, whose argument lies past its terminator |
| CommandLineParser.ShortTokenIsFileScript | source/jsc.cpp:736-745 | in the model's flag loop, which takes the corrected lookup, a token shorter than two characters is appended as a file script without consulting the option parser |
| SourceLoader.CharVector.Resize | source/jsc.cpp:801-807 | `resize(n)` leaves n cells and keeps the first min(n, old size) of them |
| SourceLoader.CapacityForIsSmallest | source/jsc.cpp:799-807 | the capacity reached for n bytes is 1024 doubled some number of times, exceeds n, and is 1024 or at most 2n |
| SourceLoader.ExactCapacity | source/jsc.cpp:805-807 | the final capacity is determined by the size alone: a capacity above the size whose half is not is the one the doubling reaches |
| SourceLoader.RewrittenChangesOnlyShebang | source/jsc.cpp:813-814 | the rewrite keeps the length, changes positions 0 and 1 to `/` when the bytes start with `#!`, and changes no byte otherwise or elsewhere |
| SourceLoader.ShebangTestWithinContent | source/jsc.cpp:811-814 | the test on the two first cells, made after the terminator is written, decides exactly whether the file's bytes start with `#!`, also for files of 0 or 1 byte |
| SourceLoader.FillBufferWithContentsOfFile | source/jsc.cpp:790-817 | false, buffer untouched, when the file cannot be opened; otherwise true, the buffer's capacity is the one the doubling reaches, the rewritten file bytes fill its front and a NUL follows them |
| SourceLoader.ReadChunks | source/jsc.cpp:798-809 | the read loop appends every chunk at the current size; the size stays below the capacity, which is 1024 doubled e times and more than twice the size only when e is 0; the bytes read are the concatenated chunks |
| SourceLoader.ReadInto | source/jsc.cpp:804 | one `fread` puts its chunk at the current size and keeps the bytes before it |
| JsSource.AsciiPrefixLength | source/jsc.cpp:273-276 | the scan stops at the first byte that is NUL or negative as a signed `char`, every byte before it being in 1..127 |
| JsSource.StrLen | source/jsc.cpp:284 | `strlen` from a position counts the bytes up to the next NUL, none of them NUL |
| JsSource.JscSource | source/jsc.cpp:270-286 | the source holds the bytes before the terminator and takes the fast path exactly when all of them are ASCII; the slow path gets the ASCII prefix plus the rest, the whole C string |
| JsSource.SourceOfTerminated | source/jsc.cpp:273-276 | two buffers that agree up to a terminator make the same source |
| LineReader.Stdin.GetChar | source/jsc.cpp:451 | `getchar` returns EOF on exhausted input and otherwise the next byte's unsigned value, consuming it |
| LineReader.AfterLine | source/jsc.cpp:451-456 | reading a line from non-empty input consumes at least one byte, and what is left is a suffix of the input |
| LineReader.LineSplit | source/jsc.cpp:451-456 | the input is the line, its newline when there was one, and the rest: reading a line loses nothing |
| LineReader.LastLine | source/jsc.cpp:451-456 | input without a newline is read whole as the line, leaving nothing |
| LineReader.EndedLine | source/jsc.cpp:451-456 | the first newline ends the line and is consumed but not kept |
| LineReader.CollectLine | source/jsc.cpp:449-456 | the loop collects the bytes before the first newline or end of input, consumes that newline, and leaves the rest of the input unread |
| LineReader.FunctionReadline | source/jsc.cpp:447-459 | `readline()` returns the line as its NUL-terminated buffer reads, so excluding the newline and cut at a NUL byte, and consumes the line and its newline |
| Natives.SplitJoin | source/jsc.cpp:291-298 | joining arguments that hold no space with single spaces can be undone by cutting at the spaces |
| Natives.JoinSnoc | source/jsc.cpp:293-296 | joining one more part writes a space and that part after what was written |
| Natives.VisibleCutsAtNul | source/jsc.cpp:296 | what `%s` writes of an argument is a prefix of it with no NUL in it, and the whole argument when the argument holds no NUL |
| Natives.Print | source/jsc.cpp:291-298 | `print` writes its arguments, each as `%s` shows it, separated by single spaces, followed by one newline |
| Natives.Accepted | source/jsc.cpp:428-431 | the filter keeps exactly the values among the arguments that lie in 1..32 |
| Natives.SamplingFlags.SetSamplingFlags | source/jsc.cpp:426-434 | every argument in 1..32 is set, out-of-range ones are ignored, and only flag numbers are ever set |
| Natives.SamplingFlags.ClearSamplingFlags | source/jsc.cpp:436-444 | every argument in 1..32 is cleared, out-of-range ones are ignored, and only flag numbers remain set |
| Driver.LoadNamesItsSource | source/jsc.cpp:561-569 | a script has a source exactly when it is inline or its file exists; the source is named by the file, or `[Command Line]` for inline code, whose evaluated bytes are the argument up to its first NUL |
| Driver.Report | source/jsc.cpp:575-584 | the batch reports an exception exactly when the evaluation threw, and a normal completion writes something exactly when `-d` is set |
| Driver.BatchFrom | source/jsc.cpp:560-603 | the specification of the batch loop from script i on, whose properties `SuccessIffNothingFailed`, `MissingFileStopsTheBatch`, `EveryScriptEvaluated` and `BatchWritesNoPrompt` state: scripts in order, a script that does not load ends the batch with failure after naming its file, a loaded one is evaluated and reported, and success is the conjunction of normal completions |
| Driver.RunWithScripts | source/jsc.cpp:544-604 | the success flag, the global state and the output are those of the specification batch: scripts in order, a file that cannot be opened ends it at once with failure, success is false after any exception |
| Driver.LoadScript | source/jsc.cpp:561-569 | a file script is loaded through the buffer and made into source named by the file; an inline one is made into source named `[Command Line]`; a file that cannot be opened gives nothing |
| Driver.FailedStep | source/jsc.cpp:563-564 | a script that does not load ends the batch with failure, after reporting the file that could not be opened |
| Driver.EvaluatedStep | source/jsc.cpp:574-587 | a script that loads is evaluated, the verdict is and-ed with the absence of an exception, its report written, and the batch goes on |
| Driver.MissingFileStopsTheBatch | source/jsc.cpp:563-564 | a file script that cannot be opened makes the batch fail, and no later script affects the state, the output or the verdict |
| Driver.SuccessIffNothingFailed | source/jsc.cpp:575-603 | the batch succeeds exactly when it writes no exception and no file that could not be opened |
| Driver.EveryScriptEvaluated | source/jsc.cpp:560-588 | when every script loads, each one is evaluated, in order, also after an earlier one threw |
| Driver.BatchWritesNoPrompt | source/jsc.cpp:560-588 | the batch never writes the interactive prompt |
| Driver.RunInteractive | source/jsc.cpp:608-646 | the loop's global state, output and unread input are those of the specification session: prompt, read a line, stop on an empty one, evaluate the rest and write the value or the exception, newline at the end |
| Driver.Reply | source/jsc.cpp:639-642 | the session writes an exception exactly when the line threw and a value exactly when it completed normally |
| Driver.Repl | source/jsc.cpp:612-646 | every session writes at least two events, the first of them a prompt, and never leaves more input unread than it was given (the final newline is stated by `Driver.SessionEndsWithPrompt`) |
| Driver.ReplEnds | source/jsc.cpp:623-646 | an empty line ends the session after its prompt, with only the final newline after it |
| Driver.ReplStep | source/jsc.cpp:623-644 | a non-empty line is evaluated under the name `Interpreter`, its result written, and the session goes on with the input after the line |
| Driver.SessionEndsWithPrompt | source/jsc.cpp:623-646 | every session ends with the prompt that met the empty line and the final newline |
| Driver.SessionLeavesSuffix | source/jsc.cpp:624-634 | a session leaves a suffix of its input unread |
| Driver.BlankLineEndsSession | source/jsc.cpp:626-633 | a blank line ends the session at once: nothing is evaluated and the input after its newline is left unread |
| Driver.UsageCode | source/jsc.cpp:668 | the usage statement exits with 0 exactly for help, and never with the failed-batch code 3 |
| Driver.Main | source/jsc.cpp:760-788 | the exit code is 0, 1 or 3, and it is 1 exactly when the command line is malformed |
| Driver.JscMain | source/jsc.cpp:760-788 | the exit code, the output and the unread input are those of the specification main: usage statement, options dump, batch, the session only when interactive and successful, 0 or 3, and the `-x` line |
| Driver.ExitCodeFollowsBatch | source/jsc.cpp:773-777 | the exit code is 0 for help, 1 for a usage error and 0 after `--options`; otherwise it is 0 exactly when the batch succeeded and 3 exactly when it failed |
| Driver.InteractiveOnlyOnSuccess | source/jsc.cpp:773-775 | a prompt is written only when the exit code is 0, and always when the shell is interactive and the batch succeeded |
| Driver.BatchOnly | source/jsc.cpp:773-780 | without `-i`, `-x` or the options dump, with scripts collected, the output is the batch's and the exit code its verdict mapped to 0 or 3 |
| Driver.NoArgumentsNoInput | source/jsc.cpp:748-777 | `jsc` alone with empty standard input writes one prompt and a newline and exits with 0 |
| Driver.MissingScriptFile | source/jsc.cpp:743-777 | `jsc name` for a name that is neither a flag nor an option and no existing file reports the file and exits with 3, without a prompt |
| Driver.ThrowingInlineScript | source/jsc.cpp:685-777 | `jsc -e code` whose evaluation throws writes the exception and exits with 3, without a prompt |
| Driver.MissingMiddleFile | source/jsc.cpp:560-777 | `jsc -f a -f m -f b` with `a` present and `m` missing evaluates `a`, reports `m`, never loads `b`, and exits with 3 |
| Driver.ThreeFileFlags | source/jsc.cpp:679-684 | `-f a -f m -f b` parses into the three file scripts in order and changes nothing else |

## Left out

- Engine internals are oracles or absent: evaluation, `toString`, the stack property, `clearException`, the global object and its `JSGlobalData`, typed arrays, and the garbage-collector natives.
- The other host functions are not modelled: `debug`, `describe`, `jscStack`, `gc`, `version`, `run`, `load`, `checkSyntax`, `quit`, `preciseTime`, `StopWatch`, and the debug-build natives `dumpCallFrame` and `releaseExecutableMemory`. They are engine calls or floating-point clock reads.
- The GNU readline path of `runInteractive` and `add_history` are not modelled (an external library). Only the `getchar` fallback is.
- Signal handlers (`-s`), structured exception handling, and the platform start-up code in `main` are not modelled. `-s` is parsed and changes no member.
- Profiling is left out: creating the profiler database and saving it at the end, with its "could not save" message (foreign calls that do not change the exit code). `-p` sets the members only.
- The content of `Options::dumpAllOptions` and the effect of `dumpGeneratedBytecodes` on the engine are left out. They appear as the `OptionsDump` event and the `dump` member.
- Sampling start/stop and the sampling, regexp and counter dumps are left out (instrumentation).
- `SamplingFlags::setFlag`/`clearFlag` keep a 32-bit word in a header that is not part of this model. The flag set stands for its bits.
- printf formatting is reduced to events carrying the text. The `print` path models `%s` cutting at a NUL; the other events carry the text as `toString` gives it.
- The UTF-8 encoding of file names and values is not separately modelled. `toString` results, file names and argv entries are byte strings as given.
- `String::fromUTF8WithLatin1Fallback` is not modelled: the slow path of `jscSource` carries the bytes it is handed, not the decoded characters.
- `toNumber` and `static_cast<unsigned>` are not modelled: the sampling setters receive each argument as the unsigned value of the cast.
- `fread` short reads and `feof`/`ferror` are modelled only as a sequence of chunks that each fit the room left. A read error is treated like end of file, as the loop condition treats it.
- The model targets platforms where `char` is signed. On platforms where `char` is unsigned, the ASCII scan of `jscSource` goes on past bytes 128..255, and that case is not modelled.
- Process termination by `exit()` in `printUsageStatement` and for `--options` is a terminal result of the parse, not the end of a process.
- The exit status of `main` differs from `jscmain`'s only through the exception handler, which is left out.
- CommandLineParser.IsVmOption: a token shorter than two characters is never offered to the option parser, the corrected behaviour of the "Findings" row. The source reads past that token's terminator, which is undefined, so what it then does is not modelled. For longer tokens the lookup is the source's (`OptionLookupAgrees`), and so `ParseArguments`, `FlagLoop`, `TakeArgument` and `UnmatchedTokenIsFileScript` describe the source's loop for them.
- Evaluated code does not read the harness's standard input or write to its output log: `eval` maps the global state and a source to a new state and a completion, nothing more. A script that calls `print` writes lines the log does not hold. A script that calls `readline()` during the batch or a session consumes input that the model leaves to the interactive loop. So `RunInteractive` and `JscMain` describe the unread input exactly only when evaluated code never reads standard input, and their logs hold what the harness writes, not what scripts print.

## Findings

| source | as written | input that shows it | evidently intended | confidence | as-written member | corrected member |
|---|---|---|---|---|---|---|
| source/jsc.cpp:736-738 | every token that is no harness flag reaches `setOption(&arg[2])`; the comment assumes it starts with `--`, but bare tokens get there too, and a token of fewer than two characters makes `&arg[2]` point past its terminator | `jsc a` (or an empty argument `jsc ""`) | a token too short to carry an option is never offered to the option parser and becomes a file script | not executed | CommandLineParser.ShortTokenReadsPastTerminator | CommandLineParser.ShortTokenIsFileScript |
