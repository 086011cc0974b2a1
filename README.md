# openjudge in Dafny

openjudge judges a Python submission against test cases. The comparison judge (`TC_Judge`) reads the test inputs and expected outputs from numbered files. It runs the submission once per case and classifies each run as AC, WA, RE, TLE or MLE. The checker judge (`Checker_Judge`) reads only inputs and lets a second program, the checker, decide each case. The repository holds three versions of these judges:

- `src/openjudge/code_judge.py`, the current one.
- `src/openjudge/code_judge_debug.py`, a debugging copy.
- `openjudge/code_judge.py`, the earlier package.

It also holds a generator for empty test-case files (`openjudge/tc_generator.py`) and a problem-description builder (`src/openjudge/problem_builder.py`).

## What is modelled

- **Running a process is an input.** Starting the submission, the memory watchdog thread, `communicate`, the clock and the checker are not modelled. Their report is a value: `Verdict.Execution` for the submission, `Verdict.PreRun` for the throwaway run before it, and `Verdict.CheckerRun` for the checker. The checker's report is a function of the text it is fed, so the model shows which text reaches it. `Verdict.Trial` bundles the three. A byte stream is `Text(s)` when it decodes as UTF-8 and `Undecodable` otherwise. A decode failure lands in the catch-all RE, as it does where Python decodes.
- **Exceptions are values.** A call that raises returns `Raised(error)` (`Common.Outcome`). Each error carries the message the source gives it.
- **Files are a map** from path to content (`Loading.FileSystem`). Reading applies the universal newline translation of text-mode `open`. A missing file raises FileNotFoundError and an undecodable one raises a decode error. `load_TC` is not atomic: entries read before a failure stay appended. `Generator.TcGenerator.Generate` maps each file it creates to empty text.
- **String operations follow Python.** `str.strip` removes exactly the characters `str.isspace` accepts (`Text.IsSpace`). `replace('\r\n', '\n')` scans left to right. `zfill` leaves a string alone when the width is not larger, and `os.path.join` is the POSIX one.
- **Each judge is a class** whose fields are the Python attributes. `load_TC`, `run`, the setters, `reset` and `clear_results` update those fields. Each judge's `run` is a loop proved against the per-case verdict function.
- **Each version has its own comparison and cascade.** The current version compares `normalize_output(strip(x))`, and its checker judge asks whether the checker printed `1`. The debug version compares `normalize_newlines(strip(x))`. The earlier version compares `strip(x)` only.

`normalize_output` is not idempotent: `CurrentJudge.NormalizeOutputNotIdempotent` shows that `"a\r\r\nb"` normalises to `"a\r\nb"`, which normalises again to `"a\nb"`.

The f-strings at `src/openjudge/code_judge.py:315` and at `openjudge/code_judge.py:123` and `:296` nest double quotes. They parse only on Python 3.12 or later, and the model assumes such a Python.

## Model

| member | source | states |
|---|---|---|
| Common.CheckLimit | src/openjudge/code_judge.py:47-59 | a limit is accepted exactly when it is present and above zero; None is refused with "<name> cannot be None", anything else with "<name> must be over 0" |
| Common.CheckPresent | openjudge/tc_generator.py:8-11 | only None is refused, with "<name> cannot be None" |
| Text.IsSpace | src/openjudge/code_judge.py:136 | the whitespace `str.strip()` removes: space, tab, LF and CR are whitespace, and no ASCII letter or digit is |
| Text.LStrip | src/openjudge/code_judge.py:136 | the result is a suffix of the input that does not start with whitespace |
| Text.LStripDropsOnlySpace | src/openjudge/code_judge.py:136 | everything the left strip removes is whitespace |
| Text.RStrip | src/openjudge/code_judge.py:136 | the result is a prefix of the input that does not end with whitespace |
| Text.RStripDropsOnlySpace | src/openjudge/code_judge.py:136 | everything the right strip removes is whitespace |
| Text.Strip | src/openjudge/code_judge.py:136 | `str.strip()`: no whitespace at either end, never longer, no character that was not in the input |
| Text.StripFixesTrimmed | src/openjudge/code_judge.py:136 | a text that starts and ends with a non-space character is its own `strip()` |
| Text.StripIdempotent | src/openjudge/code_judge_debug.py:7-8 | stripping twice is stripping once |
| Text.RStripChar | src/openjudge/code_judge.py:8 | `rstrip(c)`: a prefix not ending in `c`, and every removed character is `c` |
| Text.ReplaceCrLf | src/openjudge/code_judge.py:8 | `replace('\r\n', '\n')` never lengthens the text |
| Text.ReplaceCrLfWithoutCr | src/openjudge/code_judge.py:8 | text without carriage returns is left as it is |
| Text.ReplaceCrLfUndoesWithCrLf | src/openjudge/code_judge.py:8 | replacing CRLF undoes writing every line feed as CRLF |
| Text.WithCrLf | src/openjudge/code_judge.py:8 | writing line feeds as CRLF never shortens the text |
| Text.LStripWithCrLf | src/openjudge/code_judge.py:136 | the left strip commutes with writing line feeds as CRLF |
| Text.RStripWithCrLf | src/openjudge/code_judge.py:136 | the right strip commutes with writing line feeds as CRLF |
| Text.StripWithCrLf | src/openjudge/code_judge.py:136 | `strip()` commutes with writing line feeds as CRLF |
| Naming.Pad | src/openjudge/code_judge.py:30 | `str(i).zfill(format)`: at least `format` characters long and never shorter than `str(i)` |
| Naming.Width | src/openjudge/code_judge.py:24-25 | a given format is used as it is; the default `len(str(tc_count))` is at least 1 and pads `tc_count` itself to exactly that width |
| Naming.Join | src/openjudge/code_judge.py:31-32 | `os.path.join`: the directory and the name, with at most one separator added between them |
| Naming.Decimal | src/openjudge/code_judge.py:25 | `str(n)`: never empty, and it starts with '0' only for 0 |
| Naming.ZFill | src/openjudge/code_judge.py:30 | `zfill(w)`: the result has length `max(w, len)` |
| Naming.ZFillKeepsString | src/openjudge/code_judge.py:30 | `zfill` only adds zeros in front: the result ends with the original string and everything before it is '0' |
| Naming.DecimalValue | src/openjudge/code_judge.py:30 | `str(n)` reads back as n |
| Naming.PadValue | openjudge/tc_generator.py:26 | a zero-padded index reads back as the index, whatever the width |
| Naming.PadInjective | openjudge/tc_generator.py:26 | distinct indices get distinct padded names at the same width |
| Naming.DecimalLengthMonotone | src/openjudge/code_judge.py:24-25 | a smaller number never has more digits |
| Naming.DefaultWidthIsUniform | src/openjudge/code_judge.py:24-30 | with the default width every index 1..count pads to the digit count of count |
| Naming.JoinEndsWithName | src/openjudge/code_judge.py:31-32 | `os.path.join(dir, name)` ends with `name` |
| Naming.JoinInjective | src/openjudge/code_judge.py:31-32 | joining one directory with two names gives the same path only for the same name |
| Naming.PairNamesDistinct | openjudge/tc_generator.py:26-28 | input names coincide only for the same index, output names likewise, and no input name is an output name |
| Naming.PairInputPaths | src/openjudge/code_judge.py:29-31 | path k is `test<pad(k+1)>.in` under the directory, for k < n |
| Naming.PairOutputPaths | src/openjudge/code_judge.py:29-32 | path k is `test<pad(k+1)>.out` under the directory, for k < n |
| Naming.BareInputPaths | src/openjudge/code_judge.py:214-216 | path k is `<pad(k+1)>.in` under the directory, with no prefix |
| Verdict.Failed | src/openjudge/code_judge.py:126-132 | a failing run is RE carrying its exit code and stderr; an undecodable stderr makes it the catch-all RE |
| Verdict.Cascade | src/openjudge/code_judge.py:104-157 | the fixed precedence: crash gives the catch-all RE (elapsed 0, no exit code), timeout gives TLE (elapsed = time limit, exit code -1), the watchdog flag gives MLE (exit code -1), a non-zero exit code or any stderr byte gives RE, an undecodable stdout gives the catch-all RE, and only then is the output judged |
| Verdict.JudgeCases | src/openjudge/code_judge.py:61-65 | the loop of every `run`: one result per case, in order, result k being the verdict on case k |
| Verdict.CountStatus | src/openjudge/code_judge.py:162-177 | a status count never exceeds the number of results |
| Verdict.CountsPartition | src/openjudge/code_judge.py:163-177 | the five status counts add up to the number of results |
| Loading.TranslateNewlines | src/openjudge/code_judge.py:34-35 | text-mode reading leaves no carriage return and never lengthens the text |
| Loading.TranslateKeepsLfText | src/openjudge/code_judge.py:34-35 | text without carriage returns is read back unchanged |
| Loading.TranslateUndoesWithCrLf | src/openjudge/code_judge.py:34-35 | a file written with CRLF line endings reads back as its LF text |
| Loading.TranslateLoneCr | src/openjudge/code_judge.py:34-35 | a carriage return not followed by a line feed reads as a line feed |
| Loading.ReadText | src/openjudge/code_judge.py:34-35 | a missing file raises FileNotFoundError, an undecodable one a decode error, otherwise the translated text |
| Loading.LoadCheck | src/openjudge/code_judge.py:20-27 | arguments pass exactly when path and count are present and count > 0, with the source's three messages in order |
| Loading.PairsLockstep | src/openjudge/code_judge.py:29-40 | the outputs read never outnumber the inputs, and the inputs lead by at most one; a complete read has one of each per case |
| Loading.PairsSucceedIff | src/openjudge/code_judge.py:29-40 | reading the pairs succeeds exactly when every file is there and decodes |
| Loading.PairsContents | src/openjudge/code_judge.py:34-40 | entry k is the content of the k-th input and output file |
| Loading.InputsSucceedIff | src/openjudge/code_judge.py:214-220 | reading the inputs succeeds exactly when every file is there and decodes, with one entry per file |
| Loading.InputsContents | src/openjudge/code_judge.py:218-220 | entry k is the content of the k-th input file |
| Loading.Finish | src/openjudge/code_judge.py:19-40 | a load ends normally exactly when nothing stopped it |
| Loading.LoadComparison | src/openjudge/code_judge.py:19-40 | the `load_TC` loop computes exactly what the specification ComparisonLoad says: the checks first, then the pairs in order up to the first failure |
| Loading.LoadPairs | src/openjudge/code_judge.py:29-40 | the reading loop appends input then output per case and stops at the first unreadable file, matching ReadPairs |
| Loading.LoadInputs | src/openjudge/code_judge.py:204-220 | the checker-mode `load_TC` computes exactly what the specification CheckerLoad says |
| Loading.LoadFiles | src/openjudge/code_judge.py:214-220 | the reading loop appends each input as it is read and stops at the first unreadable file, matching ReadInputs |
| Loading.ComparisonLoadSucceedsIff | src/openjudge/code_judge.py:19-40 | a load succeeds exactly when path and count pass the checks and both files of every case 1..count are readable; then it appends count inputs and count outputs, and in any case the lists stay in lockstep |
| Loading.ComparisonLoadContents | src/openjudge/code_judge.py:29-40 | entry k of the inputs and outputs is the content of `test<pad(k+1)>.in` / `.out` |
| Loading.CheckerLoadSucceedsIff | src/openjudge/code_judge.py:204-220 | a checker-mode load succeeds exactly when the checks pass and every `<pad>.in` is readable, and then appends count inputs |
| Loading.CheckerLoadContents | src/openjudge/code_judge.py:214-220 | entry k is the content of `<pad(k+1)>.in` |
| CurrentJudge.NormalizeOutput | src/openjudge/code_judge.py:7-8 | never lengthens its input and never ends in a carriage return |
| CurrentJudge.NormalizeOutputLineEndings | src/openjudge/code_judge.py:7-8 | for text without carriage returns, the CRLF form and the LF form both normalise to the text minus its trailing line feeds |
| CurrentJudge.NormalizeOutputNotIdempotent | src/openjudge/code_judge.py:7-8 | "a\r\r\nb" normalises to "a\r\nb", and that normalises to "a\nb" |
| CurrentJudge.NormalizeOutputFixesStrippedLfText | src/openjudge/code_judge.py:136 | on stripped text without carriage returns the normaliser changes nothing |
| CurrentJudge.MatchOnLfText | src/openjudge/code_judge.py:136 | on texts without carriage returns the comparison is equality after `strip()` |
| CurrentJudge.CrLfOutputMatches | src/openjudge/code_judge.py:136 | printing the expected text with CRLF line endings is accepted |
| CurrentJudge.OutputsMatch | src/openjudge/code_judge.py:136 | outputs equal after `strip()` always match |
| CurrentJudge.Compare | src/openjudge/code_judge.py:136-149 | AC exactly when the normalised stripped outputs are equal, WA otherwise, with the elapsed time and exit code |
| CurrentJudge.TcCascade | src/openjudge/code_judge.py:104-157 | timeout gives TLE with elapsed = time limit and exit code -1; MLE with -1; failure gives RE with its exit code; a clean run gives AC exactly when the outputs match, else WA |
| CurrentJudge.TcCycle | src/openjudge/code_judge.py:67-157 | as written: a pre-run that raises gives the catch-all RE, otherwise the cascade |
| CurrentJudge.PreRunTimeoutHidesTle | src/openjudge/code_judge.py:71-76 | a submission that times out in the pre-run ends as RE with no exit code where the cascade reports TLE |
| CurrentJudge.CheckerPayload | src/openjudge/code_judge.py:324 | the text meant for the checker is never longer than the output |
| CurrentJudge.CheckerVerdict | src/openjudge/code_judge.py:329-352 | AC exactly when the checker's decoded stdout normalises to "1", WA when it decodes to anything else, the catch-all RE when it raised or does not decode |
| CurrentJudge.CheckerCascade | src/openjudge/code_judge.py:290-352 | timeout gives TLE, the watchdog flag gives MLE, any unclean run gives RE/TLE/MLE; a clean run is decided by the checker's verdict on the normalised output |
| CurrentJudge.CheckerStepAsWritten | src/openjudge/code_judge.py:320-344 | as written: a non-empty payload always gives RE, and the checker decides AC or WA only for an empty payload, which it receives as "" |
| CurrentJudge.CheckerCycle | src/openjudge/code_judge.py:256-352 | as written: a pre-run that raises gives RE; a clean run whose normalised output is not empty gives the TypeError RE; otherwise as CheckerCascade |
| CurrentJudge.CheckerRejectsEveryOutput | src/openjudge/code_judge.py:322-327 | output "42\n" with a checker that accepts everything gives RE as written and AC as intended |
| CurrentJudge.TcJudge.constructor | src/openjudge/code_judge.py:11-17 | empty lists, no code path, time limit 2, memory limit 256 |
| CurrentJudge.TcJudge.LoadTC | src/openjudge/code_judge.py:19-40 | appends what ComparisonLoad reads to `TC_in` and `TC_out`, never removing earlier entries, and raises what stopped it |
| CurrentJudge.TcJudge.LoadCode | src/openjudge/code_judge.py:42-45 | None raises "code_path cannot be None" and changes nothing; otherwise the path is stored |
| CurrentJudge.TcJudge.SetTimeLimit | src/openjudge/code_judge.py:47-52 | None or a value not above 0 raises and leaves the limit; otherwise it is stored |
| CurrentJudge.TcJudge.SetMemoryLimit | src/openjudge/code_judge.py:54-59 | the same for the memory limit |
| CurrentJudge.TcJudge.Run | src/openjudge/code_judge.py:61-65 | results are rebuilt from empty, one per case in index order, result i the as-written `__run_cycle` (TcCycle, pre-run included) against `TC_out[i]`; IndexError exactly when there are more inputs than outputs |
| CurrentJudge.TcJudge.ClearResults | src/openjudge/code_judge.py:185-186 | results become empty |
| CurrentJudge.TcJudge.Reset | src/openjudge/code_judge.py:188-193 | lists, code path, time limit and results are cleared; the memory limit is untouched |
| CurrentJudge.CheckerJudge.constructor | src/openjudge/code_judge.py:197-202 | empty lists, no paths, no time limit, and no memory limit |
| CurrentJudge.CheckerJudge.LoadTC | src/openjudge/code_judge.py:204-220 | appends what CheckerLoad reads to `TC_in` and raises what stopped it |
| CurrentJudge.CheckerJudge.LoadChecker | src/openjudge/code_judge.py:222-225 | None raises "checker_path cannot be None"; otherwise the path is stored |
| CurrentJudge.CheckerJudge.LoadCode | src/openjudge/code_judge.py:227-230 | None raises "code_path cannot be None"; otherwise the path is stored |
| CurrentJudge.CheckerJudge.SetTimeLimit | src/openjudge/code_judge.py:232-237 | None or a value not above 0 raises and leaves the limit; otherwise it is stored |
| CurrentJudge.CheckerJudge.SetMemoryLimit | src/openjudge/code_judge.py:239-244 | the same for the memory limit |
| CurrentJudge.CheckerJudge.Run | src/openjudge/code_judge.py:246-254 | one result per input in order, each the as-written `run_cycle` (CheckerCycle); the 2.0 default never reaches the cycle and the time limit field is unchanged |
| CurrentJudge.CheckerJudge.ClearResults | src/openjudge/code_judge.py:380-381 | results become empty |
| CurrentJudge.CheckerJudge.Reset | src/openjudge/code_judge.py:383-388 | inputs, both paths, time limit and results are cleared; the memory limit is untouched |
| CurrentJudge.Tally | src/openjudge/code_judge.py:159-177 | the four counters equal the numbers of AC, WA, RE and TLE results, and together they miss exactly the MLE results |
| CurrentJudge.ResetThenRun | src/openjudge/code_judge.py:61-65 | after `reset`, `run` succeeds with no results |
| CurrentJudge.LoadThenRun | src/openjudge/code_judge.py:19-65 | after a successful load on a fresh judge, `run` succeeds with exactly count results |
| DebugJudge.NormalizeNewlines | src/openjudge/code_judge_debug.py:7-8 | never lengthens its input and leaves no whitespace at either end |
| DebugJudge.NormalizeNewlinesFixesStrippedLfText | src/openjudge/code_judge_debug.py:7-8 | on stripped text without carriage returns it changes nothing |
| DebugJudge.AgreesWithCurrentOnLfText | src/openjudge/code_judge_debug.py:144 | on texts without carriage returns the comparison is equality after `strip()` and agrees with the current version's |
| DebugJudge.CrLfOutputMatches | src/openjudge/code_judge_debug.py:144 | printing the expected text with CRLF line endings is accepted |
| DebugJudge.OutputsMatch | src/openjudge/code_judge_debug.py:144 | outputs equal after `strip()` always match |
| DebugJudge.Compare | src/openjudge/code_judge_debug.py:144-159 | AC exactly when the normalised stripped outputs are equal, WA otherwise |
| DebugJudge.TcCycle | src/openjudge/code_judge_debug.py:74-168 | no pre-run: timeout gives TLE (elapsed = limit, exit code -1); an undecodable stdout gives the catch-all RE before any other check; then MLE, RE, and AC exactly when the outputs match |
| DebugJudge.DecodesBeforeMemoryCheck | src/openjudge/code_judge_debug.py:124-133 | a killed run with undecodable stdout is RE here and MLE in the current version |
| DebugJudge.CheckerCompare | src/openjudge/code_judge_debug.py:322-344 | AC exactly when the checker's decoded output matches the submission's under this comparison; a checker that raises or does not decode gives the catch-all RE |
| DebugJudge.CheckerCycle | src/openjudge/code_judge_debug.py:263-352 | an unclean run gives RE, TLE or MLE; a clean run is compared with the checker's answer to the raw test input |
| DebugJudge.CheckerOnlyForCleanRuns | src/openjudge/code_judge_debug.py:304-320 | the checker's answer cannot change the verdict of a run that did not exit cleanly |
| DebugJudge.TcJudge.constructor | src/openjudge/code_judge_debug.py:11-17 | empty lists, no code path, time limit 2, memory limit 256 |
| DebugJudge.TcJudge.LoadTC | src/openjudge/code_judge_debug.py:19-42 | appends what ComparisonLoad reads and raises what stopped it |
| DebugJudge.TcJudge.LoadCode | src/openjudge/code_judge_debug.py:44-48 | None raises and changes nothing; otherwise the path is stored |
| DebugJudge.TcJudge.SetTimeLimit | src/openjudge/code_judge_debug.py:50-56 | None or a value not above 0 raises and leaves the limit; otherwise it is stored |
| DebugJudge.TcJudge.SetMemoryLimit | src/openjudge/code_judge_debug.py:58-64 | the same for the memory limit |
| DebugJudge.TcJudge.Run | src/openjudge/code_judge_debug.py:66-72 | one result per case in order, judged against the matching expected output; IndexError exactly when inputs outnumber outputs |
| DebugJudge.TcJudge.ClearResults | src/openjudge/code_judge_debug.py:184-186 | results become empty |
| DebugJudge.TcJudge.Reset | src/openjudge/code_judge_debug.py:188-194 | lists, code path, time limit and results are cleared; the memory limit is untouched |
| DebugJudge.CheckerJudge.constructor | src/openjudge/code_judge_debug.py:198-203 | empty lists, no paths, no time limit, and no memory limit |
| DebugJudge.CheckerJudge.LoadTC | src/openjudge/code_judge_debug.py:205-223 | appends what CheckerLoad reads (`<pad>.in`, no prefix) and raises what stopped it |
| DebugJudge.CheckerJudge.LoadChecker | src/openjudge/code_judge_debug.py:225-229 | None raises; otherwise the path is stored |
| DebugJudge.CheckerJudge.LoadCode | src/openjudge/code_judge_debug.py:231-235 | None raises; otherwise the path is stored |
| DebugJudge.CheckerJudge.SetTimeLimit | src/openjudge/code_judge_debug.py:237-243 | None or a value not above 0 raises and leaves the limit; otherwise it is stored |
| DebugJudge.CheckerJudge.SetMemoryLimit | src/openjudge/code_judge_debug.py:245-251 | the same for the memory limit |
| DebugJudge.CheckerJudge.Run | src/openjudge/code_judge_debug.py:253-261 | one result per input in order, each case's own input handed to the checker |
| DebugJudge.CheckerJudge.ClearResults | src/openjudge/code_judge_debug.py:368-370 | results become empty |
| DebugJudge.CheckerJudge.Reset | src/openjudge/code_judge_debug.py:372-378 | inputs, both paths, time limit and results are cleared; the memory limit is untouched |
| LegacyJudge.CycleAsWritten | openjudge/code_judge.py:64-151 | as written, every case is the catch-all RE (elapsed 0, no exit code) with the AttributeError of `subprocess.runs` |
| LegacyJudge.NothingAccepted | openjudge/code_judge.py:68-73 | a submission printing exactly the expected output gets RE as written and AC as intended |
| LegacyJudge.AgreesWithCurrentOnLfText | openjudge/code_judge.py:130 | on texts without carriage returns the strip comparison agrees with the current version's |
| LegacyJudge.InteriorCrLfRejected | openjudge/code_judge.py:130 | "a\r\nb" against "a\nb" is WA here and AC in the current version |
| LegacyJudge.OutputsMatch | openjudge/code_judge.py:130 | whatever this comparison accepts, the comparison of src/openjudge/code_judge.py accepts too |
| LegacyJudge.Compare | openjudge/code_judge.py:130-143 | AC exactly when the stripped outputs are equal, WA otherwise |
| LegacyJudge.TcCascade | openjudge/code_judge.py:98-151 | timeout gives TLE, then MLE, then RE; a clean run gives AC exactly when the stripped outputs are equal |
| LegacyJudge.CheckerCompare | openjudge/code_judge.py:303-325 | AC exactly when the stripped submission output equals the stripped checker output; a checker that raises or does not decode gives the catch-all RE |
| LegacyJudge.CheckerCascade | openjudge/code_judge.py:271-333 | an unclean run gives RE, TLE or MLE; a clean run is compared with the checker's answer to the raw input |
| LegacyJudge.TcJudge.constructor | openjudge/code_judge.py:8-14 | empty lists, no code path, time limit 2, memory limit 256 |
| LegacyJudge.TcJudge.LoadTC | openjudge/code_judge.py:16-37 | appends what ComparisonLoad reads and raises what stopped it |
| LegacyJudge.TcJudge.LoadCode | openjudge/code_judge.py:39-42 | None raises; otherwise the path is stored |
| LegacyJudge.TcJudge.SetTimeLimit | openjudge/code_judge.py:44-49 | None or a value not above 0 raises and leaves the limit; otherwise it is stored |
| LegacyJudge.TcJudge.SetMemoryLimit | openjudge/code_judge.py:51-56 | the same for the memory limit |
| LegacyJudge.TcJudge.Run | openjudge/code_judge.py:58-62 | one result per case in order, each the as-written cycle (CycleAsWritten, so RE); IndexError exactly when inputs outnumber outputs |
| LegacyJudge.TcJudge.ClearResults | openjudge/code_judge.py:166-167 | results become empty |
| LegacyJudge.TcJudge.Reset | openjudge/code_judge.py:169-174 | lists, code path, time limit and results are cleared; the memory limit is untouched |
| LegacyJudge.CheckerJudge.constructor | openjudge/code_judge.py:178-183 | empty lists, no paths, no time limit, and no memory limit |
| LegacyJudge.CheckerJudge.LoadTC | openjudge/code_judge.py:185-201 | appends what CheckerLoad reads and raises what stopped it |
| LegacyJudge.CheckerJudge.LoadChecker | openjudge/code_judge.py:203-206 | None raises; otherwise the path is stored |
| LegacyJudge.CheckerJudge.LoadCode | openjudge/code_judge.py:208-211 | None raises; otherwise the path is stored |
| LegacyJudge.CheckerJudge.SetTimeLimit | openjudge/code_judge.py:213-218 | None or a value not above 0 raises and leaves the limit; otherwise it is stored |
| LegacyJudge.CheckerJudge.SetMemoryLimit | openjudge/code_judge.py:220-225 | the same for the memory limit |
| LegacyJudge.CheckerJudge.Run | openjudge/code_judge.py:227-235 | one result per input in order, each the as-written cycle (CycleAsWritten, so RE); the 2.0 default never reaches the cycle |
| LegacyJudge.CheckerJudge.ClearResults | openjudge/code_judge.py:348-349 | results become empty |
| LegacyJudge.CheckerJudge.Reset | openjudge/code_judge.py:351-356 | inputs, both paths, time limit and results are cleared; the memory limit is untouched |
| Generator.GenerateCheck | openjudge/tc_generator.py:17-23 | generation may go ahead exactly when the count is present and above zero and the path is set, with the three messages in that order |
| Generator.TcGenerator.constructor | openjudge/tc_generator.py:4-6 | no path and no checker path |
| Generator.TcGenerator.SetTCPath | openjudge/tc_generator.py:8-11 | None raises "TC_path cannot be None" and changes nothing; otherwise the path is stored |
| Generator.TcGenerator.SetTCChecker | openjudge/tc_generator.py:13-14 | any value, None included, is stored |
| Generator.TcGenerator.Generate | openjudge/tc_generator.py:16-34 | the checks raise before any file exists; without a width the first `zfill` raises TypeError with nothing created; otherwise both files of every case 1..count exist and are empty, and no other file changes; the generator's fields are not changed |
| Generator.CreateBlankCases | openjudge/tc_generator.py:25-34 | after the loop, both files of every case 1..count exist and are empty, the set of files is the old one plus exactly those paths, and every other file is unchanged |
| Generator.GenerateThenLoad | openjudge/tc_generator.py:25-34 | when both files of every case 1..count exist and are empty, as generation leaves them, a comparison-mode load with the same directory, count and width succeeds with count empty inputs and count empty outputs |
| Generator.GeneratedPathsDistinct | openjudge/tc_generator.py:26-28 | the 2 × count generated paths are pairwise distinct |
| Generator.GenerateThenJudgeLoads | openjudge/tc_generator.py:16-34 | generating then loading with the current comparison judge gives count empty cases; a count not above zero raises "TC_count must be over zero" |
| Problem.ProblemBuilder.constructor | src/openjudge/problem_builder.py:9-26 | empty texts and tags, TEST_CASE, no cases, no paths, 2.0 s and 256 MB |
| Problem.ProblemBuilder.SetTitle | src/openjudge/problem_builder.py:28-30 | stores the title, changes nothing else and returns the builder |
| Problem.ProblemBuilder.SetDescription | src/openjudge/problem_builder.py:32-34 | stores the description and returns the builder |
| Problem.ProblemBuilder.SetInputDescription | src/openjudge/problem_builder.py:36-38 | stores the input description and returns the builder |
| Problem.ProblemBuilder.SetOutputDescription | src/openjudge/problem_builder.py:40-42 | stores the output description and returns the builder |
| Problem.ProblemBuilder.SetConstraints | src/openjudge/problem_builder.py:44-46 | stores the constraints and returns the builder |
| Problem.ProblemBuilder.SetExamples | src/openjudge/problem_builder.py:48-50 | stores the examples and returns the builder |
| Problem.ProblemBuilder.SetDifficulty | src/openjudge/problem_builder.py:52-54 | stores the difficulty and returns the builder |
| Problem.ProblemBuilder.SetTags | src/openjudge/problem_builder.py:56-58 | replaces the tag list and returns the builder |
| Problem.ProblemBuilder.AddTag | src/openjudge/problem_builder.py:60-62 | appends exactly one tag at the end and returns the builder |
| Problem.ProblemBuilder.SetAuthor | src/openjudge/problem_builder.py:64-66 | stores the author and returns the builder |
| Problem.ProblemBuilder.SetJudgeType | src/openjudge/problem_builder.py:68-70 | changes only the judge type; count and paths survive the switch |
| Problem.ProblemBuilder.SetTCCount | src/openjudge/problem_builder.py:72-76 | raises unless the type is TEST_CASE and then leaves the count; otherwise stores it and returns the builder |
| Problem.ProblemBuilder.SetTCPath | src/openjudge/problem_builder.py:78-82 | raises unless the type is TEST_CASE, with the message naming `set_TC_count`, and leaves the path; otherwise stores it |
| Problem.ProblemBuilder.SetCheckerPath | src/openjudge/problem_builder.py:84-88 | raises unless the type is CHECKER and leaves the path; otherwise stores it |
| Problem.ProblemBuilder.SetTimeLimit | src/openjudge/problem_builder.py:90-92 | stores any value without a check |
| Problem.ProblemBuilder.SetMemoryLimit | src/openjudge/problem_builder.py:94-96 | stores any value without a check |
| Problem.DescribeTestCaseProblem | src/openjudge/problem_builder.py:28-82 | a chain of setters on a new builder sets title, tag, count and path, and every guarded call succeeds |
| Problem.DescribeCheckerProblem | src/openjudge/problem_builder.py:68-88 | after switching to CHECKER, `set_TC_count` raises and leaves the defaults, and `set_checker_path` succeeds |

## Left out

- Starting processes, the watchdog thread, `psutil`, `communicate` and the clock are not modelled; what they report is an input. The model does not restrict these reports: with no time limit `communicate` never times out, and with no memory limit the watchdog never fires, but an `Execution` may still say so.
- The race between the watchdog thread and the main thread, and the AttributeError that the never-initialised `memory_limit` of `Checker_Judge` raises inside the watchdog thread, are concurrency. That error only stops the watchdog, which the constructors' `memoryLimit == None` reflects.
- Elapsed times are copied from the report; `time.perf_counter` arithmetic is not modelled.
- Console output is not modelled: the `[DEBUG]` prints and the text `print_results` prints. Only the four counters of the current version are modelled (`CurrentJudge.Tally`). The debug and earlier `print_results` only print.
- `input_data.encode('utf-8')` is taken to succeed, since text read from a file always encodes.
- Files are a map; directories, permissions and platform path rules are not modelled. `os.path.join` is the POSIX one.
- Generator.TcGenerator.Generate: creating a file is taken to succeed, so an unwritable directory that would stop generation part-way is not modelled.
- Problem.ProblemBuilder.SetTags: stores a copy of the list. The source stores the caller's list itself, so later changes to that list show in the builder; that aliasing is not modelled.
- Python setters accept values of any type; the model gives each field its documented type (text, whole number, real, judge type).
- `Problem.ProblemBuilder.Build` has no contract: the source's `build` is `pass`.
- openjudge/problem_builder.py is not part of this model; it is an older copy of the builder with plain setters.
- tests/test.py is not part of this model; it is a driver with fixed local paths.
- The `time_limit` argument of `Checker_Judge.run_cycle` is never read by the source, so the cycle functions take the field's value only.
- Every `run` loop judges its cases with the cycle as written, bugs included. The corrected cycles named under Findings are separate functions that no `run` uses.

## Findings

| source | as written | input that shows it | evidently intended | confidence | as-written member | corrected member |
|---|---|---|---|---|---|---|
| src/openjudge/code_judge.py:71-76 | the throwaway `subprocess.run(..., timeout=self.time_limit)` is outside the `TimeoutExpired` handler, so a slow submission's timeout lands in the catch-all RE | a submission that runs past the time limit | TLE with elapsed = time limit and exit code -1 | not executed | CurrentJudge.PreRunTimeoutHidesTle | CurrentJudge.TcCascade |
| src/openjudge/code_judge.py:322-327 | the checker's `input` is a `str` while the pipe is in binary mode, so every non-empty payload raises TypeError and the case is RE | output "42\n" with a checker that prints 1 for everything | the checker reads the output and its answer decides AC or WA | not executed | CurrentJudge.CheckerRejectsEveryOutput | CurrentJudge.CheckerCascade |
| openjudge/code_judge.py:68-73 | `subprocess.runs` does not exist, so every case ends as RE with an AttributeError | a submission that prints exactly the expected output | the cascade decides; AC for that submission | not executed | LegacyJudge.NothingAccepted | LegacyJudge.TcCascade |
