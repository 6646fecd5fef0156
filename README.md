# A model of the judging engine of an online judge

The worker of this online judge takes a job from a queue. A job holds a
language, the user's code, reference code or expected outputs, typed
test-case data and the function's signature. The worker turns the job into
a verdict record (`ExecutionResult`), running every program inside the
`isolate` sandbox. This project models that engine and proves properties of
the model. It covers:

- the six input schemas and `validateField`, which check and rewrite one
  test-case line;
- the language handlers, which wrap the user's function in a program that
  reads its parameters, calls it and prints a marker and then the answer;
- `compileCode` and `executeCode`, which classify what the sandbox reports
  (its `key:value` meta file and standard error);
- `executeTestCase`, which checks the printed marker and records one
  answer;
- `handleError` and the `ExecutionError` exception;
- `validateTestCases` and `processTestCases`, and the two jobs built on
  them:
  - "run" (`processSubmission`) compares the user's program with the
    reference program on every test case;
  - "submit" (`processAnswer`) compares the user's program with stored
    expected outputs and stops at the first failure;
- the earlier single-file engine `worker/src/executor.ts`, modelled on its
  own. Lemmas state where it parts from the later one.
- the backend's part:
  - the paginated, cached problem list (`getProblems`, `getProblemCount`,
    `getPageProblems`);
  - how `interpretSolution` and `submitSolution` assemble the job they
    queue.

The sandbox is an oracle `sb: Sandbox`, which maps each call to the report
it leaves. The call is a compile or a run, for the user's or the reference
program, and holds the program text or the test case. Its report is
`Completed(output, meta)` or `Failed(message, meta, stderr)`. The rest is
ordinary Dafny, laid out as follows:

- the JavaScript built-ins the engine relies on (`trim`, `split`, `join`,
  `parseInt`, `String(n)`, `JSON.parse`, `JSON.stringify`, `length` in
  UTF-16 units) are functions of their own in `strings.dfy`, `numbers.dfy`
  and `json.dfy`;
- the mutable `ExecutionResult` is a class whose methods are proved
  against functions of its `Snapshot()`;
- the loops of the source are methods with loop invariants, proved against
  recursive functions;
- the properties of those functions are lemmas.

Behaviours of the code that are easy to overlook, each modelled as written:

- In the later engine's "run" mode a mismatching answer is reported
  through `handleError` with status `WrongAnswer` (`worker/src/executor/process.ts:111-121`).
  So `WrongAnswer` can be a "run" job's final status. The legacy engine
  never gives a "run" job that status (`LegacyLemmas.WrongAnswerContrast`).
- The line-count error of `validateTestCases` carries no test-case number;
  the other validation errors each name the test case they are about.
- A "submit" job built by the backend carries no `submissionId`
  (`backend/src/controllers/problemsController.ts:129-135` sets none), and
  `processAnswer` copies `submission.submissionId!` as it is. The model
  keeps the id as an `Option`, so such a job's record has the id `None`.
- The C++ handler prints `-->` rather than the marker the judge splits on
  (see Findings).

## Model

| member | source | states |
|---|---|---|
| Strings.TrimStart | worker/src/schemas/schema.ts:54 | the result is a suffix of the input; every character dropped is JavaScript white space, and the first one kept is not |
| Strings.TrimEnd | worker/src/schemas/schema.ts:54 | the result is a prefix of the input; every character dropped is white space, and the last one kept is not |
| Strings.Trim | worker/src/schemas/schema.ts:54 | `trim()` is a contiguous slice of its input whose ends are not white space, and everything cut away before and after it is white space |
| Strings.TrimIdempotent | worker/src/executor/execute.ts:177 | trimming twice is trimming once |
| Strings.TrimKeepsOut | worker/src/schemas/schema.ts:54 | trimming adds no character that was not in the input |
| Strings.BlankIffAllWhitespace | worker/src/executor/process.ts:19 | `!line.trim()` holds exactly when every character is white space |
| Strings.KeepNonBlank | worker/src/executor/process.ts:19 | the filter keeps no blank line and never lengthens the list |
| Strings.KeepNonBlankAppend | worker/src/executor/process.ts:19 | the filter of a concatenation is the concatenation of the filters, so lines are kept in their order |
| Strings.KeepNonBlankSingle | worker/src/executor/process.ts:19 | a single line is kept exactly when it is not blank |
| Strings.KeepNonBlankMembers | worker/src/executor/process.ts:19 | a line is in the result exactly when it is a non-blank line of the input |
| Strings.KeepNonBlankAll | worker/src/executor/process.ts:19 | filtering a list with no blank line returns it unchanged |
| Strings.FindFrom | worker/src/executor/execute.ts:157 | the first occurrence of the separator at or after a position, or none at all |
| Strings.Split | worker/src/executor/process.ts:19 | `split(sep)` gives at least one piece |
| Strings.JoinSplit | worker/src/executor/process.ts:63 | joining the pieces of a split with the same separator gives the text back |
| Strings.SplitPiecesFree | worker/src/executor/execute.ts:157 | no piece of a split contains the separator |
| Strings.SplitJoinChar | worker/src/schemas/schema.ts:28 | splitting on a one-character separator undoes joining with it when no part holds that character |
| Strings.SplitTwoIffOnce | worker/src/executor/execute.ts:157-158 | a split on a separator that cannot overlap itself has two pieces exactly when the separator occurs once, and the pieces are the text before and after it |
| Strings.Utf16Length | worker/src/schemas/schema.ts:74 | `length` counts UTF-16 units: between one and two per code point |
| Strings.Utf16LengthOne | worker/src/schemas/schema.ts:64-66 | a string has length 1 exactly when it is one code point of the basic plane |
| Strings.AsciiUpper | worker/src/executor/execute.ts:140 | `toUpperCase()` maps each character on its own and keeps the length |
| Numbers.NatToDecimal | worker/src/schemas/schema.ts:12 | the decimal digits of a number, with no leading zero |
| Numbers.IntToDecimal | worker/src/schemas/schema.ts:12 | `toString()` of an integer is digits, with a minus sign first for a negative |
| Numbers.NatToDecimalValue | worker/src/schemas/schema.ts:12 | the rendered digits denote the number rendered |
| Numbers.ParseIntOfDecimal | worker/src/schemas/schema.ts:4-12 | `parseInt` reads back exactly the integer `toString` wrote |
| Numbers.DecimalHasNoSpace | worker/src/schemas/schema.ts:28 | a rendered integer holds no space, comma or newline |
| JsonText.ParseNumber | worker/src/schemas/schema.ts:17 | a JSON number is read past at least one character and yields a number |
| JsonText.ReadEscape | worker/src/schemas/schema.ts:43 | every two-character escape is read as the character it names; `\uXXXX` outside the surrogate range is read as that code point; a six-character read is such a `\uXXXX`; any longer read is a surrogate pair, twelve characters, encoding a supplementary character as UTF-16 does |
| JsonText.ParseString | worker/src/schemas/schema.ts:43 | a string literal is read past its closing quote |
| JsonText.ParseValue | worker/src/schemas/schema.ts:17 | a JSON value is read past at least one character |
| JsonText.ParseArray | worker/src/schemas/schema.ts:17 | an array literal yields an array |
| JsonText.ParseObject | worker/src/schemas/schema.ts:17 | an object literal yields an object, which the schemas then reject as not an array |
| JsonText.ParseRenderedString | worker/src/schemas/schema.ts:43 | `JSON.parse` reads back the string `JSON.stringify` escaped |
| JsonText.ParseRenderedInteger | worker/src/schemas/schema.ts:17 | `JSON.parse` reads back a rendered integer and stops at the next comma or bracket |
| JsonText.ParseRenderedArray | worker/src/schemas/schema.ts:17 | `JSON.parse(JSON.stringify(vs))` gives back `vs` for an array of integers and strings |
| Schema.IntegerSchema | worker/src/schemas/schema.ts:3-13 | accepted exactly when `parseInt` finds an integer; otherwise the error "Invalid integer" |
| Schema.IntegerSchemaCanonical | worker/src/schemas/schema.ts:4-12 | the rewritten line holds the same integer and passes unchanged a second time |
| Schema.IntegerSchemaOfDecimal | worker/src/schemas/schema.ts:4-12 | every integer's decimal text passes unchanged |
| Schema.IntegerArraySchema | worker/src/schemas/schema.ts:15-36 | a rejection is one of the schema's two messages |
| Schema.IntegerArraySchemaAccepts | worker/src/schemas/schema.ts:17-35 | accepted exactly when the text parses to an array of integers; the "format" error exactly when it does not parse |
| Schema.IntegerArrayTokens | worker/src/schemas/schema.ts:28 | the space-joined output splits back into the decimal texts of the items, each of which `parseInt` reads as its item |
| Schema.IntegerArrayOfList | worker/src/schemas/schema.ts:15-36 | the line `JSON.stringify(xs)` becomes the decimal texts of `xs` joined by spaces, and they split back into them |
| Schema.StringSchema | worker/src/schemas/schema.ts:38 | any text passes unchanged |
| Schema.StringArraySchema | worker/src/schemas/schema.ts:41-62 | a rejection is one of the schema's two messages |
| Schema.StringArraySchemaAccepts | worker/src/schemas/schema.ts:41-62 | accepted exactly when the text parses to an array of strings; the "format" error exactly when it does not parse |
| Schema.StringArrayOfList | worker/src/schemas/schema.ts:41-62 | the line `JSON.stringify(ts)` becomes the trimmed strings joined by spaces; with no spaces inside, they split back |
| Schema.CharacterSchema | worker/src/schemas/schema.ts:64-66 | accepted, unchanged, exactly when the text has JavaScript length 1; else "Must be a single character" |
| Schema.CharacterArraySchema | worker/src/schemas/schema.ts:69-90 | a rejection is one of the schema's two messages |
| Schema.CharacterArraySchemaAccepts | worker/src/schemas/schema.ts:69-90 | accepted exactly when the text parses to an array of strings each holding one basic-plane code point; the "format" error exactly when it does not parse |
| Schema.AllCharactersIff | worker/src/schemas/schema.ts:72-81 | an item passes the `every` check exactly when it is a string of one basic-plane code point |
| Schema.CharacterArrayOfList | worker/src/schemas/schema.ts:69-90 | the line `JSON.stringify(cs)` becomes the characters joined by spaces, and they split back when none is a space |
| Validator.ParseTag | worker/src/schemas/validator.ts:14-32 | a recognised tag's name is the stored name |
| Validator.ParseTagIff | worker/src/schemas/validator.ts:14-35 | exactly the six names are recognised, each as its own tag |
| Validator.ValidateField | worker/src/schemas/validator.ts:11-42 | an unknown tag fails with "Unsupported requiredType from database: …"; a known one fails with "Validation failed for <tag>: …" or returns the schema's rewritten line |
| Validator.ValidateStringIdentity | worker/src/schemas/validator.ts:21-23 | a `string` line always passes unchanged |
| Validator.ValidateScalarIdempotent | worker/src/schemas/validator.ts:37-41 | for the scalar tags, a rewritten line passes unchanged a second time |
| Validator.ValidateFailureNamesTag | worker/src/schemas/validator.ts:37-40 | a schema failure names the tag and carries the schema's message |
| Results.NewExecutionError | worker/src/utils/error.ts:3-13 | the test-case number defaults to 0 and the input to "" |
| Results.ThrownStatus | worker/src/utils/error.ts:21 | an exception that is not an `ExecutionError` gives status Error |
| Results.ErrorText | worker/src/utils/error.ts:22 | the message is the exception's own, or "Unknown error" when it is empty |
| Results.Initial | worker/src/executor/process.ts:166-180 | a job starts with its own ids, Success, empty arrays, no errors and zero counts |
| Results.AfterError | worker/src/utils/error.ts:15-36 | `handleError` sets status and error; with a test-case number it appends exactly one entry and sets the last test case, without one it leaves both alone; the arrays and counts stay as they were |
| Results.AfterErrorFails | worker/src/utils/error.ts:21-24 | an exception that never carries Success leaves a failing status, so every recorded error goes with a failure |
| Results.AfterErrorsCount | worker/src/utils/error.ts:25-27 | over a series of calls, `errors` grows by one entry per call that names a test case |
| Results.ExecutionResult.constructor | worker/src/executor/process.ts:166-180 | the new record is the initial one |
| Results.ExecutionResult.PushEntries | worker/src/executor/execute.ts:178-183 | one push onto each per-test array, and nothing else changes |
| Results.ExecutionResult.SetTotal | worker/src/executor/process.ts:47 | only the total changes |
| Results.ExecutionResult.PushExpected | worker/src/executor/process.ts:110 | only the expected answers grow, by one |
| Results.ExecutionResult.CountCorrect | worker/src/executor/process.ts:122 | only the correct count changes, by one |
| Results.ExecutionResult.RecordMismatch | worker/src/executor/process.ts:133-134 | only the last test case changes: it gains the output and the expected output |
| Results.ExecutionResult.HandleError | worker/src/utils/error.ts:15-36 | the record afterwards is `AfterError` of the record before |
| Isolate.ColonSplits | worker/src/executor/compile.ts:56-58 | a meta line with a colon splits into at least two pieces |
| Isolate.MetaKey | worker/src/executor/compile.ts:58 | the key of a meta line holds no colon |
| Isolate.MetaValue | worker/src/executor/compile.ts:58 | the value of a meta line (`split(":", 2)`) holds no colon |
| Isolate.MetaLastWins | worker/src/executor/compile.ts:70-78 | a key is in the dictionary exactly when some line sets it, and the last such line gives its value |
| Isolate.MetaEntriesColonFree | worker/src/executor/compile.ts:70-78 | no key or value of the dictionary holds a colon |
| Isolate.OrElse | worker/src/executor/compile.ts:100 | `a \|\| b` yields `a` when it is a non-empty string, else `b` |
| Compile.ClassifyCompileFailure | worker/src/executor/compile.ts:65-109 | a failed compilation is CompilationError, Timeout or MemoryLimitExceeded, always with a message |
| Compile.CompileCode | worker/src/executor/compile.ts:13-110 | Success exactly when there is no compile command or the sandbox call completed, and then there is no error |
| Compile.NoCompileCommandSucceeds | worker/src/executor/compile.ts:20-22 | without a compile command the sandbox is never consulted |
| Compile.CompileTimeout | worker/src/executor/compile.ts:87-89 | status code TO gives Timeout with "Compilation time limit exceeded", whatever else the report says |
| Compile.CompileMemoryFirst | worker/src/executor/compile.ts:90-101 | on RE, SG or XX the memory test decides between MemoryLimitExceeded and CompilationError |
| Compile.CompileNeedsMeta | worker/src/executor/compile.ts:106-108 | without a readable meta file the verdict is CompilationError with the thrown message or "Compilation failed" |
| Compile.CompileMemoryByRss | worker/src/executor/compile.ts:93 | a peak resident size at or over 524288 KB on an abnormal exit is MemoryLimitExceeded |
| Execute.ClassifyRunFailure | worker/src/executor/execute.ts:73-119 | a failed run is Error, Timeout, RuntimeError or MemoryLimitExceeded, with empty output and a message |
| Execute.ExecuteCode | worker/src/executor/execute.ts:16-120 | Success exactly when the sandbox call completed, with its output and no error; meta is read only for the user's program |
| Execute.RunMemoryFirst | worker/src/executor/execute.ts:97-108 | on RE, SG or XX the memory test decides between MemoryLimitExceeded and RuntimeError |
| Execute.RunTimeoutIff | worker/src/executor/execute.ts:94-96 | a run is a Timeout exactly when the report's status code is TO, and then its message is "Time limit exceeded" |
| Execute.RunMemoryByRss | worker/src/executor/execute.ts:100 | a peak resident size at or over 256000 KB on an abnormal exit is MemoryLimitExceeded |
| Execute.MarkerNoSelfOverlap | worker/src/executor/execute.ts:157 | two occurrences of `{{CODE_ANSWER}}` cannot overlap |
| Execute.RunOutcome | worker/src/executor/execute.ts:138-185 | an error is an `ExecutionError` carrying the case number and input, with the run's own status when the run failed |
| Execute.RunOutcomeFails | worker/src/executor/execute.ts:138-175 | the error of a test case never carries Success |
| Execute.RunOutcomeSentinel | worker/src/executor/execute.ts:157-177 | a completed run is accepted exactly when the marker occurs once, and its answer is the trimmed text after it |
| Execute.AfterRunAppends | worker/src/executor/execute.ts:138-185 | a user run appends exactly one entry to each of four arrays (the answer, or the upper-cased status on failure); a reference run appends nothing; nothing else changes |
| Execute.ExecuteTestCase | worker/src/executor/execute.ts:122-186 | the returned answer and the new record are those the classification and `AfterRun` give |
| Execute.RecordRun | worker/src/executor/execute.ts:138-185 | the same, once `executeCode` has returned |
| Handlers.CreateCppHandler | worker/src/handlers/cppHandler.ts:3-15 | a C++ handler compiles, and its binary is the file name |
| Handlers.CreatePythonHandler | worker/src/handlers/pythonHandler.ts:3-8 | a Python handler has no compile command and no binary |
| Handlers.HandlerFilesAgree | worker/src/handlers/cppHandler.ts:5-15 | the compiler reads the source file and writes the binary the run command starts |
| Handlers.LookupHandler | worker/src/handlers/handler.ts:16-18 | only "CPP" has a handler, and it is the C++ one |
| Handlers.RegisteredHandlersCompile | worker/src/handlers/handler.ts:16-18 | every registered handler has a compile command and is not Python |
| Handlers.ParamTags | worker/src/handlers/cppHandler.ts:20-74 | one tag per parameter type, in order |
| Handlers.ParamTagsErrorSticks | worker/src/handlers/cppHandler.ts:70-71 | the first unsupported type decides the error |
| Handlers.ParamTagsOkIff | worker/src/handlers/cppHandler.ts:20-74 | every type has a reader exactly when every type is one of the six tags |
| Handlers.InputCodeOkIff | worker/src/handlers/pythonHandler.ts:18-42 | the reading code exists exactly when every type is one of the six tags |
| Handlers.InputCodeRejects | worker/src/handlers/cppHandler.ts:70-71 | the error is "Unsupported type: " and the first unsupported type |
| Handlers.Params | worker/src/handlers/cppHandler.ts:73 | one variable per parameter |
| Handlers.ParamsInOrder | worker/src/handlers/cppHandler.ts:73 | parameter `k` is passed as `param<k>`, and no two share a name |
| Handlers.PythonOutputCode | worker/src/handlers/pythonHandler.ts:44-64 | fails exactly for a return type outside the six tags; otherwise begins with the line printing the marker |
| Handlers.PythonPrintsMarker | worker/src/handlers/pythonHandler.ts:44 | the Python program prints exactly the marker the judge splits on |
| Handlers.IndentLineShape | worker/src/handlers/pythonHandler.ts:71 | a blank line becomes empty; any other line becomes four spaces and its trimmed text |
| Handlers.IndentLines | worker/src/handlers/pythonHandler.ts:69-72 | indenting keeps the number and order of lines, and line `k` of the result is line `k` indented |
| Handlers.ReadParams | worker/src/handlers/cppHandler.ts:20-74 | the `forEach` loop builds the reading code of the specification, or its error, and the variable list |
| Handlers.WrapCode | worker/src/handlers/cppHandler.ts:16-105 | the program built is the one `WrapProgram` describes |
| Handlers.WrapRejectsParamType | worker/src/handlers/cppHandler.ts:70-71 | an unknown parameter type is reported, naming the first one, in either language |
| Handlers.CppWrapsAnyReturnType | worker/src/handlers/cppHandler.ts:76-90 | with known parameter types, C++ wraps any return type |
| Handlers.PythonReturnTypes | worker/src/handlers/pythonHandler.ts:62-63 | with known parameter types, Python wraps exactly the six return tags, and otherwise fails with "Unsupported return type: …" |
| Handlers.WrapEmbedsCode | worker/src/handlers/cppHandler.ts:96 | the user's code appears verbatim in the C++ program, and trimmed at the head of the Python one |
| Handlers.CppCallsFunction | worker/src/handlers/cppHandler.ts:100 | the C++ program calls the named function on `param0` to `param<n-1>`, in order |
| Handlers.CppSnippetReads | worker/src/handlers/cppHandler.ts:20-69 | an array parameter is read as one whole line with `getline`, a scalar with `cin >>` |
| Handlers.CppPrintsMarkerFirst | worker/src/handlers/cppHandler.ts:76 | the C++ printing code prints its marker before anything else |
| Handlers.CppRunRejected | worker/src/handlers/cppHandler.ts:76 | as written, a C++ run that prints `-->` and its result is rejected with "Invalid output format" |
| Handlers.CppFixedRunAccepted | worker/src/executor/execute.ts:157-177 | with the judge's marker, the same run is accepted and its answer is the trimmed result |
| Handlers.PythonIntListPrinted | worker/src/handlers/pythonHandler.ts:47 | the as-written line prints something only for lists of two or more |
| Handlers.PythonIntListTruncates | worker/src/handlers/pythonHandler.ts:47 | a list of three or more integers is read back as its first two |
| Handlers.PythonIntListFixedRoundTrip | worker/src/handlers/pythonHandler.ts:47 | with the intended line, the whole list is read back |
| Process.Column | worker/src/executor/process.ts:28 | the parameter a line stands for is below the number of parameters |
| Process.CaseOf | worker/src/executor/process.ts:36 | test cases are numbered from 1 |
| Process.ColumnIsRemainder | worker/src/executor/process.ts:28-39 | column and case are `i % n` and `floor(i / n) + 1` |
| Process.Quotient | worker/src/executor/process.ts:47 | a count that divides evenly is the quotient times the width |
| Process.ValidateTestCases | worker/src/executor/process.ts:14-48 | the loop returns what the `ValidatedTestCases` specification gives |
| Process.ValidateFromOk | worker/src/executor/process.ts:26-46 | validation succeeds exactly when every line passes its check, and then each line is replaced by its rewritten form |
| Process.RewrittenTo | worker/src/executor/process.ts:30 | rewriting keeps the number of lines |
| Process.RewrittenToLines | worker/src/executor/process.ts:30 | rewriting lines `i` to `j-1` changes exactly those lines |
| Process.ValidateFromFirstFailure | worker/src/executor/process.ts:32-43 | the first failing line decides the error, with the earlier lines of its test case already rewritten |
| Process.ValidatedCounts | worker/src/executor/process.ts:19-25 | the line-count error happens exactly when there are no parameter types or the lines do not divide evenly; otherwise the total is lines over parameters |
| Process.ValidateFromErrors | worker/src/executor/process.ts:32-43 | every loop error is a numbered validation error with status Error |
| Process.RunCase | worker/src/executor/process.ts:62-140 | the loop body for one test case leaves the record and the early-return flag that `SandboxStep` gives |
| Process.CaseAdvances | worker/src/executor/process.ts:61 | one turn of the loop is the case at line `i`, followed by the rest unless it returned |
| Process.CasesDone | worker/src/executor/process.ts:61 | past the last line the loop is over |
| Process.NextTestCase | worker/src/executor/process.ts:61-143 | one turn of the loop, in place, agrees with the recursive specification |
| Process.FailOnErrors | worker/src/executor/process.ts:154-157 | the final check, in place |
| Process.ProcessTestCases | worker/src/executor/process.ts:50-158 | the record afterwards is `TestCasesVerdict` of the record before |
| Process.SubmissionStage | worker/src/executor/process.ts:194-253 | a job that gets to its test cases has at least one parameter type |
| Process.AnswerStage | worker/src/executor/process.ts:311-356 | a job that gets to its test cases has at least one parameter type |
| Process.PrepareSubmission | worker/src/executor/process.ts:194-253 | the part before the test cases, in place, agrees with `SubmissionStage` |
| Process.ProcessSubmission | worker/src/executor/process.ts:160-276 | the record returned is `SubmissionVerdict` of the job and the drawn id |
| Process.PrepareAnswer | worker/src/executor/process.ts:311-356 | the part before the test cases, in place, agrees with `AnswerStage` |
| Process.ProcessAnswer | worker/src/executor/process.ts:278-375 | the record returned is `AnswerVerdict` of the job |
| ProcessLemmas.CaseStepAnswers | worker/src/executor/process.ts:70-83 | one test case adds exactly one answer and keeps the job's ids |
| ProcessLemmas.CaseStepCounts | worker/src/executor/process.ts:111-143 | a passing case keeps the status and errors and counts itself correct exactly when judged; a failing case leaves a failing status and counts nothing |
| ProcessLemmas.CaseStepUserFailure | worker/src/executor/process.ts:80-81 | without a reference program a failing case adds exactly one error and becomes the last test case |
| ProcessLemmas.NumCasesWhole | worker/src/executor/process.ts:61 | lines making `m` whole test cases give `m` turns |
| ProcessLemmas.RunCasesBounds | worker/src/executor/process.ts:61-143 | the loop keeps ids, counts at most one correct answer per case, never turns failure back into success, and returns early only in stop mode with a failing status |
| ProcessLemmas.RunCasesAnswers | worker/src/executor/process.ts:61-143 | a loop that does not stop early adds one answer per test case |
| ProcessLemmas.RunCasesKeepFailure | worker/src/executor/process.ts:61-143 | if every error went with a failing status before the loop, it still does after |
| ProcessLemmas.RunCasesAccepted | worker/src/executor/process.ts:111-143 | when every case is judged, a job that starts successful ends successful exactly when every case was correct |
| ProcessLemmas.SubmitStopsAtFailure | worker/src/executor/process.ts:123-138 | submit mode stops at the first failing case: it is the last answered and last recorded, and the only error added |
| ProcessLemmas.SubmitCountsBeforeFailure | worker/src/executor/process.ts:123-143 | in submit mode the cases before the first failure are exactly the correct ones |
| ProcessLemmas.ValidationFails | worker/src/executor/process.ts:20-43 | validation fails only with status Error |
| ProcessLemmas.HaltFails | worker/src/executor/process.ts:269-273 | the `catch` leaves a failing status and a message, and touches no test case |
| ProcessLemmas.SubmissionBuildFacts | worker/src/executor/process.ts:211-253 | wrapping and compiling either stop in the `catch` or leave the record as it was |
| ProcessLemmas.AnswerBuildFacts | worker/src/executor/process.ts:336-356 | the same for the user's program alone |
| ProcessLemmas.SubmissionStageFacts | worker/src/executor/process.ts:194-253 | before its test cases a "run" job either stops with a failing status and no test case touched, or has recorded a total that splits the lines evenly and nothing else |
| ProcessLemmas.AnswerStageFacts | worker/src/executor/process.ts:311-356 | the same for a "submit" job, whose expected outputs then number one per test case |
| ProcessLemmas.FinalCheckKeeps | worker/src/executor/process.ts:154-157 | a record whose errors all go with a failing status passes the final check unchanged |
| ProcessLemmas.SubmissionOutcome | worker/src/executor/process.ts:160-276 | a "run" job keeps its id, counts at most its test cases correct, fails whenever it recorded an error, answers every case once it gets to them, and succeeds exactly when it got to them and all were correct |
| ProcessLemmas.AnswerCasesJudged | worker/src/executor/process.ts:326-334 | every test case of a "submit" job that got to its cases has a non-empty expected output |
| ProcessLemmas.AnswerOutcome | worker/src/executor/process.ts:278-375 | a "submit" job keeps its id, counts at most its test cases correct, fails whenever it recorded an error, and succeeds exactly when all its cases were correct, with an answer for each |
| ProcessLemmas.AnswerFirstFailure | worker/src/executor/process.ts:358-368 | a "submit" job that fails on a case stops there: its last answer, last test case and only error, with every earlier case correct |
| ProcessLemmas.UnknownLanguageRejected | worker/src/executor/process.ts:194-196 | a language with no handler fails with the `TypeError` of the missing registry entry, before any test case |
| ProcessLemmas.AnswerCountMismatch | worker/src/executor/process.ts:329-334 | stored outputs that are not one per test case fail with "Expected <n> outputs, got <m>" |
| ProcessLemmas.UserCompileFailure | worker/src/executor/process.ts:226-231 | a user program that does not compile gives the compiler's status, before any test case |
| ProcessLemmas.SystemCompileFailure | worker/src/executor/process.ts:248-253 | a reference program that does not compile gives InternalError, before any test case |
| Legacy.StatusCode | worker/src/executor.ts:143 | `meta.status` counts only when present and non-empty |
| Legacy.LegacyCompileFailure | worker/src/executor.ts:128-150 | a failed compilation is CompilationError, Timeout or RuntimeError, with a message |
| Legacy.LegacyCompileCode | worker/src/executor.ts:78-152 | Success exactly when there is no compile command or the call completed; a failure always has a message |
| Legacy.LegacyRunFailure | worker/src/executor.ts:203-226 | a failed run is Error, Timeout or RuntimeError, with empty output and a message |
| Legacy.LegacyExecuteCode | worker/src/executor.ts:154-227 | Success exactly when the call completed, with its output; meta is read only for the user's program |
| Legacy.Start | worker/src/executor.ts:231-244 | a job starts with Success, empty arrays, no errors and zero counts |
| Legacy.LegacyResult.constructor | worker/src/executor.ts:231-244 | the new record is the initial one |
| Legacy.LegacyResult.PushAll | worker/src/executor.ts:344-348 | one push onto each of the five arrays, and nothing else changes |
| Legacy.LegacyResult.Stop | worker/src/executor.ts:282-283 | only the status and error change |
| Legacy.LegacyResult.Fail | worker/src/executor.ts:305-306 | only the status changes and one error entry is appended |
| Legacy.LegacyResult.SetLast | worker/src/executor.ts:448-453 | only the last test case changes |
| Legacy.LegacyResult.SetTotal | worker/src/executor.ts:264 | only the total changes |
| Legacy.LegacyResult.CountCorrect | worker/src/executor.ts:342 | only the correct count changes, by one |
| Legacy.LegacyResult.CatchAnswer | worker/src/executor.ts:517-528 | the outer `catch` of `processAnswer`, in place |
| Legacy.ValidateLines | worker/src/executor.ts:266-275 | the loop returns what `LegacyValidateFrom` gives |
| Legacy.RunModeCase | worker/src/executor.ts:301-357 | the loop body, in place, agrees with `RunModeTurn` |
| Legacy.RunModeLoop | worker/src/executor.ts:297-363 | the loop and the check after it, in place, agree with their specification |
| Legacy.SubmitModeCase | worker/src/executor.ts:437-515 | the loop body, in place, agrees with `SubmitModeTurn`, and returns whether it returned |
| Legacy.SubmitModeLoop | worker/src/executor.ts:432-516 | the loop, in place, agrees with `SubmitModeCases` |
| Legacy.SubmissionPhase | worker/src/executor.ts:246-295 | a job that gets to its test cases has at least one parameter type |
| Legacy.AnswerPhase | worker/src/executor.ts:390-430 | a job that gets to its test cases has at least one parameter type |
| Legacy.PrepareLegacySubmission | worker/src/executor.ts:246-295 | the part before the test cases, in place, agrees with `SubmissionPhase` |
| Legacy.LegacyProcessSubmission | worker/src/executor.ts:229-371 | the record returned is `LegacySubmissionResult` |
| Legacy.PrepareLegacyAnswer | worker/src/executor.ts:390-430 | the part before the test cases, in place, agrees with `AnswerPhase` |
| Legacy.LegacyProcessAnswer | worker/src/executor.ts:373-531 | the record returned is `LegacyAnswerResult` |
| LegacyLemmas.LegacyCompileByCode | worker/src/executor.ts:143-146 | the status code alone picks the compile verdict: Timeout exactly for TO, RuntimeError exactly for RE; without a code the thrown message or "Compilation failed" stands, and with one a non-empty report message wins |
| LegacyLemmas.LegacyRunByCode | worker/src/executor.ts:218-221 | the same for a run: Error exactly when the code is missing or neither TO nor RE |
| LegacyLemmas.LegacyRunIgnoresMemory | worker/src/executor.ts:219 | a run killed for memory is RuntimeError for the legacy engine and MemoryLimitExceeded for the later one |
| LegacyLemmas.LegacyCompileRuntimeError | worker/src/executor.ts:144 | a compiler exiting with RE is a RuntimeError for the legacy engine, never for the later one |
| LegacyLemmas.LegacyIgnoresStderr | worker/src/executor.ts:128-226 | the legacy classifiers never look at standard error |
| LegacyLemmas.LegacyValidateAgrees | worker/src/executor.ts:266-275 | the legacy validation accepts exactly what the later one accepts, with the same rewritten lines |
| LegacyLemmas.LegacyValidationNamesLine | worker/src/executor.ts:270-273 | the first failing line decides the error, which names that line's number, counted from 1 |
| LegacyLemmas.CaseBeforeLine | worker/src/executor.ts:272 | with two or more parameters, any line after the first has a case number below its line number |
| LegacyLemmas.LegacyNamesLineNotCase | worker/src/executor.ts:272 | with several parameters, the later engine names the failing test case and the legacy one a larger line number |
| LegacyLemmas.RunModeStepShape | worker/src/executor.ts:304-348 | every pass pushes exactly one entry onto each array and keeps the ids and total |
| LegacyLemmas.RunModeJudges | worker/src/executor.ts:328-348 | when both programs ran and printed the marker once, the status and errors stay, and the case counts correct exactly when the trimmed answers agree |
| LegacyLemmas.RunModeKeepsFirstStatus | worker/src/executor.ts:305 | a failed user run keeps a status that is already failing |
| LegacyLemmas.WrongAnswerContrast | worker/src/executor.ts:341-348 | a mismatch gives WrongAnswer in the later engine and leaves the legacy status alone |
| LegacyLemmas.RunModeCasesShape | worker/src/executor.ts:297-358 | over `m` whole cases the loop pushes `m` entries onto each array, counts at most `m` correct, and ends successful exactly when it started so and recorded no error |
| LegacyLemmas.LegacyValidateLength | worker/src/executor.ts:266-275 | validation keeps the number of lines |
| LegacyLemmas.SubmissionProgramsFacts | worker/src/executor.ts:277-295 | compiling both programs either stops with a failing status and no case touched, or leaves the record as it was |
| LegacyLemmas.SubmissionPhaseFacts | worker/src/executor.ts:246-295 | before its test cases a legacy "run" job either stops with a failing status and no case touched, or has recorded a total that splits the lines evenly |
| LegacyLemmas.LegacySubmissionOutcome | worker/src/executor.ts:229-371 | a legacy "run" job keeps its id, never sets a last test case, counts at most its cases correct, fails whenever it recorded an error, answers every case once it gets to them, and succeeds exactly when it got to them and recorded no error |
| LegacyLemmas.SubmitModeStepShape | worker/src/executor.ts:437-499 | every pass pushes one entry onto each array; a passing case counts itself correct; a wrong answer records "Expected X, got Y" as the last test case |
| LegacyLemmas.SubmitModeCasesShape | worker/src/executor.ts:432-516 | the loop stops at the first failing case, which is its only error and its last test case, with every earlier case correct |
| LegacyLemmas.AnswerProgramFacts | worker/src/executor.ts:416-430 | compiling the user's program either stops with a failing status and case 0 as the last test case, or leaves the record as it was |
| LegacyLemmas.AnswerPhaseFacts | worker/src/executor.ts:390-430 | before its test cases a legacy "submit" job either stops failing, or has one expected output per test case |
| LegacyLemmas.LegacyAnswerOutcome | worker/src/executor.ts:373-531 | a legacy "submit" job succeeds exactly when all its cases were correct; a failure on a case names it as the last test case, one past the correct ones |
| LegacyLemmas.LegacyUnknownLanguage | worker/src/executor.ts:249 | a language with no handler fails in the outer `catch` with the `TypeError` message, in both modes |
| LegacyLemmas.LegacyUserCompileFailure | worker/src/executor.ts:281-285 | a user program that does not compile gives CompilationError, Timeout or RuntimeError |
| LegacyLemmas.LegacySystemCompileFailure | worker/src/executor.ts:291-295 | a reference program that does not compile gives InternalError |
| LegacyLemmas.LegacyAnswerCompileFailure | worker/src/executor.ts:420-429 | a "submit" program that does not compile records case 0 with the compiler's status as the last test case |
| Backend.RequestedPage | backend/src/controllers/problemsetController.ts:48 | never 0: the parsed page, or 1 when it is missing, not a number or 0 |
| Backend.RequestedPageReads | backend/src/controllers/problemsetController.ts:48 | a non-zero page written in decimal is read back; a missing or unreadable one is 1 |
| Backend.SearchTerm | backend/src/controllers/problemsetController.ts:49 | the trimmed query, or "" without one |
| Backend.BlankSearchIsNoSearch | backend/src/controllers/problemsetController.ts:49 | the search is "" exactly when the query is missing or blank |
| Backend.TotalPages | backend/src/controllers/problemsetController.ts:63 | zero pages exactly when there are no problems; otherwise the smallest number of 10-row pages holding them all |
| Backend.Paginate | backend/src/controllers/problemsetController.ts:52-65 | no window for an empty list; otherwise the page is clamped into range, kept exactly when in range, and its first row exists |
| Backend.PageRows | backend/src/controllers/problemsetController.ts:123-143 | at most `take` rows, those from `skip` on, in order |
| Backend.ProblemsPage | backend/src/controllers/problemsetController.ts:51-74 | an empty list gives the empty reply on page 1 of 0; otherwise the page is in range and shows between 1 and 10 rows |
| Backend.RowOnOnePage | backend/src/controllers/problemsetController.ts:63-67 | row `j` is shown on page `j/10+1` and on no other |
| Backend.PageKey | backend/src/controllers/problemsetController.ts:115 | the key splits on colons into "problems", the page and the page size |
| Backend.CacheKeysDistinct | backend/src/controllers/problemsetController.ts:115 | different pages or sizes get different keys, and no page key is the count key |
| Backend.ProblemCache.constructor | backend/src/controllers/problemsetController.ts:85-150 | the cache starts empty |
| Backend.ProblemCache.ProblemCount | backend/src/controllers/problemsetController.ts:85-108 | a search counts without the cache; no search reads the cached count, or stores the count when none is cached |
| Backend.ProblemCache.PageProblems | backend/src/controllers/problemsetController.ts:110-150 | a search reads the rows without the cache; no search returns the cached page, or stores the rows it read |
| Backend.GetProblems | backend/src/controllers/problemsetController.ts:46-75 | the reply has limit 10; an empty count gives the empty reply; a search, or an empty cache, gives exactly `ProblemsPage` of the matching rows |
| Backend.Inputs | backend/src/controllers/problemsController.ts:138 | the test cases' inputs, in order |
| Backend.Outputs | backend/src/controllers/problemsController.ts:139 | the test cases' outputs, in order |
| Backend.RunJob | backend/src/controllers/problemsController.ts:81-86 | a "run" job keeps the user's test data and takes the reference code and signature from the problem |
| Backend.AnswerJob | backend/src/controllers/problemsController.ts:129-144 | a "submit" job is marked as an answer and carries the user id |
| Backend.FindProblem | backend/src/controllers/problemsController.ts:69-79 | a question id that does not parse is an error; otherwise the problem when the id names one |
| Backend.InterpretSolution | backend/src/controllers/problemsController.ts:57-100 | an unparseable id is a server error; an unknown one "Invalid question ID"; a known one queues a "run" job |
| Backend.SubmitReply | backend/src/controllers/problemsController.ts:102-158 | the same outcomes, queueing a "submit" job |
| Backend.JoinTestCases | backend/src/controllers/problemsController.ts:137-143 | the loop joins the inputs, and the outputs, with newlines |
| Backend.SubmitSolution | backend/src/controllers/problemsController.ts:102-158 | the reply is `SubmitReply` |
| Backend.JobsDiffer | backend/src/controllers/problemsController.ts:81-135 | the two endpoints queue the same job except for the mode, the test data and the reference code |
| Backend.JoinedLinesRoundTrip | backend/src/controllers/problemsController.ts:137-143 | splitting newline-joined lines and dropping blanks gives them back |
| Backend.AnswerJobRoundTrip | backend/src/controllers/problemsController.ts:129-144 | with single-line, non-blank test cases, the worker reads back exactly the stored inputs and outputs |

## Left out

- The sandbox itself (`isolate`, file writes and reads, box set-up and clean-up) is the oracle `Sandbox`. A stale meta file left by an earlier call is part of the report the oracle gives.
- The queue loop (`worker/src/executor/start.ts`, `worker/src/worker.ts`, the legacy `startContainer`), Redis and the JSON encoding of results are left out: they only move records.
- Console logging is left out.
- The Java handler is left out: the registry does not hold it.
- The fresh `uuidv4()` id of a "run" job is a parameter.
- Timings and memory figures are copied from the meta report as text and not interpreted.
- The text of zod's error message (a JSON list of issues) is not modelled: the failure message carries the issue's own message.
- Several checks in the source are dead code:
  - the `!userHandler || !systemHandler` checks (`worker/src/executor/process.ts:197-202` and the legacy ones). A missing handler throws before them.
  - the `catch` inside the per-case loops (`worker/src/executor/process.ts:144-151`, `worker/src/executor.ts:349-357` and `500-515`). `executeCode` catches everything.
  - the final status checks. Every recorded error already goes with a failing status, as proved by `ProcessLemmas.FinalCheckKeeps` and `LegacyLemmas.LegacySubmissionOutcome`.
  - the "Validation error" alternative. `validateField` only ever throws an `Error`.

  The model keeps these branches where they sit, but no input reaches them.
- JsonText.ReadEscape: rejects a lone or unpaired surrogate escape (`\uD800`, `\uDC00`, a high surrogate not followed by an escaped low one), which `JSON.parse` accepts as a lone UTF-16 unit. A Dafny `char` is a Unicode scalar value, so such a string has no value in the model; for the same reason a raw lone surrogate in test text cannot be represented.
- Numbers are unbounded integers. JavaScript's double precision (a page number or an array element beyond 2^53) is not modelled.
- The Redis expiry time of cached entries is left out: a cached entry never expires in the model.
- Backend.ProblemCache.PageProblems: the cache stores rows rather than their JSON text, so the JSON round trip of a cached page is not modelled.
- The database is a parameter:
  - the case-insensitive title search gives the matching rows `rows` and their count;
  - a question id that `parseInt` cannot read is taken to make the database call throw, which gives the 500 reply.
- The authenticated user id (`req.user?.userId`) is a parameter.
- Request validation with zod (`submissionInput`, `answerInput`) is left out. Those schemas are not part of this model, so the 400 "Invalid input" reply is not modelled.
- The other endpoints (problem data, submission history, authentication) and the frontend are outside the judging core.

## Findings

| source | as written | input that shows it | evidently intended | confidence | as-written member | corrected member |
|---|---|---|---|---|---|---|
| worker/src/handlers/cppHandler.ts:76 | the C++ program prints `-->` before its result, but `executeTestCase` splits on `{{CODE_ANSWER}}` (`worker/src/executor/execute.ts:157`) | any C++ run that completes and prints, say, `-->3`: the marker is missing, so every C++ test case is "Invalid output format" | print `{{CODE_ANSWER}}` before the result, as the Python handler does | not executed | Handlers.CppRunRejected | Handlers.CppFixedRunAccepted |
| worker/src/handlers/pythonHandler.ts:47 | an `integer[]` result is printed as `[{result[0]},{result[1]}]` | the result `[1, 2, 3]` prints `[1,2]`; a list of fewer than two items raises an IndexError | print the whole list, comma-separated, in brackets | not executed | Handlers.PythonIntListTruncates | Handlers.PythonIntListFixedRoundTrip |
