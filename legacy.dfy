/** The earlier, single-file judging engine (`worker/src/executor.ts`). The
    pipeline matches `Process`: look up the handlers, split and check the
    test data, wrap and compile, then loop over the test cases. The rules
    differ, though. The classifiers know no memory verdict. Validation
    errors name the line, not the test case. Every branch of the "run" loop
    appends to all five per-test arrays. A wrong answer in "run" mode costs
    only the correct count. The record is updated directly: `handleError`
    is not called, and per-case failures leave `error` unset. */
module Legacy {
  import opened Wrappers
  import opened Strings
  import opened Numbers
  import opened Results
  import opened Isolate
  import opened Validator
  import opened Compile
  import opened Execute
  import opened Handlers
  import opened Process

  /* ---------------------------------------------------------------------
     compileCode and executeCode
     --------------------------------------------------------------------- */

  /** `meta.status` when it is truthy: present and not empty. */
  function StatusCode(meta: map<string, string>): (c: Option<string>)
    ensures c.Some? <==> ("status" in meta && meta["status"] != "")
    ensures c.Some? ==> c.value == meta["status"]
  {
    if "status" in meta && meta["status"] != "" then Some(meta["status"]) else None
  }

  /** The classification of a failed compilation. The thrown message (or
      "Compilation failed") stands unless the meta report has a status
      code. With one, TO is a Timeout, RE a RuntimeError and any other code
      a CompilationError, and a non-empty meta message replaces the thrown
      one. Standard error is never read. */
  function LegacyCompileFailure(message: Option<string>, metaText: Option<string>): (r: CompileOutcome)
    ensures r.status in {CompilationError, Timeout, RuntimeError}
    ensures r.error.Some?
  {
    var initial := message.GetOr("Compilation failed");
    if metaText.None? then CompileOutcome(CompilationError, Some(initial))
    else
      var meta := ParseMeta(metaText.value);
      match StatusCode(meta)
      case None => CompileOutcome(CompilationError, Some(initial))
      case Some(code) =>
        CompileOutcome(if code == "TO" then Timeout else if code == "RE" then RuntimeError else CompilationError,
          Some(OrElse(Lookup(meta, "message"), initial)))
  }

  /** The legacy `compileCode`: no compile command means success, and so
      does a completed sandbox call. */
  function LegacyCompileCode(compileCommand: Option<seq<string>>, report: RunReport): (r: CompileOutcome)
    ensures r.status == Success <==> (compileCommand.None? || report.Completed?)
    ensures r.status == Success ==> r.error.None?
    ensures r.status in {Success, CompilationError, Timeout, RuntimeError}
    ensures r.status != Success ==> r.error.Some?
  {
    if compileCommand.None? then CompileOutcome(Success, None)
    else match report
      case Completed(_, _) => CompileOutcome(Success, None)
      case Failed(message, metaText, _) => LegacyCompileFailure(message, metaText)
  }

  /** The classification of a failed run. The thrown message (or "Unknown
      error") stands unless the meta report has a status code. With one, TO
      is a Timeout, RE a RuntimeError and any other code an Error, and a
      non-empty meta message replaces the thrown one. The output is empty. */
  function LegacyRunFailure(message: Option<string>, metaText: Option<string>): (r: CodeOutput)
    ensures r.status in {Error, Timeout, RuntimeError}
    ensures r.output == "" && r.error.Some?
  {
    var initial := message.GetOr("Unknown error");
    if metaText.None? then CodeOutput("", map[], Error, Some(initial))
    else
      var meta := ParseMeta(metaText.value);
      match StatusCode(meta)
      case None => CodeOutput("", meta, Error, Some(initial))
      case Some(code) =>
        CodeOutput("", meta, if code == "TO" then Timeout else if code == "RE" then RuntimeError else Error,
          Some(OrElse(Lookup(meta, "message"), initial)))
  }

  /** The legacy `executeCode`: the output text and, for user code only,
      the meta report of a completed run; else the failure's classification. */
  function LegacyExecuteCode(report: RunReport, isUser: bool): (r: CodeOutput)
    ensures r.status == Success <==> report.Completed?
    ensures r.status == Success ==> r.output == report.outputText && r.error.None?
    ensures r.status != Success ==> r.output == "" && r.error.Some?
    ensures report.Completed? && !isUser ==> r.meta == map[]
  {
    match report
    case Completed(output, metaText) => CodeOutput(output, if isUser then ParseMeta(metaText) else map[], Success, None)
    case Failed(message, metaText, _) => LegacyRunFailure(message, metaText)
  }

  /* ---------------------------------------------------------------------
     The result record
     --------------------------------------------------------------------- */

  /** The fields of the legacy `ExecutionResult`. Unlike the later record
      it has no `isAnswer`, and `errors` is always present. */
  datatype Record = Record(
    submissionId: string,
    userId: string,
    questionId: string,
    status: Status,
    codeAnswer: seq<string>,
    stdOutputList: seq<string>,
    expectedCodeAnswer: seq<string>,
    executionTime: seq<string>,
    executionMemory: seq<string>,
    correctTestCases: nat,
    totalTestCases: nat,
    lastTestCase: Option<LastTestCase>,
    error: Option<string>,
    errors: seq<string>)

  /** The record a job starts from: Success, everything empty. */
  function Start(submissionId: string, userId: string, questionId: string): (r: Record)
    ensures r.status == Success && r.errors == [] && r.lastTestCase.None? && r.error.None?
    ensures r.codeAnswer == r.stdOutputList == r.expectedCodeAnswer == r.executionTime == r.executionMemory == []
    ensures r.correctTestCases == 0 && r.totalTestCases == 0
  {
    Record(submissionId, userId, questionId, Success, [], [], [], [], [], 0, 0, None, None, [])
  }

  /** One push onto each of the five per-test arrays. */
  function Pushed(v: Record, answer: string, stdout: string, expected: string, time: string, memory: string): Record {
    v.(codeAnswer := v.codeAnswer + [answer],
       stdOutputList := v.stdOutputList + [stdout],
       expectedCodeAnswer := v.expectedCodeAnswer + [expected],
       executionTime := v.executionTime + [time],
       executionMemory := v.executionMemory + [memory])
  }

  /** `result.status = status; result.error = message`. */
  function Stopped(v: Record, status: Status, message: string): Record {
    v.(status := status, error := Some(message))
  }

  /** The head of an `errors` entry for test case `k`. */
  function CaseLabel(k: nat): string {
    "Test case " + NatToDecimal(k) + ": "
  }

  /** `meta.time ?? "0"` and `meta["max-rss"] ?? "0"` of a run. */
  function TimeOf(out: CodeOutput): string {
    Lookup(out.meta, "time").GetOr("0")
  }

  function MemoryOf(out: CodeOutput): string {
    Lookup(out.meta, "max-rss").GetOr("0")
  }

  /** The mutable legacy record. */
  class LegacyResult {
    var submissionId: string
    var userId: string
    var questionId: string
    var status: Status
    var codeAnswer: seq<string>
    var stdOutputList: seq<string>
    var expectedCodeAnswer: seq<string>
    var executionTime: seq<string>
    var executionMemory: seq<string>
    var correctTestCases: nat
    var totalTestCases: nat
    var lastTestCase: Option<LastTestCase>
    var error: Option<string>
    var errors: seq<string>

    function Snapshot(): Record
      reads this
    {
      Record(submissionId, userId, questionId, status, codeAnswer, stdOutputList,
             expectedCodeAnswer, executionTime, executionMemory, correctTestCases,
             totalTestCases, lastTestCase, error, errors)
    }

    constructor (submissionId: string, userId: string, questionId: string)
      ensures Snapshot() == Start(submissionId, userId, questionId)
    {
      this.submissionId := submissionId;
      this.userId := userId;
      this.questionId := questionId;
      status := Success;
      codeAnswer, stdOutputList, expectedCodeAnswer := [], [], [];
      executionTime, executionMemory := [], [];
      correctTestCases, totalTestCases := 0, 0;
      lastTestCase := None;
      error := None;
      errors := [];
    }

    method PushAll(answer: string, stdout: string, expected: string, time: string, memory: string)
      modifies this
      ensures Snapshot() == Pushed(old(Snapshot()), answer, stdout, expected, time, memory)
    {
      codeAnswer := codeAnswer + [answer];
      stdOutputList := stdOutputList + [stdout];
      expectedCodeAnswer := expectedCodeAnswer + [expected];
      executionTime := executionTime + [time];
      executionMemory := executionMemory + [memory];
    }

    method Stop(s: Status, message: string)
      modifies this
      ensures Snapshot() == Stopped(old(Snapshot()), s, message)
    {
      status := s;
      error := Some(message);
    }

    /** `result.status = s; result.errors.push(entry)`. */
    method Fail(s: Status, entry: string)
      modifies this
      ensures Snapshot() == old(Snapshot()).(status := s, errors := old(errors) + [entry])
    {
      status := s;
      errors := errors + [entry];
    }

    method SetLast(last: LastTestCase)
      modifies this
      ensures Snapshot() == old(Snapshot()).(lastTestCase := Some(last))
    {
      lastTestCase := Some(last);
    }

    method SetTotal(total: nat)
      modifies this
      ensures Snapshot() == old(Snapshot()).(totalTestCases := total)
    {
      totalTestCases := total;
    }

    method CountCorrect()
      modifies this
      ensures Snapshot() == old(Snapshot()).(correctTestCases := old(correctTestCases) + 1)
    {
      correctTestCases := correctTestCases + 1;
    }

    /** The outer `catch` of `processAnswer`. */
    method CatchAnswer(message: string)
      modifies this
      ensures Snapshot() == CaughtAnswer(old(Snapshot()), message)
    {
      status := Error;
      error := Some(message);
      if lastTestCase.None? {
        lastTestCase := Some(LastTestCase(0, "", None, None, Error, Some(message)));
      }
    }
  }

  /* ---------------------------------------------------------------------
     Checking the test data
     --------------------------------------------------------------------- */

  /** The legacy validation loop from line `i` on. A failing line stops it
      with a message naming the line's own number, `i + 1`. */
  function LegacyValidateFrom(check: FieldCheck, lines: seq<string>, paramType: seq<string>, i: nat): Result<seq<string>, string>
    requires |paramType| > 0
    decreases |lines| - i
  {
    if i >= |lines| then Ok(lines)
    else match CheckLine(check, lines, paramType, i)
      case Ok(x) => LegacyValidateFrom(check, lines[i := x], paramType, i + 1)
      case Err(m) => Err(ValidationPrefix + NatToDecimal(i + 1) + ": " + m)
  }

  /** The validation loop, rewriting the lines in place. */
  method ValidateLines(check: FieldCheck, lines: seq<string>, paramType: seq<string>) returns (r: Result<seq<string>, string>)
    requires |paramType| > 0
    ensures r == LegacyValidateFrom(check, lines, paramType, 0)
  {
    var testcases := lines;
    var i := 0;
    while i < |testcases|
      invariant i <= |testcases| == |lines|
      invariant LegacyValidateFrom(check, testcases, paramType, i) == LegacyValidateFrom(check, lines, paramType, 0)
      decreases |testcases| - i
    {
      var j := Column(i, |paramType|);
      match check(testcases[i], paramType[j]) {
        case Err(m) =>
          return Err(ValidationPrefix + NatToDecimal(i + 1) + ": " + m);
        case Ok(x) =>
          testcases := testcases[i := x];
      }
      i := i + 1;
    }
    return Ok(testcases);
  }

  /* ---------------------------------------------------------------------
     The "run" loop of processSubmission
     --------------------------------------------------------------------- */

  /** The user's run of case `k`, and the reference program's. */
  function LegacyUserRun(sb: Sandbox, k: nat, input: string): CodeOutput {
    LegacyExecuteCode(sb[RunCall(User, k, input)], true)
  }

  function LegacySystemRun(sb: Sandbox, k: nat, input: string): CodeOutput {
    LegacyExecuteCode(sb[RunCall(Reference, k, input)], false)
  }

  /** One pass of the "run" loop for case `k`, given the two runs. Every
      branch pushes one entry onto each of the five arrays. A user failure
      sets the status only if it is still Success. A reference failure or a
      bad output sets Error. A wrong answer changes nothing but the
      missing count. */
  function RunModeStep(v: Record, out: CodeOutput, sysOut: CodeOutput, k: nat): Record {
    if out.status != Success then
      Pushed(v, AsciiUpper(StatusText(out.status)), "", "", TimeOf(out), MemoryOf(out)).(
        status := if v.status == Success then out.status else v.status,
        errors := v.errors + [CaseLabel(k) + out.error.GetOr(StatusText(out.status))])
    else if sysOut.status != Success then
      Pushed(v, "", "", "", TimeOf(out), MemoryOf(out)).(
        status := Error,
        errors := v.errors + [CaseLabel(k) + "System code " + StatusText(sysOut.status)])
    else
      var user := Split(out.output, Marker);
      var system := Split(sysOut.output, Marker);
      if |user| != 2 || |system| != 2 then
        Pushed(v, "", "", "", TimeOf(out), MemoryOf(out)).(
          status := Error,
          errors := v.errors + [CaseLabel(k) + "Invalid output format"])
      else
        var w := Pushed(v, Trim(user[1]), Trim(user[0]), Trim(system[1]), TimeOf(out), MemoryOf(out));
        if Trim(user[1]) == Trim(system[1]) then w.(correctTestCases := w.correctTestCases + 1) else w
  }

  /** Case `k` of the "run" loop, run in the sandbox. */
  function RunModeTurn(v: Record, sb: Sandbox, k: nat, input: string): Record {
    RunModeStep(v, LegacyUserRun(sb, k, input), LegacySystemRun(sb, k, input), k)
  }

  /** The "run" loop from line `i` on; it never stops early. */
  function RunModeCases(v: Record, sb: Sandbox, testcases: seq<string>, n: nat, i: nat): Record
    requires n > 0
    decreases |testcases| - i
  {
    if i >= |testcases| then v
    else
      var k := CaseOf(i, n);
      RunModeCases(RunModeTurn(v, sb, k, CaseInput(testcases, n, i)), sb, testcases, n, i + n)
  }

  /** The check after the loop. */
  function FailIfErrors(v: Record): Record {
    if |v.errors| > 0 && v.status == Success then Stopped(v, Error, "One or more test cases failed") else v
  }

  /** The loop body for case `k`, in place. */
  method RunModeCase(result: LegacyResult, sb: Sandbox, k: nat, input: string)
    modifies result
    ensures result.Snapshot() == RunModeTurn(old(result.Snapshot()), sb, k, input)
  {
    hide ParseMeta, Split, Trim, AsciiUpper, NatToDecimal, LegacyRunFailure;
    var user := LegacyExecuteCode(sb[RunCall(User, k, input)], true);
    var time := Lookup(user.meta, "time").GetOr("0");
    var memory := Lookup(user.meta, "max-rss").GetOr("0");
    if user.status != Success {
      result.Fail(if result.status == Success then user.status else result.status,
        CaseLabel(k) + user.error.GetOr(StatusText(user.status)));
      result.PushAll(AsciiUpper(StatusText(user.status)), "", "", time, memory);
      return;
    }
    var system := LegacyExecuteCode(sb[RunCall(Reference, k, input)], false);
    if system.status != Success {
      result.Fail(Error, CaseLabel(k) + "System code " + StatusText(system.status));
      result.PushAll("", "", "", time, memory);
      return;
    }
    var userSolution := Split(user.output, Marker);
    var systemSolution := Split(system.output, Marker);
    if |userSolution| != 2 || |systemSolution| != 2 {
      result.Fail(Error, CaseLabel(k) + "Invalid output format");
      result.PushAll("", "", "", time, memory);
      return;
    }
    if Trim(userSolution[1]) == Trim(systemSolution[1]) {
      result.CountCorrect();
    }
    result.PushAll(Trim(userSolution[1]), Trim(userSolution[0]), Trim(systemSolution[1]), time, memory);
  }

  /** The "run" loop and the check after it, in place. */
  method RunModeLoop(result: LegacyResult, sb: Sandbox, testcases: seq<string>, n: nat)
    requires n > 0
    modifies result
    ensures result.Snapshot() == FailIfErrors(RunModeCases(old(result.Snapshot()), sb, testcases, n, 0))
  {
    hide RunModeTurn, CaseInput;
    ghost var start := result.Snapshot();
    var i: nat := 0;
    while i < |testcases|
      invariant RunModeCases(result.Snapshot(), sb, testcases, n, i) == RunModeCases(start, sb, testcases, n, 0)
      decreases |testcases| - i
    {
      var k := CaseOf(i, n);
      RunModeCase(result, sb, k, CaseInput(testcases, n, i));
      i := i + n;
    }
    if |result.errors| > 0 && result.status == Success {
      result.Stop(Error, "One or more test cases failed");
    }
  }

  /* ---------------------------------------------------------------------
     The "submit" loop of processAnswer
     --------------------------------------------------------------------- */

  /** A record after a pass of the "submit" loop, and whether it returned. */
  datatype Turn = Turn(record: Record, failed: bool)

  /** One pass of the "submit" loop for case `k`, whose trimmed expected
      output is `expected`. A failed run, a bad output or a wrong answer
      pushes its entries, sets the status, adds an `errors` entry and
      replaces `lastTestCase`, and the loop returns. A correct answer is
      counted. */
  function SubmitModeStep(v: Record, out: CodeOutput, k: nat, input: string, expected: string): Turn {
    if out.status != Success then
      var message := out.error.GetOr(StatusText(out.status));
      Turn(Pushed(v, AsciiUpper(StatusText(out.status)), "", expected, TimeOf(out), MemoryOf(out)).(
        status := out.status,
        errors := v.errors + [CaseLabel(k) + message],
        lastTestCase := Some(LastTestCase(k, input, None, None, out.status, Some(message)))), true)
    else
      var user := Split(out.output, Marker);
      if |user| != 2 then
        Turn(Pushed(v, "", "", expected, TimeOf(out), MemoryOf(out)).(
          status := Error,
          errors := v.errors + [CaseLabel(k) + "Invalid output format"],
          lastTestCase := Some(LastTestCase(k, input, None, None, Error, Some("Invalid output format")))), true)
      else
        var answer := Trim(user[1]);
        var w := Pushed(v, answer, Trim(user[0]), expected, TimeOf(out), MemoryOf(out));
        if answer != expected then
          Turn(w.(status := WrongAnswer,
                  errors := v.errors + [CaseLabel(k) + "Wrong answer"],
                  lastTestCase := Some(LastTestCase(k, input, Some(answer), Some(expected), WrongAnswer,
                    Some("Expected " + expected + ", got " + answer)))), true)
        else Turn(w.(correctTestCases := v.correctTestCases + 1), false)
  }

  /** Case `k` of the "submit" loop, run in the sandbox. */
  function SubmitModeTurn(v: Record, sb: Sandbox, k: nat, input: string, expected: string): Turn {
    SubmitModeStep(v, LegacyUserRun(sb, k, input), k, input, expected)
  }

  /** The "submit" loop from line `i` on; `failed` says it returned early. */
  function SubmitModeCases(v: Record, sb: Sandbox, testcases: seq<string>, outputs: seq<string>, n: nat, i: nat): Turn
    requires n > 0
    decreases |testcases| - i
  {
    if i >= |testcases| then Turn(v, false)
    else
      var k := CaseOf(i, n);
      var t := SubmitModeTurn(v, sb, k, CaseInput(testcases, n, i), ExpectedFor(Some(outputs), k).GetOr(""));
      if t.failed then t else SubmitModeCases(t.record, sb, testcases, outputs, n, i + n)
  }

  /** The loop body for case `k`, in place. */
  method SubmitModeCase(result: LegacyResult, sb: Sandbox, k: nat, input: string, expected: string) returns (failed: bool)
    modifies result
    ensures Turn(result.Snapshot(), failed) == SubmitModeTurn(old(result.Snapshot()), sb, k, input, expected)
  {
    hide ParseMeta, Split, Trim, AsciiUpper, NatToDecimal, LegacyRunFailure;
    var user := LegacyExecuteCode(sb[RunCall(User, k, input)], true);
    var time := Lookup(user.meta, "time").GetOr("0");
    var memory := Lookup(user.meta, "max-rss").GetOr("0");
    if user.status != Success {
      var message := user.error.GetOr(StatusText(user.status));
      result.Fail(user.status, CaseLabel(k) + message);
      result.PushAll(AsciiUpper(StatusText(user.status)), "", expected, time, memory);
      result.SetLast(LastTestCase(k, input, None, None, user.status, Some(message)));
      return true;
    }
    var userSolution := Split(user.output, Marker);
    if |userSolution| != 2 {
      result.Fail(Error, CaseLabel(k) + "Invalid output format");
      result.PushAll("", "", expected, time, memory);
      result.SetLast(LastTestCase(k, input, None, None, Error, Some("Invalid output format")));
      return true;
    }
    var answer := Trim(userSolution[1]);
    if answer != expected {
      result.Fail(WrongAnswer, CaseLabel(k) + "Wrong answer");
      result.PushAll(answer, Trim(userSolution[0]), expected, time, memory);
      result.SetLast(LastTestCase(k, input, Some(answer), Some(expected), WrongAnswer,
        Some("Expected " + expected + ", got " + answer)));
      return true;
    }
    result.CountCorrect();
    result.PushAll(answer, Trim(userSolution[0]), expected, time, memory);
    return false;
  }

  /** The "submit" loop, in place. */
  method SubmitModeLoop(result: LegacyResult, sb: Sandbox, testcases: seq<string>, outputs: seq<string>, n: nat)
    requires n > 0
    modifies result
    ensures result.Snapshot() == SubmitModeCases(old(result.Snapshot()), sb, testcases, outputs, n, 0).record
  {
    hide SubmitModeTurn, ExpectedFor, CaseInput;
    ghost var start := result.Snapshot();
    var i: nat := 0;
    while i < |testcases|
      invariant SubmitModeCases(result.Snapshot(), sb, testcases, outputs, n, i) ==
        SubmitModeCases(start, sb, testcases, outputs, n, 0)
      decreases |testcases| - i
    {
      var k := CaseOf(i, n);
      var failed := SubmitModeCase(result, sb, k, CaseInput(testcases, n, i), ExpectedFor(Some(outputs), k).GetOr(""));
      if failed {
        return;
      }
      i := i + n;
    }
  }

  /* ---------------------------------------------------------------------
     processSubmission and processAnswer
     --------------------------------------------------------------------- */

  /** The message of the `TypeError` thrown when the language has no
      handler; the legacy `catch` records `error.message` as it is. */
  const LookupFailure := "languageHandlers[language] is not a function"

  /** How far a job got before its test cases. */
  datatype Phase =
    | Done(record: Record)
    | Running(record: Record, testcases: seq<string>, outputs: seq<string>)

  /** The outer `catch` of `processSubmission`. */
  function Caught(v: Record, message: string): Record {
    Stopped(v, Error, message)
  }

  /** The outer `catch` of `processAnswer`: as `Caught`, and a
      `lastTestCase` numbered 0 when there is none yet. */
  function CaughtAnswer(v: Record, message: string): Record {
    Stopped(v, Error, message).(lastTestCase :=
      if v.lastTestCase.None? then Some(LastTestCase(0, "", None, None, Error, Some(message))) else v.lastTestCase)
  }

  /** `processSubmission` from the record `v` up to its test cases. */
  function SubmissionPhase(v: Record, sb: Sandbox, s: Submission): (r: Phase)
    ensures r.Running? ==> |s.paramType| > 0
  {
    var user := LookupHandler(s.language, "userCode");
    var system := LookupHandler(SystemCodeLanguage, "systemCode");
    var lines := TestLines(s.dataInput);
    if user.None? || system.None? then Done(Caught(v, LookupFailure))
    else if |s.paramType| == 0 || |lines| % |s.paramType| != 0 then Done(Stopped(v, Error, LineCountMessage))
    else
      var v1 := v.(totalTestCases := Quotient(|lines|, |s.paramType|));
      match LegacyValidateFrom(ValidateField, lines, s.paramType, 0)
      case Err(m) => Done(Stopped(v1, Error, m))
      case Ok(testcases) => SubmissionPrograms(v1, sb, s, user.value, system.value, testcases)
  }

  /** The wrapping and compiling of both programs. A wrapping error reaches
      the outer `catch`; a failed user compilation records its own status,
      a failed reference compilation InternalError. */
  function SubmissionPrograms(v: Record, sb: Sandbox, s: Submission, user: LanguageHandler, system: LanguageHandler,
                              testcases: seq<string>): Phase
  {
    match WrapProgram(user.lang, s.userCode, s.functionName, s.paramType, s.returnType)
    case Err(m) => Done(Caught(v, m))
    case Ok(userProgram) =>
      var uc := LegacyCompileCode(user.compileCommand, sb[CompileCall(User, userProgram)]);
      if uc.status != Success then Done(Stopped(v, uc.status, uc.error.GetOr("User code compilation failed")))
      else match WrapProgram(system.lang, s.systemCode, s.functionName, s.paramType, s.returnType)
      case Err(m) => Done(Caught(v, m))
      case Ok(systemProgram) =>
        var sc := LegacyCompileCode(system.compileCommand, sb[CompileCall(Reference, systemProgram)]);
        if sc.status != Success then Done(Stopped(v, InternalError, sc.error.GetOr("System code compilation failed")))
        else Running(v, testcases, [])
  }

  /** The record the legacy `processSubmission` returns. */
  function LegacySubmissionResult(sb: Sandbox, submissionId: string, s: Submission): Record {
    match SubmissionPhase(Start(submissionId, s.userId, s.questionId), sb, s)
    case Done(r) => r
    case Running(r, testcases, _) => FailIfErrors(RunModeCases(r, sb, testcases, |s.paramType|, 0))
  }

  /** `processAnswer` from the record `v` up to its test cases. It does not
      validate the test data. */
  function AnswerPhase(v: Record, sb: Sandbox, s: Submission): (r: Phase)
    ensures r.Running? ==> |s.paramType| > 0
  {
    var user := LookupHandler(s.language, "userCode");
    var lines := TestLines(s.dataInput);
    var outputs := ExpectedOutputs(s.systemCode);
    if user.None? then Done(CaughtAnswer(v, LookupFailure))
    else if |s.paramType| == 0 || |lines| % |s.paramType| != 0 then Done(Stopped(v, Error, LineCountMessage))
    else
      var total := Quotient(|lines|, |s.paramType|);
      var v1 := v.(totalTestCases := total);
      if |outputs| != total then Done(Stopped(v1, Error, OutputCountError(total, |outputs|).message))
      else AnswerProgram(v1, sb, s, user.value, lines, outputs)
  }

  /** The wrapping and compiling of the user's program. A failed
      compilation also records a `lastTestCase` numbered 0 with no input. */
  function AnswerProgram(v: Record, sb: Sandbox, s: Submission, user: LanguageHandler,
                         testcases: seq<string>, outputs: seq<string>): Phase
  {
    match WrapProgram(user.lang, s.userCode, s.functionName, s.paramType, s.returnType)
    case Err(m) => Done(CaughtAnswer(v, m))
    case Ok(userProgram) =>
      var uc := LegacyCompileCode(user.compileCommand, sb[CompileCall(User, userProgram)]);
      var message := uc.error.GetOr("User code compilation failed");
      if uc.status != Success then
        Done(Stopped(v, uc.status, message).(lastTestCase := Some(LastTestCase(0, "", None, None, uc.status, Some(message)))))
      else Running(v, testcases, outputs)
  }

  /** The record the legacy `processAnswer` returns. */
  function LegacyAnswerResult(sb: Sandbox, submissionId: string, s: Submission): Record {
    match AnswerPhase(Start(submissionId, s.userId, s.questionId), sb, s)
    case Done(r) => r
    case Running(r, testcases, outputs) => SubmitModeCases(r, sb, testcases, outputs, |s.paramType|, 0).record
  }

  /** The part of the legacy `processSubmission` before its test cases;
      `None` when it has already returned. */
  method PrepareLegacySubmission(result: LegacyResult, sb: Sandbox, s: Submission) returns (testcases: Option<seq<string>>)
    modifies result
    ensures SubmissionPhase(old(result.Snapshot()), sb, s) ==
      if testcases.Some? then Running(result.Snapshot(), testcases.value, []) else Done(result.Snapshot())
  {
    hide ValidateField, WrapProgram, LegacyCompileCode;
    var user := LookupHandler(s.language, "userCode");
    var system := LookupHandler(SystemCodeLanguage, "systemCode");
    if user.None? || system.None? {
      result.Stop(Error, LookupFailure);
      return None;
    }
    var lines := TestLines(s.dataInput);
    if |s.paramType| == 0 || |lines| % |s.paramType| != 0 {
      result.Stop(Error, LineCountMessage);
      return None;
    }
    result.SetTotal(Quotient(|lines|, |s.paramType|));
    var checked := ValidateLines(ValidateField, lines, s.paramType);
    if checked.Err? {
      result.Stop(Error, checked.error);
      return None;
    }
    var userProgram := WrapCode(user.value.lang, s.userCode, s.functionName, s.paramType, s.returnType);
    if userProgram.Err? {
      result.Stop(Error, userProgram.error);
      return None;
    }
    var uc := LegacyCompileCode(user.value.compileCommand, sb[CompileCall(User, userProgram.value)]);
    if uc.status != Success {
      result.Stop(uc.status, uc.error.GetOr("User code compilation failed"));
      return None;
    }
    var systemProgram := WrapCode(system.value.lang, s.systemCode, s.functionName, s.paramType, s.returnType);
    if systemProgram.Err? {
      result.Stop(Error, systemProgram.error);
      return None;
    }
    var sc := LegacyCompileCode(system.value.compileCommand, sb[CompileCall(Reference, systemProgram.value)]);
    if sc.status != Success {
      result.Stop(InternalError, sc.error.GetOr("System code compilation failed"));
      return None;
    }
    return Some(checked.value);
  }

  /** The legacy `processSubmission(submission, …)`: the "run" job, under
      the fresh id `submissionId`. */
  method LegacyProcessSubmission(sb: Sandbox, submissionId: string, s: Submission) returns (result: LegacyResult)
    ensures fresh(result)
    ensures result.Snapshot() == LegacySubmissionResult(sb, submissionId, s)
  {
    hide RunModeCases, ValidateField;
    result := new LegacyResult(submissionId, s.userId, s.questionId);
    var testcases := PrepareLegacySubmission(result, sb, s);
    if testcases.Some? {
      RunModeLoop(result, sb, testcases.value, |s.paramType|);
    }
  }

  /** The part of the legacy `processAnswer` before its test cases. */
  method PrepareLegacyAnswer(result: LegacyResult, sb: Sandbox, s: Submission) returns (ready: Option<(seq<string>, seq<string>)>)
    modifies result
    ensures AnswerPhase(old(result.Snapshot()), sb, s) ==
      if ready.Some? then Running(result.Snapshot(), ready.value.0, ready.value.1) else Done(result.Snapshot())
  {
    hide WrapProgram, LegacyCompileCode;
    var user := LookupHandler(s.language, "userCode");
    if user.None? {
      result.CatchAnswer(LookupFailure);
      return None;
    }
    var testcases := TestLines(s.dataInput);
    var outputs := ExpectedOutputs(s.systemCode);
    if |s.paramType| == 0 || |testcases| % |s.paramType| != 0 {
      result.Stop(Error, LineCountMessage);
      return None;
    }
    var total := Quotient(|testcases|, |s.paramType|);
    result.SetTotal(total);
    if |outputs| != total {
      result.Stop(Error, OutputCountError(total, |outputs|).message);
      return None;
    }
    var userProgram := WrapCode(user.value.lang, s.userCode, s.functionName, s.paramType, s.returnType);
    if userProgram.Err? {
      result.CatchAnswer(userProgram.error);
      return None;
    }
    var uc := LegacyCompileCode(user.value.compileCommand, sb[CompileCall(User, userProgram.value)]);
    if uc.status != Success {
      var message := uc.error.GetOr("User code compilation failed");
      result.Stop(uc.status, message);
      result.SetLast(LastTestCase(0, "", None, None, uc.status, Some(message)));
      return None;
    }
    return Some((testcases, outputs));
  }

  /** The legacy `processAnswer(submission, …)`: the "submit" job, under the
      fresh id `submissionId`. */
  method LegacyProcessAnswer(sb: Sandbox, submissionId: string, s: Submission) returns (result: LegacyResult)
    ensures fresh(result)
    ensures result.Snapshot() == LegacyAnswerResult(sb, submissionId, s)
  {
    hide SubmitModeCases;
    result := new LegacyResult(submissionId, s.userId, s.questionId);
    var ready := PrepareLegacyAnswer(result, sb, s);
    if ready.Some? {
      SubmitModeLoop(result, sb, ready.value.0, ready.value.1, |s.paramType|);
    }
  }
}
