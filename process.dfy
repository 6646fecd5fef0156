/** The judging pipeline of the worker: splitting and validating the
    test-case lines (`validateTestCases`), the per-test-case loop
    (`processTestCases`), and the two jobs built on them, "run"
    (`processSubmission`: the user's program against the reference program)
    and "submit" (`processAnswer`: the user's program against stored expected
    outputs). The sandbox is the oracle `sb`; each compile and run asks it
    for its report. */
module Process {
  import opened Wrappers
  import opened Strings
  import opened Numbers
  import opened Results
  import opened Validator
  import opened Isolate
  import opened Compile
  import opened Execute
  import opened Handlers

  /** A job as it arrives from the queue. */
  datatype Submission = Submission(
    submissionId: Option<string>,
    questionId: string,
    language: string,
    functionName: string,
    dataInput: string,
    userCode: string,
    systemCode: string,
    paramType: seq<string>,
    returnType: string,
    isAnswer: bool,
    userId: string)

  /* ---------------------------------------------------------------------
     validateTestCases
     --------------------------------------------------------------------- */

  /** The non-blank lines of the test data. */
  function TestLines(dataInput: string): seq<string> {
    KeepNonBlank(Split(dataInput, "\n"))
  }

  const LineCountMessage: string := "Number of test case lines does not match paramType length"

  /** The parameter a line stands for: the source's `i % n`
      (`ColumnIsRemainder`). */
  function Column(i: nat, n: nat): (j: nat)
    requires n > 0
    ensures j < n && j <= i
  {
    if i < n then i else Column(i - n, n)
  }

  /** The test case a line belongs to: the source's `Math.floor(i / n) + 1`
      (`ColumnIsRemainder`). */
  function CaseOf(i: nat, n: nat): (k: nat)
    requires n > 0
    ensures k >= 1
  {
    if i < n then 1 else CaseOf(i - n, n) + 1
  }

  /** `Column` and `CaseOf` are the remainder and the quotient plus one. */
  lemma {:induction false} ColumnIsRemainder(i: nat, n: nat)
    requires n > 0
    ensures Column(i, n) == i % n && CaseOf(i, n) == i / n + 1
    decreases i
  {
    if i < n {
      DivUnique(i, n, 0, i);
    } else {
      ColumnIsRemainder(i - n, n);
      var q, r := (i - n) / n, (i - n) % n;
      assert i - n == q * n + r;
      assert i == (q + 1) * n + r;
      DivUnique(i, n, q + 1, r);
    }
  }

  /** The head of every validation error message. */
  const ValidationPrefix := "Validation failed for test case "

  /** The error for line `i` failing with `message`: it names the test case
      the line belongs to, and carries that case's lines up to the failing
      one as they stand at that moment. */
  function ValidationError(lines: seq<string>, n: nat, i: nat, message: string): Thrown
    requires 0 < n && i < |lines|
  {
    ExecutionError(Error, ValidationPrefix + NatToDecimal(CaseOf(i, n)) + ": " + message,
      CaseOf(i, n), Join(lines[i - Column(i, n) .. i + 1], "\n"))
  }

  /** A field check: the rewritten line, or the message of the error it
      throws. The pipeline passes `ValidateField`; the loop's
      properties hold for any check. */
  type FieldCheck = (string, string) -> Result<string, string>

  /** The check of line `i`, against the parameter type it stands for. */
  function CheckLine(check: FieldCheck, lines: seq<string>, paramType: seq<string>, i: nat): Result<string, string>
    requires |paramType| > 0 && i < |lines|
  {
    check(lines[i], paramType[Column(i, |paramType|)])
  }

  /** The validation loop from line `i` on, each passing line replaced by
      its rewritten form. */
  function ValidateFrom(check: FieldCheck, lines: seq<string>, paramType: seq<string>, i: nat): Result<seq<string>, Thrown>
    requires |paramType| > 0
    decreases |lines| - i
  {
    if i >= |lines| then Ok(lines)
    else match CheckLine(check, lines, paramType, i)
      case Ok(x) => ValidateFrom(check, lines[i := x], paramType, i + 1)
      case Err(m) => Err(ValidationError(lines, |paramType|, i, m))
  }

  /** Whole division of a count of lines into test cases. */
  function Quotient(count: nat, width: nat): (q: nat)
    requires width > 0
    ensures count % width == 0 ==> q * width == count
  {
    count / width
  }

  /** The test cases and their number. */
  datatype TestCases = TestCases(testcases: seq<string>, totalTestCases: nat)

  /** `validateTestCases(dataInput, paramType, validate)`. With no parameter
      types the remainder is not a number, so that case fails the line count
      too. */
  function ValidatedTestCases(check: FieldCheck, dataInput: string, paramType: seq<string>, validate: bool): Result<TestCases, Thrown> {
    var lines := TestLines(dataInput);
    if |paramType| == 0 || |lines| % |paramType| != 0 then Err(NewExecutionError(Error, LineCountMessage))
    else if !validate then Ok(TestCases(lines, Quotient(|lines|, |paramType|)))
    else match ValidateFrom(check, lines, paramType, 0)
      case Ok(checked) => Ok(TestCases(checked, Quotient(|lines|, |paramType|)))
      case Err(e) => Err(e)
  }

  /** `validateTestCases`, rewriting the lines in place. */
  method ValidateTestCases(check: FieldCheck, dataInput: string, paramType: seq<string>, validate: bool)
    returns (r: Result<TestCases, Thrown>)
    ensures r == ValidatedTestCases(check, dataInput, paramType, validate)
  {
    var testcases := TestLines(dataInput);
    if |paramType| == 0 || |testcases| % |paramType| != 0 {
      return Err(NewExecutionError(Error, LineCountMessage));
    }
    if validate {
      var i := 0;
      while i < |testcases|
        invariant i <= |testcases| == |TestLines(dataInput)|
        invariant ValidateFrom(check, testcases, paramType, i) == ValidateFrom(check, TestLines(dataInput), paramType, 0)
        decreases |testcases| - i
      {
        var j := Column(i, |paramType|);
        match check(testcases[i], paramType[j]) {
          case Err(m) =>
            return Err(ValidationError(testcases, |paramType|, i, m));
          case Ok(x) =>
            testcases := testcases[i := x];
        }
        i := i + 1;
      }
    }
    return Ok(TestCases(testcases, Quotient(|testcases|, |paramType|)));
  }

  /** Validation from line `i` succeeds exactly when every later line passes
      its check, and then each of those lines is replaced by its rewritten
      form and nothing else changes. */
  lemma {:induction false} ValidateFromOk(check: FieldCheck, lines: seq<string>, paramType: seq<string>, i: nat)
    requires |paramType| > 0 && i <= |lines|
    ensures ValidateFrom(check, lines, paramType, i).Ok? <==>
      forall j :: i <= j < |lines| ==> CheckLine(check, lines, paramType, j).Ok?
    ensures ValidateFrom(check, lines, paramType, i).Ok? ==>
      var out := ValidateFrom(check, lines, paramType, i).value;
      |out| == |lines| && out[..i] == lines[..i] &&
      forall j :: i <= j < |lines| ==> out[j] == CheckLine(check, lines, paramType, j).value
    decreases |lines| - i
  {
    if i < |lines| {
      var f := CheckLine(check, lines, paramType, i);
      if f.Ok? {
        var next := lines[i := f.value];
        ValidateFromOk(check, next, paramType, i + 1);
        assert forall j :: i < j < |lines| ==> CheckLine(check, next, paramType, j) == CheckLine(check, lines, paramType, j);
        if ValidateFrom(check, lines, paramType, i).Ok? {
          var out := ValidateFrom(check, lines, paramType, i).value;
          assert out[..i + 1][..i] == out[..i];
          assert next[..i + 1][..i] == lines[..i];
        }
      }
    }
  }

  /** The lines after the loop has rewritten lines `i` to `j - 1`. */
  function RewrittenTo(check: FieldCheck, lines: seq<string>, paramType: seq<string>, i: nat, j: nat): (w: seq<string>)
    requires |paramType| > 0 && i <= j <= |lines|
    requires forall k :: i <= k < j ==> CheckLine(check, lines, paramType, k).Ok?
    ensures |w| == |lines|
    decreases j - i
  {
    if i == j then lines
    else
      var next := lines[i := CheckLine(check, lines, paramType, i).value];
      assert forall k :: i < k < j ==> CheckLine(check, next, paramType, k) == CheckLine(check, lines, paramType, k);
      RewrittenTo(check, next, paramType, i + 1, j)
  }

  /** Rewriting lines `i` to `j - 1` changes exactly those lines. */
  lemma {:induction false} RewrittenToLines(check: FieldCheck, lines: seq<string>, paramType: seq<string>, i: nat, j: nat)
    requires |paramType| > 0 && i <= j <= |lines|
    requires forall k :: i <= k < j ==> CheckLine(check, lines, paramType, k).Ok?
    ensures var w := RewrittenTo(check, lines, paramType, i, j);
      |w| == |lines| &&
      (forall k :: 0 <= k < |lines| && !(i <= k < j) ==> w[k] == lines[k]) &&
      (forall k :: i <= k < j ==> w[k] == CheckLine(check, lines, paramType, k).value)
    decreases j - i
  {
    if i < j {
      var next := lines[i := CheckLine(check, lines, paramType, i).value];
      assert forall k :: i < k < j ==> CheckLine(check, next, paramType, k) == CheckLine(check, lines, paramType, k);
      RewrittenToLines(check, next, paramType, i + 1, j);
    }
  }

  /** The first failing line `j` decides the error: validation stops there,
      with the earlier lines of its test case already rewritten. */
  lemma {:induction false} ValidateFromFirstFailure(check: FieldCheck, lines: seq<string>, paramType: seq<string>, i: nat, j: nat)
    requires |paramType| > 0 && i <= j < |lines|
    requires forall k :: i <= k < j ==> CheckLine(check, lines, paramType, k).Ok?
    requires CheckLine(check, lines, paramType, j).Err?
    ensures ValidateFrom(check, lines, paramType, i) ==
      Err(ValidationError(RewrittenTo(check, lines, paramType, i, j), |paramType|, j,
        CheckLine(check, lines, paramType, j).error))
    decreases j - i
  {
    RewrittenToLines(check, lines, paramType, i, j);
    if i < j {
      var next := lines[i := CheckLine(check, lines, paramType, i).value];
      assert forall k :: i < k <= j ==> CheckLine(check, next, paramType, k) == CheckLine(check, lines, paramType, k);
      ValidateFromFirstFailure(check, next, paramType, i + 1, j);
    }
  }

  /** `validateTestCases` fails on the line count exactly when there are no
      parameter types or the lines do not divide into whole test cases;
      otherwise each test case is one line per parameter, and without
      validation the lines are returned as read. */
  lemma ValidatedCounts(check: FieldCheck, dataInput: string, paramType: seq<string>, validate: bool)
    ensures var r := ValidatedTestCases(check, dataInput, paramType, validate);
      (r == Err(NewExecutionError(Error, LineCountMessage)) <==>
        |paramType| == 0 || |TestLines(dataInput)| % |paramType| != 0)
    ensures var r := ValidatedTestCases(check, dataInput, paramType, validate);
      r.Ok? ==> |r.value.testcases| == |TestLines(dataInput)| == r.value.totalTestCases * |paramType|
    ensures !validate && ValidatedTestCases(check, dataInput, paramType, validate).Ok? ==>
      ValidatedTestCases(check, dataInput, paramType, validate).value.testcases == TestLines(dataInput)
  {
    var lines := TestLines(dataInput);
    if |paramType| > 0 && |lines| % |paramType| == 0 {
      var q := Quotient(|lines|, |paramType|);
      assert q * |paramType| == |lines|;
      if validate {
        ValidateFromOk(check, lines, paramType, 0);
        ValidateFromErrors(check, lines, paramType, 0);
      }
    }
  }

  /** Every error of the validation loop is a numbered validation error,
      never the line-count one. */
  lemma {:induction false} ValidateFromErrors(check: FieldCheck, lines: seq<string>, paramType: seq<string>, i: nat)
    requires |paramType| > 0
    ensures ValidateFrom(check, lines, paramType, i).Err? ==>
      var e := ValidateFrom(check, lines, paramType, i).error;
      e.ExecutionError? && e.status == Error && e.testCaseNumber > 0 &&
      ValidationPrefix <= e.message
    decreases |lines| - i
  {
    if i < |lines| {
      var f := CheckLine(check, lines, paramType, i);
      if f.Ok? {
        ValidateFromErrors(check, lines[i := f.value], paramType, i + 1);
      } else {
      }
    }
  }

  /* ---------------------------------------------------------------------
     processTestCases
     --------------------------------------------------------------------- */

  /** How the answers are judged: against the reference program, or else
      against the given expected outputs; and whether the first failure
      ends the loop. */
  datatype CaseMode = CaseMode(hasSystem: bool, expected: Option<seq<string>>, stop: bool)

  /** "run": against the reference program, every test case. */
  const RunMode: CaseMode := CaseMode(true, None, false)

  /** "submit": against expected outputs, up to the first failure. */
  function SubmitMode(expected: seq<string>): CaseMode {
    CaseMode(false, Some(expected), true)
  }

  /** A record after some steps, and whether the last step failed (or, for
      a whole loop, whether it returned early). */
  datatype Step = Step(verdict: Verdict, failed: bool)

  function Min(a: int, b: int): int {
    if a < b then a else b
  }

  /** The input of the test case that starts at line `i`: its lines,
      joined; the last case is cut short if the lines run out. */
  function CaseInput(testcases: seq<string>, n: nat, i: nat): string
    requires i <= |testcases|
  {
    Join(testcases[i .. Min(i + n, |testcases|)], "\n")
  }

  /** The trimmed expected output of test case `k`, if there is one. */
  function ExpectedFor(expected: Option<seq<string>>, k: nat): Option<string> {
    if expected.Some? && 1 <= k <= |expected.value| then Some(Trim(expected.value[k - 1])) else None
  }

  /** The wrong-answer error. */
  function Mismatch(expected: string, got: string, k: nat, input: string): Thrown {
    ExecutionError(WrongAnswer, "Expected " + expected + ", got " + got, k, input)
  }

  /** The error reported when the reference program fails on a case. */
  function SystemFailure(run: TestRun, k: nat, input: string): Thrown
    requires run.error.Some? && run.error.value.ExecutionError?
  {
    ExecutionError(Error, "System code " + StatusText(run.error.value.status), k, input)
  }

  /** The run of the user's program on case `k`. */
  function UserOutput(sb: Sandbox, k: nat, input: string): CodeOutput {
    ExecuteCode(sb[RunCall(User, k, input)], true)
  }

  /** The run of the reference program on case `k`. */
  function SystemOutput(sb: Sandbox, k: nat, input: string): CodeOutput {
    ExecuteCode(sb[RunCall(Reference, k, input)], false)
  }

  /** One pass of the loop body for test case `k`, given what the user's
      program (`out`) and the reference program (`sysOut`) did on it. */
  function CaseStep(v: Verdict, out: CodeOutput, sysOut: CodeOutput, k: nat, input: string, hasSystem: bool, expected: Option<string>): Step
    requires k > 0
  {
    var user := RunOutcome(out, k, input);
    var w := AfterRun(v, out, true);
    if user.error.Some? then Step(AfterError(w, user.error.value, k, input), true)
    else if hasSystem then
      var sys := RunOutcome(sysOut, k, input);
      if sys.error.Some? then Step(AfterError(w, SystemFailure(sys, k, input), 0, ""), true)
      else if user.output != sys.output then
        Step(AfterError(WithExpected(w, sys.output), Mismatch(sys.output, user.output, k, input), k, input), true)
      else Step(Counted(WithExpected(w, sys.output)), false)
    else if expected.Some? && expected.value != "" then
      if user.output != expected.value then
        Step(WithMismatch(AfterError(WithExpected(w, expected.value), Mismatch(expected.value, user.output, k, input), k, input),
          user.output, expected.value), true)
      else Step(Counted(WithExpected(w, expected.value)), false)
    else Step(w, false)
  }

  /** Test case `k` of the loop, run in the sandbox. */
  function SandboxStep(v: Verdict, sb: Sandbox, k: nat, input: string, hasSystem: bool, expected: Option<string>): Step
    requires k > 0
  {
    CaseStep(v, UserOutput(sb, k, input), SystemOutput(sb, k, input), k, input, hasSystem, expected)
  }

  /** The loop from line `i` on; `failed` says it returned early. */
  function RunCases(v: Verdict, sb: Sandbox, testcases: seq<string>, n: nat, mode: CaseMode, i: nat): Step
    requires n > 0
    decreases |testcases| - i
  {
    if i >= |testcases| then Step(v, false)
    else
      var k := CaseOf(i, n);
      var s := SandboxStep(v, sb, k, CaseInput(testcases, n, i), mode.hasSystem, ExpectedFor(mode.expected, k));
      if s.failed && mode.stop then Step(s.verdict, true)
      else RunCases(s.verdict, sb, testcases, n, mode, i + n)
  }

  /** The check after the loop: errors with a Success status turn into a
      general failure. */
  function FinalCheck(v: Verdict): Verdict {
    if |ErrorList(v)| > 0 && v.status == Success then v.(status := Error, error := Some("One or more test cases failed"))
    else v
  }

  /** `processTestCases(result, testcases, paramType, …)` as a function of
      the old record; an early return skips the final check. */
  function TestCasesVerdict(v: Verdict, sb: Sandbox, testcases: seq<string>, n: nat, mode: CaseMode): Verdict
    requires n > 0
  {
    var s := RunCases(v, sb, testcases, n, mode, 0);
    if s.failed then s.verdict else FinalCheck(s.verdict)
  }

  /** The loop body for test case `k`. */
  method RunCase(result: ExecutionResult, sb: Sandbox, k: nat, input: string, hasSystem: bool, expected: Option<string>)
    returns (failed: bool)
    requires k > 0
    modifies result
    ensures Step(result.Snapshot(), failed) == SandboxStep(old(result.Snapshot()), sb, k, input, hasSystem, expected)
  {
    var user := ExecuteTestCase(result, sb[RunCall(User, k, input)], input, k, true);
    if user.error.Some? {
      result.HandleError(user.error.value, k, input);
      return true;
    }
    if hasSystem {
      var sys := ExecuteTestCase(result, sb[RunCall(Reference, k, input)], input, k, false);
      if sys.error.Some? {
        result.HandleError(SystemFailure(sys, k, input), 0, "");
        return true;
      }
      result.PushExpected(sys.output);
      if user.output != sys.output {
        result.HandleError(Mismatch(sys.output, user.output, k, input), k, input);
        return true;
      }
      result.CountCorrect();
      return false;
    }
    if expected.Some? && expected.value != "" {
      result.PushExpected(expected.value);
      if user.output != expected.value {
        result.HandleError(Mismatch(expected.value, user.output, k, input), k, input);
        result.RecordMismatch(user.output, expected.value);
        return true;
      }
      result.CountCorrect();
    }
    return false;
  }

  /** One turn of the loop, as the recursion takes it. */
  lemma CaseAdvances(v: Verdict, sb: Sandbox, testcases: seq<string>, n: nat, mode: CaseMode, i: nat, s: Step)
    requires n > 0 && i < |testcases|
    requires s == SandboxStep(v, sb, CaseOf(i, n), CaseInput(testcases, n, i), mode.hasSystem, ExpectedFor(mode.expected, CaseOf(i, n)))
    ensures RunCases(v, sb, testcases, n, mode, i) ==
      if s.failed && mode.stop then Step(s.verdict, true) else RunCases(s.verdict, sb, testcases, n, mode, i + n)
  {
  }

  /** Past the last line the loop is over. */
  lemma CasesDone(v: Verdict, sb: Sandbox, testcases: seq<string>, n: nat, mode: CaseMode, i: nat)
    requires n > 0 && i >= |testcases|
    ensures RunCases(v, sb, testcases, n, mode, i) == Step(v, false)
  {
  }

  /** Division by `n` recovers the quotient of `q * n + r` when `r < n`. */
  lemma DivUnique(a: int, n: int, q: int, r: int)
    requires n > 0 && 0 <= r < n && a == q * n + r
    ensures a / n == q
  {
    var q', r' := a / n, a % n;
    assert a == q' * n + r';
    assert (q - q') * n == r' - r;
    MulSign(q - q', n);
  }

  /** A non-zero multiple of `n` is at least `n` away from zero. */
  lemma MulSign(d: int, n: int)
    requires n > 0
    ensures d >= 1 ==> d * n >= n
    ensures d <= -1 ==> d * n <= -n
  {
    if d >= 1 {
      MulAtLeast(d, n);
    } else if d <= -1 {
      MulAtLeast(-d, n);
      assert d * n == -((-d) * n);
    }
  }

  lemma {:induction false} MulAtLeast(d: nat, n: nat)
    requires d >= 1
    ensures d * n >= n
    decreases d
  {
    if d > 1 {
      MulAtLeast(d - 1, n);
      assert d * n == (d - 1) * n + n;
    }
  }

  /** One turn of the loop: the test case that starts at line `i`. */
  method NextTestCase(result: ExecutionResult, sb: Sandbox, testcases: seq<string>, n: nat, mode: CaseMode, i: nat)
    returns (failed: bool)
    requires n > 0 && i < |testcases|
    modifies result
    ensures RunCases(old(result.Snapshot()), sb, testcases, n, mode, i) ==
      if failed && mode.stop then Step(result.Snapshot(), true)
      else RunCases(result.Snapshot(), sb, testcases, n, mode, i + n)
  {
    ghost var before := result.Snapshot();
    var k := CaseOf(i, n);
    var input := CaseInput(testcases, n, i);
    failed := RunCase(result, sb, k, input, mode.hasSystem, ExpectedFor(mode.expected, k));
    CaseAdvances(before, sb, testcases, n, mode, i, Step(result.Snapshot(), failed));
  }

  /** The final check, in place. */
  method FailOnErrors(result: ExecutionResult)
    modifies result
    ensures result.Snapshot() == FinalCheck(old(result.Snapshot()))
  {
    if result.errors.Some? && |result.errors.value| > 0 && result.status == Success {
      result.status := Error;
      result.error := Some("One or more test cases failed");
    }
  }

  /** `processTestCases`: one test case per `n` lines. With no parameter
      types the source's loop would never advance, so callers pass `n > 0`
      (both do, after `validateTestCases`). */
  method ProcessTestCases(result: ExecutionResult, sb: Sandbox, testcases: seq<string>, n: nat, mode: CaseMode)
    requires n > 0
    modifies result
    ensures result.Snapshot() == TestCasesVerdict(old(result.Snapshot()), sb, testcases, n, mode)
  {
    hide SandboxStep;
    ghost var start := result.Snapshot();
    var i: nat := 0;
    while i < |testcases|
      invariant RunCases(result.Snapshot(), sb, testcases, n, mode, i) == RunCases(start, sb, testcases, n, mode, 0)
      decreases |testcases| - i
    {
      var failed := NextTestCase(result, sb, testcases, n, mode, i);
      if failed && mode.stop {
        return;
      }
      i := i + n;
    }
    CasesDone(result.Snapshot(), sb, testcases, n, mode, i);
    FailOnErrors(result);
  }

  /* ---------------------------------------------------------------------
     processSubmission and processAnswer
     --------------------------------------------------------------------- */

  /** `SYSTEM_CODE_LANGUAGE`: the reference program is C++. */
  const SystemCodeLanguage := "CPP"

  /** What reaches `handleError` when the language has no handler: calling
      the missing registry entry throws a `TypeError`, which the `catch`
      rebuilds as a plain `Error` from its text. */
  const UnknownLanguage := PlainError("TypeError: languageHandlers[language] is not a function")

  /** A plain `Error` with message `m`, rebuilt by the `catch` as
      `new Error(String(error))`. */
  function Rethrown(m: string): Thrown {
    PlainError("Error: " + m)
  }

  /** The user's program did not compile. */
  function UserCompileError(c: CompileOutcome): Thrown {
    NewExecutionError(c.status, c.error.GetOr("User code compilation failed"))
  }

  /** The reference program did not compile. */
  function SystemCompileError(c: CompileOutcome): Thrown {
    NewExecutionError(InternalError, c.error.GetOr("System code compilation failed"))
  }

  /** The expected outputs of a "submit" job: the non-blank lines of
      `systemCode`, none when it is empty. */
  function ExpectedOutputs(systemCode: string): seq<string> {
    if systemCode != "" then KeepNonBlank(Split(systemCode, "\n")) else []
  }

  /** The error for a number of expected outputs that is not the number of
      test cases. */
  function OutputCountError(total: nat, outputs: nat): Thrown {
    NewExecutionError(Error, "Expected " + NatToDecimal(total) + " outputs, got " + NatToDecimal(outputs))
  }

  /** How far a job got before its test cases: stopped, with the record as
      the `catch` left it, or ready to run them, with the record so far. */
  datatype Stage =
    | Halted(verdict: Verdict)
    | Ready(verdict: Verdict, testcases: seq<string>, expected: seq<string>)

  /** The `catch` of a job: `handleError(result, e)`, with no test case. */
  function Halt(v: Verdict, e: Thrown): Stage {
    Halted(AfterError(v, e, 0, ""))
  }

  /** `processSubmission` from the record `v` up to its test cases. */
  function SubmissionStage(v: Verdict, sb: Sandbox, s: Submission): (r: Stage)
    ensures r.Ready? ==> |s.paramType| > 0
  {
    var user := LookupHandler(s.language, "userCode");
    var system := LookupHandler(SystemCodeLanguage, "systemCode");
    if user.None? || system.None? then Halt(v, UnknownLanguage)
    else match ValidatedTestCases(ValidateField, s.dataInput, s.paramType, true)
      case Err(e) => Halt(v, e)
      case Ok(t) => SubmissionBuild(WithTotal(v, t.totalTestCases), sb, s, user.value, system.value, t.testcases)
  }

  /** The wrapping and compiling of both programs, once the test cases are
      known. */
  function SubmissionBuild(v: Verdict, sb: Sandbox, s: Submission, user: LanguageHandler, system: LanguageHandler,
                           testcases: seq<string>): Stage
  {
    match WrapProgram(user.lang, s.userCode, s.functionName, s.paramType, s.returnType)
    case Err(m) => Halt(v, Rethrown(m))
    case Ok(userProgram) =>
      var uc := CompileCode(user.compileCommand, sb[CompileCall(User, userProgram)]);
      if uc.status != Success then Halt(v, UserCompileError(uc))
      else match WrapProgram(system.lang, s.systemCode, s.functionName, s.paramType, s.returnType)
      case Err(m) => Halt(v, Rethrown(m))
      case Ok(systemProgram) =>
        var sc := CompileCode(system.compileCommand, sb[CompileCall(Reference, systemProgram)]);
        if sc.status != Success then Halt(v, SystemCompileError(sc))
        else Ready(v, testcases, [])
  }

  /** The record `processSubmission` returns for job `s` under the id
      `submissionId`. */
  function SubmissionVerdict(sb: Sandbox, submissionId: string, s: Submission): Verdict {
    match SubmissionStage(Initial(Some(submissionId), s.userId, s.questionId, false), sb, s)
    case Halted(w) => w
    case Ready(w, testcases, _) => FinalCheck(TestCasesVerdict(w, sb, testcases, |s.paramType|, RunMode))
  }

  /** `processAnswer` from the record `v` up to its test cases. */
  function AnswerStage(v: Verdict, sb: Sandbox, s: Submission): (r: Stage)
    ensures r.Ready? ==> |s.paramType| > 0
  {
    var user := LookupHandler(s.language, "userCode");
    if user.None? then Halt(v, UnknownLanguage)
    else match ValidatedTestCases(ValidateField, s.dataInput, s.paramType, false)
      case Err(e) => Halt(v, e)
      case Ok(t) =>
        var v1 := WithTotal(v, t.totalTestCases);
        var outputs := ExpectedOutputs(s.systemCode);
        if |outputs| != t.totalTestCases then Halt(v1, OutputCountError(t.totalTestCases, |outputs|))
        else AnswerBuild(v1, sb, s, user.value, t.testcases, outputs)
  }

  /** The wrapping and compiling of the user's program, once the test
      cases and their expected outputs are known. */
  function AnswerBuild(v: Verdict, sb: Sandbox, s: Submission, user: LanguageHandler,
                       testcases: seq<string>, outputs: seq<string>): Stage
  {
    match WrapProgram(user.lang, s.userCode, s.functionName, s.paramType, s.returnType)
    case Err(m) => Halt(v, Rethrown(m))
    case Ok(userProgram) =>
      var uc := CompileCode(user.compileCommand, sb[CompileCall(User, userProgram)]);
      if uc.status != Success then Halt(v, UserCompileError(uc))
      else Ready(v, testcases, outputs)
  }

  /** The record `processAnswer` returns for job `s`. */
  function AnswerVerdict(sb: Sandbox, s: Submission): Verdict
  {
    match AnswerStage(Initial(s.submissionId, s.userId, s.questionId, true), sb, s)
    case Halted(w) => w
    case Ready(w, testcases, outputs) => TestCasesVerdict(w, sb, testcases, |s.paramType|, SubmitMode(outputs))
  }

  /** The part of `processSubmission` before its test cases; `None` when
      the `catch` has already run. */
  method PrepareSubmission(result: ExecutionResult, sb: Sandbox, s: Submission) returns (testcases: Option<seq<string>>)
    modifies result
    ensures SubmissionStage(old(result.Snapshot()), sb, s) ==
      if testcases.Some? then Ready(result.Snapshot(), testcases.value, []) else Halted(result.Snapshot())
  {
    hide ValidateField, WrapProgram, CompileCode;
    var user := LookupHandler(s.language, "userCode");
    var system := LookupHandler(SystemCodeLanguage, "systemCode");
    if user.None? || system.None? {
      result.HandleError(UnknownLanguage, 0, "");
      return None;
    }
    var checked := ValidateTestCases(ValidateField, s.dataInput, s.paramType, true);
    if checked.Err? {
      result.HandleError(checked.error, 0, "");
      return None;
    }
    result.SetTotal(checked.value.totalTestCases);
    var userProgram := WrapCode(user.value.lang, s.userCode, s.functionName, s.paramType, s.returnType);
    if userProgram.Err? {
      result.HandleError(Rethrown(userProgram.error), 0, "");
      return None;
    }
    var uc := CompileCode(user.value.compileCommand, sb[CompileCall(User, userProgram.value)]);
    if uc.status != Success {
      result.HandleError(UserCompileError(uc), 0, "");
      return None;
    }
    var systemProgram := WrapCode(system.value.lang, s.systemCode, s.functionName, s.paramType, s.returnType);
    if systemProgram.Err? {
      result.HandleError(Rethrown(systemProgram.error), 0, "");
      return None;
    }
    var sc := CompileCode(system.value.compileCommand, sb[CompileCall(Reference, systemProgram.value)]);
    if sc.status != Success {
      result.HandleError(SystemCompileError(sc), 0, "");
      return None;
    }
    return Some(checked.value.testcases);
  }

  /** `processSubmission(submission, …)`: the "run" job. The fresh id that
      the source draws with `uuidv4()` is the parameter `submissionId`. */
  method ProcessSubmission(sb: Sandbox, submissionId: string, s: Submission) returns (result: ExecutionResult)
    ensures fresh(result)
    ensures result.Snapshot() == SubmissionVerdict(sb, submissionId, s)
  {
    hide SandboxStep, ValidateField;
    result := new ExecutionResult(Some(submissionId), s.userId, s.questionId, false);
    var testcases := PrepareSubmission(result, sb, s);
    if testcases.Some? {
      ProcessTestCases(result, sb, testcases.value, |s.paramType|, RunMode);
      FailOnErrors(result);
    }
  }

  /** The part of `processAnswer` before its test cases. */
  method PrepareAnswer(result: ExecutionResult, sb: Sandbox, s: Submission) returns (ready: Option<(seq<string>, seq<string>)>)
    modifies result
    ensures AnswerStage(old(result.Snapshot()), sb, s) ==
      if ready.Some? then Ready(result.Snapshot(), ready.value.0, ready.value.1) else Halted(result.Snapshot())
  {
    hide ValidateField, WrapProgram, CompileCode;
    var user := LookupHandler(s.language, "userCode");
    if user.None? {
      result.HandleError(UnknownLanguage, 0, "");
      return None;
    }
    var checked := ValidateTestCases(ValidateField, s.dataInput, s.paramType, false);
    if checked.Err? {
      result.HandleError(checked.error, 0, "");
      return None;
    }
    result.SetTotal(checked.value.totalTestCases);
    var outputs := ExpectedOutputs(s.systemCode);
    if |outputs| != checked.value.totalTestCases {
      result.HandleError(OutputCountError(checked.value.totalTestCases, |outputs|), 0, "");
      return None;
    }
    var userProgram := WrapCode(user.value.lang, s.userCode, s.functionName, s.paramType, s.returnType);
    if userProgram.Err? {
      result.HandleError(Rethrown(userProgram.error), 0, "");
      return None;
    }
    var uc := CompileCode(user.value.compileCommand, sb[CompileCall(User, userProgram.value)]);
    if uc.status != Success {
      result.HandleError(UserCompileError(uc), 0, "");
      return None;
    }
    return Some((checked.value.testcases, outputs));
  }

  /** `processAnswer(submission, …)`: the "submit" job, which keeps the
      job's own id. */
  method ProcessAnswer(sb: Sandbox, s: Submission) returns (result: ExecutionResult)
    ensures fresh(result)
    ensures result.Snapshot() == AnswerVerdict(sb, s)
  {
    hide SandboxStep, ValidateField;
    result := new ExecutionResult(s.submissionId, s.userId, s.questionId, true);
    var ready := PrepareAnswer(result, sb, s);
    if ready.Some? {
      ProcessTestCases(result, sb, ready.value.0, |s.paramType|, SubmitMode(ready.value.1));
    }
  }
}
