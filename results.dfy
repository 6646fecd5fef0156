/** The record a judging job produces (`ExecutionResult`), the exception
    the engine throws (`ExecutionError`), and `handleError`, which folds an
    exception into the record in place. */
module Results {
  import opened Wrappers
  import opened Strings
  import opened Numbers

  /** The verdicts of a job; `StatusText` gives the wire value. */
  datatype Status =
    | Success | Error | Timeout | RuntimeError | InternalError
    | CompilationError | WrongAnswer | MemoryLimitExceeded

  function StatusText(s: Status): string {
    match s
    case Success => "success"
    case Error => "error"
    case Timeout => "timeout"
    case RuntimeError => "runtime_error"
    case InternalError => "internal_error"
    case CompilationError => "compilation_error"
    case WrongAnswer => "wrong_answer"
    case MemoryLimitExceeded => "memory_limit_exceeded"
  }

  /** The details of the test case that failed last. */
  datatype LastTestCase = LastTestCase(
    number: nat,
    input: string,
    output: Option<string>,
    expectedOutput: Option<string>,
    status: Status,
    error: Option<string>)

  /** An exception reaching `handleError`: the engine's own `ExecutionError`,
      or any other `Error`, which carries only a message. */
  datatype Thrown =
    | ExecutionError(status: Status, message: string, testCaseNumber: nat, input: string)
    | PlainError(message: string)

  /** `new ExecutionError(status, message)`: the test-case number defaults
      to 0 and the input to the empty string. */
  function NewExecutionError(status: Status, message: string): (e: Thrown)
    ensures e.ExecutionError? && e.status == status && e.message == message
    ensures e.testCaseNumber == 0 && e.input == ""
  {
    ExecutionError(status, message, 0, "")
  }

  /** The status an exception gives a result: its own for an
      `ExecutionError`, `Error` for anything else. */
  function ThrownStatus(e: Thrown): (s: Status)
    ensures e.PlainError? ==> s == Error
  {
    if e.ExecutionError? then e.status else Error
  }

  /** The message recorded for an exception: its own, or "Unknown error"
      when it is empty. */
  function ErrorText(e: Thrown): (m: string)
    ensures m != ""
    ensures e.message != "" ==> m == e.message
  {
    if e.message == "" then "Unknown error" else e.message
  }

  /** The engine never throws with status Success. */
  predicate IsFailure(e: Thrown) {
    ThrownStatus(e) != Success
  }

  /** The fields of an `ExecutionResult`, as a value. `submissionId` is
      `None` for a job that carried no id of its own. */
  datatype Verdict = Verdict(
    submissionId: Option<string>,
    userId: string,
    questionId: string,
    status: Status,
    codeAnswer: seq<string>,
    stdOutputList: seq<string>,
    expectedCodeAnswer: seq<string>,
    executionTime: seq<string>,
    executionMemory: seq<string>,
    correctTestCases: nat,
    totalTestCases: nat,
    lastTestCase: Option<LastTestCase>,
    isAnswer: bool,
    error: Option<string>,
    errors: Option<seq<string>>)

  /** The record a job starts from: Success, everything empty, `errors` an
      empty list. */
  function Initial(submissionId: Option<string>, userId: string, questionId: string, isAnswer: bool): (v: Verdict)
    ensures v.submissionId == submissionId && v.userId == userId && v.questionId == questionId
    ensures v.status == Success && v.errors == Some([]) && v.lastTestCase.None? && v.error.None?
    ensures v.codeAnswer == v.stdOutputList == v.expectedCodeAnswer == v.executionTime == v.executionMemory == []
    ensures v.correctTestCases == 0 && v.totalTestCases == 0 && v.isAnswer == isAnswer
  {
    Verdict(submissionId, userId, questionId, Success, [], [], [], [], [], 0, 0, None, isAnswer, None, Some([]))
  }

  /** The `errors` list, with an absent one read as empty. */
  function ErrorList(v: Verdict): seq<string> {
    if v.errors.Some? then v.errors.value else []
  }

  /** The five per-test arrays, the counters, the ids and the mode. */
  predicate SameRecords(a: Verdict, b: Verdict) {
    a.submissionId == b.submissionId && a.userId == b.userId && a.questionId == b.questionId &&
    a.codeAnswer == b.codeAnswer && a.stdOutputList == b.stdOutputList &&
    a.expectedCodeAnswer == b.expectedCodeAnswer && a.executionTime == b.executionTime &&
    a.executionMemory == b.executionMemory && a.correctTestCases == b.correctTestCases &&
    a.totalTestCases == b.totalTestCases && a.isAnswer == b.isAnswer
  }

  /** The entry `handleError` appends for test case `n`. */
  function CaseError(n: nat, e: Thrown): string {
    "Test case " + NatToDecimal(n) + ": " + ErrorText(e)
  }

  /** `handleError(result, e, n, input)` as a function of the old record. */
  function AfterError(v: Verdict, e: Thrown, n: nat, input: string): (r: Verdict)
    ensures r.status == ThrownStatus(e) && r.error == Some(ErrorText(e))
    ensures r.errors.Some?
    ensures n > 0 ==> r.errors.value == ErrorList(v) + [CaseError(n, e)]
    ensures n == 0 ==> r.errors.value == ErrorList(v)
    ensures n > 0 ==> r.lastTestCase == Some(LastTestCase(n, input, None, None, ThrownStatus(e), Some(ErrorText(e))))
    ensures n == 0 ==> r.lastTestCase == v.lastTestCase
    ensures SameRecords(r, v)
  {
    v.(status := ThrownStatus(e),
       error := Some(ErrorText(e)),
       errors := Some(if n > 0 then ErrorList(v) + [CaseError(n, e)] else ErrorList(v)),
       lastTestCase := if n > 0 then Some(LastTestCase(n, input, None, None, ThrownStatus(e), Some(ErrorText(e))))
                       else v.lastTestCase)
  }

  /** `result.totalTestCases = total`. */
  function WithTotal(v: Verdict, total: nat): Verdict {
    v.(totalTestCases := total)
  }

  /** `result.expected_code_answer.push(x)`. */
  function WithExpected(v: Verdict, x: string): Verdict {
    v.(expectedCodeAnswer := v.expectedCodeAnswer + [x])
  }

  /** `result.correctTestCases++`. */
  function Counted(v: Verdict): Verdict {
    v.(correctTestCases := v.correctTestCases + 1)
  }

  /** The user's answer and the expected one, added to the last test case. */
  function WithMismatch(v: Verdict, output: string, expected: string): Verdict
    requires v.lastTestCase.Some?
  {
    v.(lastTestCase := Some(v.lastTestCase.value.(output := Some(output), expectedOutput := Some(expected))))
  }

  /** A record in which any recorded test-case error goes with a failing
      status. */
  predicate ErrorsMeanFailure(v: Verdict) {
    |ErrorList(v)| > 0 ==> v.status != Success
  }

  /** `handleError` with a failing exception leaves the status failing, so
      the invariant holds after it whatever held before. */
  lemma AfterErrorFails(v: Verdict, e: Thrown, n: nat, input: string)
    requires IsFailure(e)
    ensures AfterError(v, e, n, input).status != Success
    ensures ErrorsMeanFailure(AfterError(v, e, n, input))
  {
  }

  /** A run of `handleError` calls, in order. */
  function AfterErrors(v: Verdict, calls: seq<(Thrown, nat, string)>): Verdict
    decreases |calls|
  {
    if |calls| == 0 then v
    else AfterErrors(AfterError(v, calls[0].0, calls[0].1, calls[0].2), calls[1..])
  }

  /** The number of calls that name a test case. */
  function NumberedCalls(calls: seq<(Thrown, nat, string)>): nat {
    if |calls| == 0 then 0 else (if calls[0].1 > 0 then 1 else 0) + NumberedCalls(calls[1..])
  }

  /** `errors` grows by exactly one entry per call that names a test case,
      the per-test arrays never change, and the status is that of the last
      exception. */
  lemma {:induction false} AfterErrorsCount(v: Verdict, calls: seq<(Thrown, nat, string)>)
    requires |calls| >= 1
    ensures var r := AfterErrors(v, calls);
      |ErrorList(r)| == |ErrorList(v)| + NumberedCalls(calls) &&
      SameRecords(r, v) &&
      r.status == ThrownStatus(calls[|calls| - 1].0)
    decreases |calls|
  {
    var w := AfterError(v, calls[0].0, calls[0].1, calls[0].2);
    if |calls| > 1 {
      AfterErrorsCount(w, calls[1..]);
    }
  }

  /** The mutable record. */
  class ExecutionResult {
    var submissionId: Option<string>
    var userId: string
    var questionId: string
    var status: Status
    var codeAnswer: seq<string>
    var stdOutputList: seq<string>
    var expectedCodeAnswer: seq<string>
    var executionTime: seq<string>
    var executionMemory: seq<string>
    var correctTestCases: nat
    var totalTestCases: nat
    var lastTestCase: Option<LastTestCase>
    var isAnswer: bool
    var error: Option<string>
    var errors: Option<seq<string>>

    function Snapshot(): Verdict
      reads this
    {
      Verdict(submissionId, userId, questionId, status, codeAnswer, stdOutputList,
              expectedCodeAnswer, executionTime, executionMemory, correctTestCases,
              totalTestCases, lastTestCase, isAnswer, error, errors)
    }

    constructor (submissionId: Option<string>, userId: string, questionId: string, isAnswer: bool)
      ensures Snapshot() == Initial(submissionId, userId, questionId, isAnswer)
    {
      this.submissionId := submissionId;
      this.userId := userId;
      this.questionId := questionId;
      this.isAnswer := isAnswer;
      status := Success;
      codeAnswer, stdOutputList, expectedCodeAnswer := [], [], [];
      executionTime, executionMemory := [], [];
      correctTestCases, totalTestCases := 0, 0;
      lastTestCase := None;
      error := None;
      errors := Some([]);
    }

    /** One push onto each per-test array, the expected answers only when
        `expected` is given. */
    method PushEntries(answer: string, stdout: string, expected: Option<string>, time: string, memory: string)
      modifies this
      ensures Snapshot() == old(Snapshot()).(
        codeAnswer := old(codeAnswer) + [answer],
        stdOutputList := old(stdOutputList) + [stdout],
        expectedCodeAnswer := old(expectedCodeAnswer) + (if expected.Some? then [expected.value] else []),
        executionTime := old(executionTime) + [time],
        executionMemory := old(executionMemory) + [memory])
    {
      codeAnswer := codeAnswer + [answer];
      stdOutputList := stdOutputList + [stdout];
      if expected.Some? {
        expectedCodeAnswer := expectedCodeAnswer + [expected.value];
      }
      executionTime := executionTime + [time];
      executionMemory := executionMemory + [memory];
    }

    method SetTotal(total: nat)
      modifies this
      ensures Snapshot() == WithTotal(old(Snapshot()), total)
    {
      totalTestCases := total;
    }

    method PushExpected(x: string)
      modifies this
      ensures Snapshot() == WithExpected(old(Snapshot()), x)
    {
      expectedCodeAnswer := expectedCodeAnswer + [x];
    }

    method CountCorrect()
      modifies this
      ensures Snapshot() == Counted(old(Snapshot()))
    {
      correctTestCases := correctTestCases + 1;
    }

    method RecordMismatch(output: string, expected: string)
      requires lastTestCase.Some?
      modifies this
      ensures Snapshot() == WithMismatch(old(Snapshot()), output, expected)
    {
      lastTestCase := Some(lastTestCase.value.(output := Some(output), expectedOutput := Some(expected)));
    }

    /** `handleError(this, e, n, input)`. */
    method HandleError(e: Thrown, n: nat, input: string)
      modifies this
      ensures Snapshot() == AfterError(old(Snapshot()), e, n, input)
    {
      hide ThrownStatus, ErrorText, CaseError;
      ghost var was := Snapshot();
      var s := ThrownStatus(e);
      var message := ErrorText(e);
      status := s;
      error := Some(message);
      if errors.None? {
        errors := Some([]);
      }
      assert errors.value == ErrorList(was);
      if n > 0 {
        errors := Some(errors.value + [CaseError(n, e)]);
        lastTestCase := Some(LastTestCase(n, input, None, None, s, Some(message)));
      }
    }
  }
}
