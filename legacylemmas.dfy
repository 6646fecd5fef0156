/** What the legacy engine guarantees, and where it parts from the later
    one: the classifiers without a memory verdict, validation errors that
    name a line, a "run" loop that fills all five arrays for every case and
    judges a wrong answer only by the count, and a "submit" loop that
    stops at the first failure. */
module LegacyLemmas {
  import opened Wrappers
  import opened Strings
  import opened Numbers
  import opened Results
  import opened Isolate
  import opened Execute
  import opened Validator
  import opened Compile
  import opened Handlers
  import opened Process
  import opened ProcessLemmas
  import opened Legacy

  /* ---------------------------------------------------------------------
     The classifiers
     --------------------------------------------------------------------- */

  /** The status code alone picks the compile verdict: TO is a Timeout, RE
      a RuntimeError, anything else a CompilationError. A non-empty meta
      message wins over the thrown one, and without a status code the
      thrown message stands. */
  lemma LegacyCompileByCode(message: Option<string>, metaText: string)
    ensures var r := LegacyCompileFailure(message, Some(metaText));
      var meta := ParseMeta(metaText);
      var code := StatusCode(meta);
      (r.status == Timeout <==> code == Some("TO")) &&
      (r.status == RuntimeError <==> code == Some("RE")) &&
      (code.None? ==> r.error == Some(message.GetOr("Compilation failed"))) &&
      (code.Some? && Lookup(meta, "message").Some? && Lookup(meta, "message").value != "" ==>
        r.error == Lookup(meta, "message"))
  {
  }

  /** The same for a failed run, whose other verdict is Error. */
  lemma LegacyRunByCode(message: Option<string>, metaText: string)
    ensures var r := LegacyRunFailure(message, Some(metaText));
      var meta := ParseMeta(metaText);
      var code := StatusCode(meta);
      (r.status == Timeout <==> code == Some("TO")) &&
      (r.status == RuntimeError <==> code == Some("RE")) &&
      (r.status == Error <==> code.None? || (code.value != "TO" && code.value != "RE")) &&
      (code.None? ==> r.error == Some(message.GetOr("Unknown error"))) &&
      (code.Some? && Lookup(meta, "message").Some? && Lookup(meta, "message").value != "" ==>
        r.error == Lookup(meta, "message"))
  {
  }

  /** A program killed for its memory: the later classifier says
      MemoryLimitExceeded, the legacy one RuntimeError. */
  lemma LegacyRunIgnoresMemory(message: Option<string>, metaText: string, stderrText: Option<string>)
    requires Lookup(ParseMeta(metaText), "status") == Some("RE")
    requires MemorySignal(ParseMeta(metaText), ExecuteMemoryLimitKb)
    ensures LegacyRunFailure(message, Some(metaText)).status == RuntimeError
    ensures ClassifyRunFailure(message, Some(metaText), stderrText).status == MemoryLimitExceeded
  {
  }

  /** A compiler that exits non-zero: the legacy classifier says
      RuntimeError, which the later one never gives for a compilation. */
  lemma LegacyCompileRuntimeError(message: Option<string>, metaText: string, stderrText: Option<string>)
    requires Lookup(ParseMeta(metaText), "status") == Some("RE")
    ensures LegacyCompileFailure(message, Some(metaText)).status == RuntimeError
    ensures ClassifyCompileFailure(message, Some(metaText), stderrText).status != RuntimeError
  {
  }

  /** The legacy classifiers never look at standard error. */
  lemma LegacyIgnoresStderr(compileCommand: Option<seq<string>>, message: Option<string>, metaText: Option<string>,
                            e1: Option<string>, e2: Option<string>, isUser: bool)
    ensures LegacyCompileCode(compileCommand, Failed(message, metaText, e1)) ==
      LegacyCompileCode(compileCommand, Failed(message, metaText, e2))
    ensures LegacyExecuteCode(Failed(message, metaText, e1), isUser) == LegacyExecuteCode(Failed(message, metaText, e2), isUser)
  {
  }

  /* ---------------------------------------------------------------------
     Checking the test data
     --------------------------------------------------------------------- */

  /** The legacy validation loop accepts exactly what the later one accepts
      and rewrites the lines the same way. */
  lemma {:induction false} LegacyValidateAgrees(check: FieldCheck, lines: seq<string>, paramType: seq<string>, i: nat)
    requires |paramType| > 0
    ensures LegacyValidateFrom(check, lines, paramType, i).Ok? <==> ValidateFrom(check, lines, paramType, i).Ok?
    ensures LegacyValidateFrom(check, lines, paramType, i).Ok? ==>
      LegacyValidateFrom(check, lines, paramType, i).value == ValidateFrom(check, lines, paramType, i).value
    decreases |lines| - i
  {
    if i < |lines| {
      match CheckLine(check, lines, paramType, i)
      case Ok(x) => LegacyValidateAgrees(check, lines[i := x], paramType, i + 1);
      case Err(_) =>
    }
  }

  /** The first failing line `j` decides the error, and the message names
      the line's own number `j + 1`. */
  lemma {:induction false} LegacyValidationNamesLine(check: FieldCheck, lines: seq<string>, paramType: seq<string>, i: nat, j: nat)
    requires |paramType| > 0 && i <= j < |lines|
    requires forall k :: i <= k < j ==> CheckLine(check, lines, paramType, k).Ok?
    requires CheckLine(check, lines, paramType, j).Err?
    ensures LegacyValidateFrom(check, lines, paramType, i) ==
      Err(ValidationPrefix + NatToDecimal(j + 1) + ": " + CheckLine(check, lines, paramType, j).error)
    decreases j - i
  {
    if i < j {
      var next := lines[i := CheckLine(check, lines, paramType, i).value];
      assert forall k :: i < k <= j ==> CheckLine(check, next, paramType, k) == CheckLine(check, lines, paramType, k);
      LegacyValidationNamesLine(check, next, paramType, i + 1, j);
    }
  }

  /** With at least two lines per test case, the test-case number of any
      line after the first is below the line's own number. */
  lemma {:induction false} CaseBeforeLine(j: nat, n: nat)
    requires n > 1 && j > 0
    ensures CaseOf(j, n) < j + 1
    decreases j
  {
    if j >= n && j - n > 0 {
      CaseBeforeLine(j - n, n);
    }
  }

  /** With several parameters per test case, any failing line after the
      first gets a higher number in the legacy message than the test case
      the later engine reports. */
  lemma LegacyNamesLineNotCase(check: FieldCheck, lines: seq<string>, paramType: seq<string>, j: nat)
    requires |paramType| > 1 && 0 < j < |lines|
    requires forall k :: 0 <= k < j ==> CheckLine(check, lines, paramType, k).Ok?
    requires CheckLine(check, lines, paramType, j).Err?
    ensures ValidateFrom(check, lines, paramType, 0).Err? && ValidateFrom(check, lines, paramType, 0).error.ExecutionError?
    ensures ValidateFrom(check, lines, paramType, 0).error.testCaseNumber == CaseOf(j, |paramType|) < j + 1
    ensures LegacyValidateFrom(check, lines, paramType, 0) ==
      Err(ValidationPrefix + NatToDecimal(j + 1) + ": " + CheckLine(check, lines, paramType, j).error)
  {
    hide ValidateFrom, LegacyValidateFrom, NatToDecimal, RewrittenTo;
    ValidateFromFirstFailure(check, lines, paramType, 0, j);
    LegacyValidationNamesLine(check, lines, paramType, 0, j);
    CaseBeforeLine(j, |paramType|);
  }

  /* ---------------------------------------------------------------------
     The "run" loop
     --------------------------------------------------------------------- */

  /** The ids, the number of test cases, the last test case and the error
      message: what a pass of the "run" loop never touches. */
  predicate SameRun(a: Record, b: Record) {
    a.submissionId == b.submissionId && a.userId == b.userId && a.questionId == b.questionId &&
    a.totalTestCases == b.totalTestCases && a.lastTestCase == b.lastTestCase && a.error == b.error
  }

  /** The five per-test arrays of `r` are those of `v`, each with `m` more
      entries. */
  predicate ArraysGrew(r: Record, v: Record, m: nat) {
    |r.codeAnswer| == |v.codeAnswer| + m && |r.stdOutputList| == |v.stdOutputList| + m &&
    |r.expectedCodeAnswer| == |v.expectedCodeAnswer| + m && |r.executionTime| == |v.executionTime| + m &&
    |r.executionMemory| == |v.executionMemory| + m &&
    v.codeAnswer <= r.codeAnswer && v.expectedCodeAnswer <= r.expectedCodeAnswer
  }

  /** Every pass of the "run" loop pushes exactly one entry onto each of
      the five arrays and counts at most one answer correct. It adds at
      most one error entry, and only together with a failing status; a
      pass that adds none leaves the status alone. */
  lemma RunModeStepShape(v: Record, out: CodeOutput, sysOut: CodeOutput, k: nat)
    ensures var r := RunModeStep(v, out, sysOut, k);
      SameRun(r, v) && ArraysGrew(r, v, 1) &&
      v.correctTestCases <= r.correctTestCases <= v.correctTestCases + 1 &&
      v.errors <= r.errors && |r.errors| <= |v.errors| + 1 &&
      (|r.errors| > |v.errors| ==> r.status != Success) &&
      (r.errors == v.errors ==> r.status == v.status) &&
      (v.status != Success ==> r.status != Success)
  {
    hide AsciiUpper, Trim, NatToDecimal, StatusText, Split, CaseLabel;
    if out.status != Success {
    } else if sysOut.status != Success {
    } else if |Split(out.output, Marker)| != 2 || |Split(sysOut.output, Marker)| != 2 {
    } else {
    }
  }

  /** When both programs ran and printed the marker once, a wrong answer
      changes neither the status nor the errors: it only goes uncounted. */
  lemma RunModeJudges(v: Record, out: CodeOutput, sysOut: CodeOutput, k: nat)
    requires out.status == Success && sysOut.status == Success
    requires |Split(out.output, Marker)| == 2 && |Split(sysOut.output, Marker)| == 2
    ensures var r := RunModeStep(v, out, sysOut, k);
      r.status == v.status && r.errors == v.errors &&
      (r.correctTestCases == v.correctTestCases + 1 <==>
        Trim(Split(out.output, Marker)[1]) == Trim(Split(sysOut.output, Marker)[1])) &&
      (r.correctTestCases != v.correctTestCases + 1 ==> r.correctTestCases == v.correctTestCases)
  {
  }

  /** A failed user run keeps a status that is already failing: the first
      such failure's status is the one that stays. */
  lemma RunModeKeepsFirstStatus(v: Record, out: CodeOutput, sysOut: CodeOutput, k: nat)
    requires out.status != Success
    ensures RunModeStep(v, out, sysOut, k).status == if v.status == Success then out.status else v.status
  {
  }

  /** The same mismatch in the two engines: the later "run" loop records a
      WrongAnswer, the legacy one keeps the status it had. */
  lemma WrongAnswerContrast(v: Verdict, w: Record, out: CodeOutput, sysOut: CodeOutput, k: nat, input: string)
    requires k > 0
    requires out.status == Success && sysOut.status == Success
    requires |Split(out.output, Marker)| == 2 && |Split(sysOut.output, Marker)| == 2
    requires Trim(Split(out.output, Marker)[1]) != Trim(Split(sysOut.output, Marker)[1])
    ensures CaseStep(v, out, sysOut, k, input, true, None).verdict.status == WrongAnswer
    ensures RunModeStep(w, out, sysOut, k).status == w.status
  {
    var user := RunOutcome(out, k, input);
    var sys := RunOutcome(sysOut, k, input);
    assert user.error.None? && sys.error.None?;
    assert user.output != sys.output;
    var x := AfterRun(v, out, true);
    assert CaseStep(v, out, sysOut, k, input, true, None).verdict ==
      AfterError(WithExpected(x, sys.output), Mismatch(sys.output, user.output, k, input), k, input);
  }

  /** Over `m` whole test cases the "run" loop pushes `m` entries onto each
      of the five arrays and counts at most `m` correct. It keeps a failing
      status failing, never leaves an error entry with a Success status,
      and ends in Success exactly when it started there and added no error. */
  lemma {:induction false} RunModeCasesShape(v: Record, sb: Sandbox, testcases: seq<string>, n: nat, i: nat, m: nat)
    requires n > 0 && |testcases| == i + m * n
    ensures var r := RunModeCases(v, sb, testcases, n, i);
      SameRun(r, v) && ArraysGrew(r, v, m) &&
      v.correctTestCases <= r.correctTestCases <= v.correctTestCases + m &&
      v.errors <= r.errors &&
      (v.status != Success ==> r.status != Success) &&
      ((|v.errors| > 0 ==> v.status != Success) ==> (|r.errors| > 0 ==> r.status != Success)) &&
      (r.status == Success <==> v.status == Success && r.errors == v.errors)
    decreases m
  {
    hide RunModeStep, LegacyUserRun, LegacySystemRun, CaseInput, CaseOf;
    if m > 0 {
      MulAtLeast(m, n);
      assert |testcases| == (i + n) + (m - 1) * n;
      var k := CaseOf(i, n);
      var input := CaseInput(testcases, n, i);
      var out, sysOut := LegacyUserRun(sb, k, input), LegacySystemRun(sb, k, input);
      var w := RunModeStep(v, out, sysOut, k);
      RunModeStepShape(v, out, sysOut, k);
      RunModeCasesShape(w, sb, testcases, n, i + n, m - 1);
      var r := RunModeCases(w, sb, testcases, n, i + n);
      assert r == RunModeCases(v, sb, testcases, n, i);
      if r.status == Success {
        assert w.status == Success && r.errors == w.errors;
        assert w.errors == v.errors;
      }
    } else {
      assert |testcases| == i;
    }
  }

  /** What stopping before the test cases leaves untouched: the ids, the
      five arrays, the errors and the correct count. */
  predicate NoCases(r: Record, v: Record) {
    r.submissionId == v.submissionId && r.userId == v.userId && r.questionId == v.questionId &&
    r.codeAnswer == v.codeAnswer && r.stdOutputList == v.stdOutputList &&
    r.expectedCodeAnswer == v.expectedCodeAnswer && r.executionTime == v.executionTime &&
    r.executionMemory == v.executionMemory && r.errors == v.errors && r.correctTestCases == v.correctTestCases
  }

  /** The legacy validation keeps the number of lines. */
  lemma LegacyValidateLength(check: FieldCheck, lines: seq<string>, paramType: seq<string>)
    requires |paramType| > 0
    ensures LegacyValidateFrom(check, lines, paramType, 0).Ok? ==> |LegacyValidateFrom(check, lines, paramType, 0).value| == |lines|
  {
    LegacyValidateAgrees(check, lines, paramType, 0);
    ValidateFromOk(check, lines, paramType, 0);
  }

  /** Wrapping and compiling both programs either stops with a failing
      status and an error message, no test case touched and no last test
      case, or leaves the record as it was. */
  lemma SubmissionProgramsFacts(v: Record, sb: Sandbox, s: Submission, user: LanguageHandler, system: LanguageHandler,
                                testcases: seq<string>)
    ensures var ph := SubmissionPrograms(v, sb, s, user, system, testcases);
      (ph.Done? ==> (ph.record.status != Success && ph.record.error.Some? && NoCases(ph.record, v) &&
        ph.record.lastTestCase == v.lastTestCase && ph.record.totalTestCases == v.totalTestCases)) &&
      (ph.Running? ==> ph.record == v && ph.testcases == testcases)
  {
    hide WrapProgram, LegacyCompileCode;
  }

  /** Before its test cases the legacy `processSubmission` either stops with
      a failing status and no test case touched, or has recorded the
      number of test cases, which split the lines evenly, and nothing else. */
  lemma SubmissionPhaseFacts(v: Record, sb: Sandbox, s: Submission)
    ensures var ph := SubmissionPhase(v, sb, s);
      ph.Done? ==> (ph.record.status != Success && ph.record.error.Some? && NoCases(ph.record, v) &&
        ph.record.lastTestCase == v.lastTestCase)
    ensures var ph := SubmissionPhase(v, sb, s);
      ph.Running? ==> (ph.record == v.(totalTestCases := ph.record.totalTestCases) &&
        |ph.testcases| == ph.record.totalTestCases * |s.paramType|)
  {
    hide SubmissionPrograms, ValidateField, TestLines, LegacyValidateFrom, CreateCppHandler;
    var user := LookupHandler(s.language, "userCode");
    var system := LookupHandler(SystemCodeLanguage, "systemCode");
    var lines := TestLines(s.dataInput);
    if user.Some? && system.Some? && |s.paramType| > 0 && |lines| % |s.paramType| == 0 {
      var q := Quotient(|lines|, |s.paramType|);
      assert q * |s.paramType| == |lines|;
      var v1 := v.(totalTestCases := q);
      LegacyValidateLength(ValidateField, lines, s.paramType);
      var checked := LegacyValidateFrom(ValidateField, lines, s.paramType, 0);
      if checked.Ok? {
        SubmissionProgramsFacts(v1, sb, s, user.value, system.value, checked.value);
      }
    }
  }

  /** A legacy "run" job keeps its id, never sets a last test case, counts
      at most its test cases correct and never leaves an error entry with a
      Success status, so the check after the loop never changes anything.
      Once it gets to its test cases it answers every one in all five
      arrays and sets no error message; and it succeeds exactly when it got
      there and no case failed, wrong answers included. */
  lemma LegacySubmissionOutcome(sb: Sandbox, submissionId: string, s: Submission)
    ensures var r := LegacySubmissionResult(sb, submissionId, s);
      r.submissionId == submissionId && r.lastTestCase.None? &&
      r.correctTestCases <= r.totalTestCases && (|r.errors| > 0 ==> r.status != Success)
    ensures var r := LegacySubmissionResult(sb, submissionId, s);
      var ph := SubmissionPhase(Start(submissionId, s.userId, s.questionId), sb, s);
      (r.status == Success <==> ph.Running? && r.errors == []) &&
      (ph.Running? ==> (r == RunModeCases(ph.record, sb, ph.testcases, |s.paramType|, 0) && r.error.None? &&
        |r.codeAnswer| == |r.stdOutputList| == |r.expectedCodeAnswer| == |r.executionTime| ==
        |r.executionMemory| == r.totalTestCases))
  {
    hide RunModeCases, SubmissionPhase, ValidateField;
    var v := Start(submissionId, s.userId, s.questionId);
    var ph := SubmissionPhase(v, sb, s);
    SubmissionPhaseFacts(v, sb, s);
    if ph.Running? {
      var w, n := ph.record, |s.paramType|;
      RunModeCasesShape(w, sb, ph.testcases, n, 0, w.totalTestCases);
    }
  }

  /* ---------------------------------------------------------------------
     The "submit" loop
     --------------------------------------------------------------------- */

  /** Every pass of the "submit" loop pushes one entry onto each of the five
      arrays, with the expected output as the expected answer. A failing
      pass sets a failing status, adds one error entry and makes case `k`
      the last test case; a wrong answer's last test case carries both
      answers and "Expected X, got Y". A passing pass answered the expected
      output and is counted correct. */
  lemma SubmitModeStepShape(v: Record, out: CodeOutput, k: nat, input: string, expected: string)
    ensures var t := SubmitModeStep(v, out, k, input, expected); var r := t.record;
      r.submissionId == v.submissionId && r.userId == v.userId && r.questionId == v.questionId &&
      r.totalTestCases == v.totalTestCases && r.error == v.error && ArraysGrew(r, v, 1) &&
      r.expectedCodeAnswer == v.expectedCodeAnswer + [expected]
    ensures var t := SubmitModeStep(v, out, k, input, expected); var r := t.record;
      t.failed ==> (r.status != Success && r.correctTestCases == v.correctTestCases &&
        |r.errors| == |v.errors| + 1 && v.errors <= r.errors &&
        r.lastTestCase.Some? && r.lastTestCase.value.number == k && r.lastTestCase.value.input == input)
    ensures var t := SubmitModeStep(v, out, k, input, expected); var r := t.record;
      !t.failed ==> (r.status == v.status && r.errors == v.errors && r.lastTestCase == v.lastTestCase &&
        r.correctTestCases == v.correctTestCases + 1 && r.codeAnswer == v.codeAnswer + [expected])
    ensures var t := SubmitModeStep(v, out, k, input, expected); var r := t.record;
      t.failed && r.status == WrongAnswer && out.status != WrongAnswer ==>
        r.lastTestCase == Some(LastTestCase(k, input, Some(r.codeAnswer[|v.codeAnswer|]), Some(expected), WrongAnswer,
          Some("Expected " + expected + ", got " + r.codeAnswer[|v.codeAnswer|])))
  {
    hide AsciiUpper, Trim, NatToDecimal, StatusText, Split;
    if out.status != Success {
    } else if |Split(out.output, Marker)| != 2 {
    } else if Trim(Split(out.output, Marker)[1]) != expected {
      var answer := Trim(Split(out.output, Marker)[1]);
      var r := SubmitModeStep(v, out, k, input, expected).record;
      assert r.codeAnswer == v.codeAnswer + [answer];
      assert r.codeAnswer[|v.codeAnswer|] == answer;
    } else {
    }
  }

  /** The "submit" loop stops at the first failing case. That case is then
      its last answer and its last test case, its only new error entry, and
      the only case not counted correct; a loop that runs to the end
      answers every case correctly and leaves the status alone. */
  lemma {:induction false} SubmitModeCasesShape(v: Record, sb: Sandbox, testcases: seq<string>, outputs: seq<string>, n: nat, i: nat)
    requires n > 0
    requires |v.codeAnswer| == CaseOf(i, n) - 1 && v.correctTestCases == |v.codeAnswer|
    ensures var t := SubmitModeCases(v, sb, testcases, outputs, n, i); var r := t.record;
      r.submissionId == v.submissionId && r.totalTestCases == v.totalTestCases && r.error == v.error &&
      |v.codeAnswer| <= |r.codeAnswer| <= |v.codeAnswer| + NumCases(|testcases|, n, i)
    ensures var t := SubmitModeCases(v, sb, testcases, outputs, n, i); var r := t.record;
      t.failed ==> (r.status != Success && |r.errors| == |v.errors| + 1 &&
        r.lastTestCase.Some? && r.lastTestCase.value.number == |r.codeAnswer| &&
        r.correctTestCases == |r.codeAnswer| - 1)
    ensures var t := SubmitModeCases(v, sb, testcases, outputs, n, i); var r := t.record;
      !t.failed ==> (r.status == v.status && r.errors == v.errors && r.lastTestCase == v.lastTestCase &&
        r.correctTestCases == |r.codeAnswer| == |v.codeAnswer| + NumCases(|testcases|, n, i))
    decreases |testcases| - i
  {
    hide SubmitModeStep, LegacyUserRun, ExpectedFor, CaseInput, CaseLabel;
    if i < |testcases| {
      var k := CaseOf(i, n);
      var input := CaseInput(testcases, n, i);
      var e := ExpectedFor(Some(outputs), k).GetOr("");
      var t := SubmitModeStep(v, LegacyUserRun(sb, k, input), k, input, e);
      SubmitModeStepShape(v, LegacyUserRun(sb, k, input), k, input, e);
      if !t.failed {
        assert CaseOf(i + n, n) == k + 1;
        SubmitModeCasesShape(t.record, sb, testcases, outputs, n, i + n);
      }
    }
  }

  /** Wrapping and compiling the user's program either stops with a failing
      status, an error message and no test case touched, its last test case
      numbered 0 with no input, or leaves the record as it was. */
  lemma AnswerProgramFacts(v: Record, sb: Sandbox, s: Submission, user: LanguageHandler,
                           testcases: seq<string>, outputs: seq<string>)
    requires v.lastTestCase.None?
    ensures var ph := AnswerProgram(v, sb, s, user, testcases, outputs);
      (ph.Done? ==> (ph.record.status != Success && ph.record.error.Some? && NoCases(ph.record, v) &&
        ph.record.lastTestCase.Some? && ph.record.lastTestCase.value.number == 0 &&
        ph.record.lastTestCase.value.input == "" && ph.record.totalTestCases == v.totalTestCases)) &&
      (ph.Running? ==> ph.record == v && ph.testcases == testcases && ph.outputs == outputs)
  {
    hide WrapProgram, LegacyCompileCode;
  }

  /** Before its test cases the legacy `processAnswer` either stops with a
      failing status, no test case touched and any last test case numbered
      0, or has recorded the number of test cases, which split the lines
      evenly, with one expected output each. */
  lemma AnswerPhaseFacts(v: Record, sb: Sandbox, s: Submission)
    requires v.lastTestCase.None?
    ensures var ph := AnswerPhase(v, sb, s);
      ph.Done? ==> (ph.record.status != Success && ph.record.error.Some? && NoCases(ph.record, v) &&
        (ph.record.lastTestCase.Some? ==>
          ph.record.lastTestCase.value.number == 0 && ph.record.lastTestCase.value.input == ""))
    ensures var ph := AnswerPhase(v, sb, s);
      ph.Running? ==> (ph.record == v.(totalTestCases := ph.record.totalTestCases) &&
        |ph.testcases| == ph.record.totalTestCases * |s.paramType| &&
        |ph.outputs| == ph.record.totalTestCases)
  {
    hide AnswerProgram, ExpectedOutputs, TestLines, CreateCppHandler, OutputCountError;
    var user := LookupHandler(s.language, "userCode");
    var lines := TestLines(s.dataInput);
    var outputs := ExpectedOutputs(s.systemCode);
    if user.Some? && |s.paramType| > 0 && |lines| % |s.paramType| == 0 {
      var q := Quotient(|lines|, |s.paramType|);
      assert q * |s.paramType| == |lines|;
      var v1 := v.(totalTestCases := q);
      if |outputs| == q {
        AnswerProgramFacts(v1, sb, s, user.value, lines, outputs);
      }
    }
  }

  /** A legacy "submit" job keeps its id, counts at most its test cases
      correct and succeeds exactly when it got to its test cases and all of
      them were correct; it then answered each. A job that fails on a test
      case stops there: that case is its last answer and its last test
      case, its only error entry, and every case before it was correct. A
      job that stops before its test cases has no answers, and any last
      test case it records is numbered 0 with no input. */
  lemma LegacyAnswerOutcome(sb: Sandbox, submissionId: string, s: Submission)
    ensures var r := LegacyAnswerResult(sb, submissionId, s);
      r.submissionId == submissionId && r.correctTestCases <= r.totalTestCases &&
      (|r.errors| > 0 ==> r.status != Success)
    ensures var r := LegacyAnswerResult(sb, submissionId, s);
      var ph := AnswerPhase(Start(submissionId, s.userId, s.questionId), sb, s);
      (r.status == Success <==> ph.Running? && r.correctTestCases == r.totalTestCases) &&
      (r.status == Success ==> |r.codeAnswer| == r.totalTestCases && r.lastTestCase.None?) &&
      (ph.Running? && r.status != Success ==>
        (|r.errors| == 1 && r.lastTestCase.Some? &&
        r.lastTestCase.value.number == |r.codeAnswer| == r.correctTestCases + 1)) &&
      (ph.Done? ==> (r.codeAnswer == [] &&
        (r.lastTestCase.Some? ==> r.lastTestCase.value.number == 0 && r.lastTestCase.value.input == "")))
  {
    hide SubmitModeCases, AnswerPhase, ExpectedOutputs;
    var v := Start(submissionId, s.userId, s.questionId);
    var ph := AnswerPhase(v, sb, s);
    AnswerPhaseFacts(v, sb, s);
    if ph.Running? {
      var w, n := ph.record, |s.paramType|;
      NumCasesWhole(|ph.testcases|, n, 0, w.totalTestCases);
      SubmitModeCasesShape(w, sb, ph.testcases, ph.outputs, n, 0);
    }
  }

  /* ---------------------------------------------------------------------
     Early exits
     --------------------------------------------------------------------- */

  /** A job in a language with no handler stops in the outer `catch` with
      the `TypeError`'s own message; only the "submit" job records a last
      test case, numbered 0. */
  lemma LegacyUnknownLanguage(sb: Sandbox, submissionId: string, s: Submission)
    requires s.language != "CPP"
    ensures var r := LegacySubmissionResult(sb, submissionId, s);
      r.status == Error && r.error == Some(LookupFailure) && r.lastTestCase.None? && r.codeAnswer == []
    ensures var r := LegacyAnswerResult(sb, submissionId, s);
      r.status == Error && r.error == Some(LookupFailure) && r.codeAnswer == [] &&
      r.lastTestCase == Some(LastTestCase(0, "", None, None, Error, Some(LookupFailure)))
  {
  }

  /** A legacy "run" job whose wrapped program does not compile takes the
      compiler's failing status, before any test case runs. */
  lemma LegacyUserCompileFailure(sb: Sandbox, submissionId: string, s: Submission)
    requires s.language == "CPP" && |s.paramType| > 0 && |TestLines(s.dataInput)| % |s.paramType| == 0
    requires LegacyValidateFrom(ValidateField, TestLines(s.dataInput), s.paramType, 0).Ok?
    requires WrapProgram(Cpp, s.userCode, s.functionName, s.paramType, s.returnType).Ok?
    requires sb[CompileCall(User, WrapProgram(Cpp, s.userCode, s.functionName, s.paramType, s.returnType).value)].Failed?
    ensures var r := LegacySubmissionResult(sb, submissionId, s);
      var c := LegacyCompileCode(CreateCppHandler("userCode").compileCommand,
        sb[CompileCall(User, WrapProgram(Cpp, s.userCode, s.functionName, s.paramType, s.returnType).value)]);
      r.status == c.status && r.status in {CompilationError, Timeout, RuntimeError} &&
      r.codeAnswer == [] && r.lastTestCase.None?
  {
    hide ValidateField, WrapProgram, LegacyCompileCode, LegacyValidateFrom;
  }

  /** A legacy "run" job whose reference program does not compile is an
      InternalError, before any test case runs. */
  lemma LegacySystemCompileFailure(sb: Sandbox, submissionId: string, s: Submission)
    requires s.language == "CPP" && |s.paramType| > 0 && |TestLines(s.dataInput)| % |s.paramType| == 0
    requires LegacyValidateFrom(ValidateField, TestLines(s.dataInput), s.paramType, 0).Ok?
    requires WrapProgram(Cpp, s.userCode, s.functionName, s.paramType, s.returnType).Ok?
    requires sb[CompileCall(User, WrapProgram(Cpp, s.userCode, s.functionName, s.paramType, s.returnType).value)].Completed?
    requires WrapProgram(Cpp, s.systemCode, s.functionName, s.paramType, s.returnType).Ok?
    requires sb[CompileCall(Reference, WrapProgram(Cpp, s.systemCode, s.functionName, s.paramType, s.returnType).value)].Failed?
    ensures var r := LegacySubmissionResult(sb, submissionId, s);
      r.status == InternalError && r.codeAnswer == [] && r.correctTestCases == 0
  {
    hide ValidateField, WrapProgram, LegacyCompileCode, LegacyValidateFrom;
  }

  /** A legacy "submit" job whose program does not compile records a last
      test case numbered 0 with no input, carrying the compiler's status
      and message. */
  lemma LegacyAnswerCompileFailure(sb: Sandbox, submissionId: string, s: Submission)
    requires s.language == "CPP" && |s.paramType| > 0 && |TestLines(s.dataInput)| % |s.paramType| == 0
    requires |ExpectedOutputs(s.systemCode)| * |s.paramType| == |TestLines(s.dataInput)|
    requires WrapProgram(Cpp, s.userCode, s.functionName, s.paramType, s.returnType).Ok?
    requires sb[CompileCall(User, WrapProgram(Cpp, s.userCode, s.functionName, s.paramType, s.returnType).value)].Failed?
    ensures var r := LegacyAnswerResult(sb, submissionId, s);
      var c := LegacyCompileCode(CreateCppHandler("userCode").compileCommand,
        sb[CompileCall(User, WrapProgram(Cpp, s.userCode, s.functionName, s.paramType, s.returnType).value)]);
      r.status == c.status != Success && r.codeAnswer == [] &&
      r.lastTestCase == Some(LastTestCase(0, "", None, None, c.status, c.error))
  {
    hide WrapProgram, LegacyCompileCode, ExpectedOutputs;
    var n := |s.paramType|;
    var lines := TestLines(s.dataInput);
    var q := Quotient(|lines|, n);
    assert q * n == |lines|;
    DivUnique(|lines|, n, |ExpectedOutputs(s.systemCode)|, 0);
    DivUnique(|lines|, n, q, 0);
  }
}
