/** What `processTestCases` guarantees about the record it fills in: the
    per-case shape of a step, how many cases the loop runs, when a job ends
    in success, and what the first failure leaves behind in submit mode. */
module ProcessLemmas {
  import opened Wrappers
  import opened Strings
  import opened Numbers
  import opened Results
  import opened Isolate
  import opened Execute
  import opened Validator
  import opened Compile
  import opened Handlers
  import opened Process

  /** The ids, the mode and the number of test cases. */
  predicate SameJob(a: Verdict, b: Verdict) {
    a.submissionId == b.submissionId && a.userId == b.userId && a.questionId == b.questionId &&
    a.isAnswer == b.isAnswer && a.totalTestCases == b.totalTestCases
  }

  /** Whether case `k` has something to be judged against: the reference
      program, or a non-empty expected output. */
  predicate Judged(mode: CaseMode, k: nat) {
    mode.hasSystem || (ExpectedFor(mode.expected, k).Some? && ExpectedFor(mode.expected, k).value != "")
  }

  /** One test case adds one answer and leaves the job's ids alone. */
  lemma CaseStepAnswers(v: Verdict, out: CodeOutput, sysOut: CodeOutput, k: nat, input: string, hasSystem: bool, expected: Option<string>)
    requires k > 0
    ensures var s := CaseStep(v, out, sysOut, k, input, hasSystem, expected);
      SameJob(s.verdict, v) && |s.verdict.codeAnswer| == |v.codeAnswer| + 1
  {
    var w := AfterRun(v, out, true);
    AfterRunAppends(v, out, true, k, input);
    assert SameJob(w, v) && |w.codeAnswer| == |v.codeAnswer| + 1;
    var user := RunOutcome(out, k, input);
    var s := CaseStep(v, out, sysOut, k, input, hasSystem, expected);
    if user.error.Some? {
      assert s.verdict == AfterError(w, user.error.value, k, input);
    } else if hasSystem {
      var sys := RunOutcome(sysOut, k, input);
      if sys.error.Some? {
        assert s.verdict == AfterError(w, SystemFailure(sys, k, input), 0, "");
      } else if user.output != sys.output {
        assert s.verdict == AfterError(WithExpected(w, sys.output), Mismatch(sys.output, user.output, k, input), k, input);
      } else {
        assert s.verdict == Counted(WithExpected(w, sys.output));
      }
    } else if expected.Some? && expected.value != "" {
      if user.output != expected.value {
        var x := AfterError(WithExpected(w, expected.value), Mismatch(expected.value, user.output, k, input), k, input);
        assert s.verdict == WithMismatch(x, user.output, expected.value);
      } else {
        assert s.verdict == Counted(WithExpected(w, expected.value));
      }
    } else {
      assert s.verdict == w;
    }
    assert SameJob(s.verdict, w) && s.verdict.codeAnswer == w.codeAnswer;
  }

  /** A passing case leaves the status and the errors alone and counts
      itself correct exactly when it was judged; a failing case leaves a
      failing status and counts nothing. */
  lemma CaseStepCounts(v: Verdict, out: CodeOutput, sysOut: CodeOutput, k: nat, input: string, hasSystem: bool, expected: Option<string>)
    requires k > 0
    ensures var s := CaseStep(v, out, sysOut, k, input, hasSystem, expected);
      !s.failed ==> (s.verdict.status == v.status && s.verdict.errors == v.errors &&
        s.verdict.lastTestCase == v.lastTestCase &&
        s.verdict.correctTestCases ==
          v.correctTestCases + (if hasSystem || (expected.Some? && expected.value != "") then 1 else 0))
    ensures var s := CaseStep(v, out, sysOut, k, input, hasSystem, expected);
      s.failed ==> (s.verdict.status != Success && s.verdict.correctTestCases == v.correctTestCases)
  {
    var w := AfterRun(v, out, true);
    AfterRunAppends(v, out, true, k, input);
    assert w.status == v.status && w.errors == v.errors && w.lastTestCase == v.lastTestCase &&
      w.correctTestCases == v.correctTestCases;
    var user := RunOutcome(out, k, input);
    if user.error.Some? {
      RunOutcomeFails(out, k, input);
      AfterErrorFails(w, user.error.value, k, input);
    } else if hasSystem {
      var sys := RunOutcome(sysOut, k, input);
      if sys.error.Some? {
        AfterErrorFails(w, SystemFailure(sys, k, input), 0, "");
      } else if user.output != sys.output {
        AfterErrorFails(WithExpected(w, sys.output), Mismatch(sys.output, user.output, k, input), k, input);
      }
    } else if expected.Some? && expected.value != "" && user.output != expected.value {
      AfterErrorFails(WithExpected(w, expected.value), Mismatch(expected.value, user.output, k, input), k, input);
    }
  }

  /** Without a reference program a failing case is the user's: it adds
      exactly one error entry and becomes the last test case. */
  lemma CaseStepUserFailure(v: Verdict, out: CodeOutput, sysOut: CodeOutput, k: nat, input: string, expected: Option<string>)
    requires k > 0
    ensures var s := CaseStep(v, out, sysOut, k, input, false, expected);
      s.failed ==> (|ErrorList(s.verdict)| == |ErrorList(v)| + 1 &&
        s.verdict.lastTestCase.Some? && s.verdict.lastTestCase.value.number == k)
  {
    AfterRunAppends(v, out, true, k, input);
  }

  /** The number of test cases the loop meets from line `i` on. */
  function NumCases(len: nat, n: nat, i: nat): nat
    requires n > 0
    decreases len - i
  {
    if i >= len then 0 else 1 + NumCases(len, n, i + n)
  }

  /** Lines that make `m` whole test cases of `n` lines give `m` turns. */
  lemma {:induction false} NumCasesWhole(len: nat, n: nat, i: nat, m: nat)
    requires n > 0 && len == i + m * n
    ensures NumCases(len, n, i) == m
    decreases m
  {
    if m > 0 {
      MulAtLeast(m, n);
      assert len == (i + n) + (m - 1) * n;
      NumCasesWhole(len, n, i + n, m - 1);
    }
  }

  /** The loop keeps the job's ids, counts at most one correct answer per
      test case, never turns a failing status back into success, and
      returns early only in stop mode, with a failing status. */
  lemma {:induction false} RunCasesBounds(v: Verdict, sb: Sandbox, testcases: seq<string>, n: nat, mode: CaseMode, i: nat)
    requires n > 0
    ensures var s := RunCases(v, sb, testcases, n, mode, i);
      SameJob(s.verdict, v) &&
      s.verdict.correctTestCases <= v.correctTestCases + NumCases(|testcases|, n, i) &&
      (v.status != Success ==> s.verdict.status != Success) &&
      (s.failed ==> mode.stop && s.verdict.status != Success)
    decreases |testcases| - i
  {
    hide CaseStep, UserOutput, SystemOutput, CaseInput, ExpectedFor;
    if i < |testcases| {
      var k := CaseOf(i, n);
      var input := CaseInput(testcases, n, i);
      var e := ExpectedFor(mode.expected, k);
      var step := SandboxStep(v, sb, k, input, mode.hasSystem, e);
      CaseStepAnswers(v, UserOutput(sb, k, input), SystemOutput(sb, k, input), k, input, mode.hasSystem, e);
      CaseStepCounts(v, UserOutput(sb, k, input), SystemOutput(sb, k, input), k, input, mode.hasSystem, e);
      RunCasesBounds(step.verdict, sb, testcases, n, mode, i + n);
    }
  }

  /** Every test case adds one answer, so a loop that does not stop early
      adds one per test case. */
  lemma {:induction false} RunCasesAnswers(v: Verdict, sb: Sandbox, testcases: seq<string>, n: nat, mode: CaseMode, i: nat)
    requires n > 0
    ensures var s := RunCases(v, sb, testcases, n, mode, i);
      !s.failed ==> |s.verdict.codeAnswer| == |v.codeAnswer| + NumCases(|testcases|, n, i)
    decreases |testcases| - i
  {
    hide CaseStep, UserOutput, SystemOutput, CaseInput, ExpectedFor;
    if i < |testcases| {
      var k := CaseOf(i, n);
      var input := CaseInput(testcases, n, i);
      var e := ExpectedFor(mode.expected, k);
      var step := SandboxStep(v, sb, k, input, mode.hasSystem, e);
      CaseStepAnswers(v, UserOutput(sb, k, input), SystemOutput(sb, k, input), k, input, mode.hasSystem, e);
      RunCasesAnswers(step.verdict, sb, testcases, n, mode, i + n);
    }
  }

  /** If every recorded error went with a failing status before the loop,
      it still does after it. */
  lemma {:induction false} RunCasesKeepFailure(v: Verdict, sb: Sandbox, testcases: seq<string>, n: nat, mode: CaseMode, i: nat)
    requires n > 0 && ErrorsMeanFailure(v)
    ensures ErrorsMeanFailure(RunCases(v, sb, testcases, n, mode, i).verdict)
    decreases |testcases| - i
  {
    hide CaseStep, UserOutput, SystemOutput, CaseInput, ExpectedFor;
    if i < |testcases| {
      var k := CaseOf(i, n);
      var input := CaseInput(testcases, n, i);
      var e := ExpectedFor(mode.expected, k);
      var step := SandboxStep(v, sb, k, input, mode.hasSystem, e);
      CaseStepCounts(v, UserOutput(sb, k, input), SystemOutput(sb, k, input), k, input, mode.hasSystem, e);
      RunCasesKeepFailure(step.verdict, sb, testcases, n, mode, i + n);
    }
  }

  /** Every test case from `from` on, `count` of them, has something to be
      judged against. */
  predicate AllJudged(mode: CaseMode, from: nat, count: nat) {
    forall k :: from <= k < from + count ==> Judged(mode, k)
  }

  /** When every test case is judged, a job that starts out successful
      ends successful exactly when every test case was counted correct. */
  lemma {:induction false} RunCasesAccepted(v: Verdict, sb: Sandbox, testcases: seq<string>, n: nat, mode: CaseMode, i: nat)
    requires n > 0 && v.status == Success
    requires AllJudged(mode, CaseOf(i, n), NumCases(|testcases|, n, i))
    ensures var s := RunCases(v, sb, testcases, n, mode, i);
      s.verdict.status == Success <==>
        s.verdict.correctTestCases == v.correctTestCases + NumCases(|testcases|, n, i)
    decreases |testcases| - i
  {
    hide CaseStep, UserOutput, SystemOutput, CaseInput, ExpectedFor;
    if i < |testcases| {
      var k := CaseOf(i, n);
      var input := CaseInput(testcases, n, i);
      var e := ExpectedFor(mode.expected, k);
      var step := SandboxStep(v, sb, k, input, mode.hasSystem, e);
      assert Judged(mode, k);
      CaseStepCounts(v, UserOutput(sb, k, input), SystemOutput(sb, k, input), k, input, mode.hasSystem, e);
      RunCasesBounds(step.verdict, sb, testcases, n, mode, i + n);
      if !step.failed {
        assert CaseOf(i + n, n) == k + 1;
        RunCasesAccepted(step.verdict, sb, testcases, n, mode, i + n);
      }
    }
  }

  /** Submit mode stops at the first failing test case: that case is the
      last one answered, it is the last test case recorded, and it is the
      only error added; a loop that runs to the end adds no error. */
  lemma {:induction false} SubmitStopsAtFailure(v: Verdict, sb: Sandbox, testcases: seq<string>, n: nat, mode: CaseMode, i: nat)
    requires n > 0 && !mode.hasSystem && mode.stop
    requires |v.codeAnswer| == CaseOf(i, n) - 1
    ensures var s := RunCases(v, sb, testcases, n, mode, i);
      s.failed ==> (s.verdict.lastTestCase.Some? &&
        s.verdict.lastTestCase.value.number == |s.verdict.codeAnswer| &&
        |ErrorList(s.verdict)| == |ErrorList(v)| + 1)
    ensures var s := RunCases(v, sb, testcases, n, mode, i);
      !s.failed ==> ErrorList(s.verdict) == ErrorList(v)
    decreases |testcases| - i
  {
    hide CaseStep, UserOutput, SystemOutput, CaseInput, ExpectedFor;
    if i < |testcases| {
      var k := CaseOf(i, n);
      var input := CaseInput(testcases, n, i);
      var e := ExpectedFor(mode.expected, k);
      var step := SandboxStep(v, sb, k, input, mode.hasSystem, e);
      CaseStepAnswers(v, UserOutput(sb, k, input), SystemOutput(sb, k, input), k, input, mode.hasSystem, e);
      CaseStepCounts(v, UserOutput(sb, k, input), SystemOutput(sb, k, input), k, input, mode.hasSystem, e);
      CaseStepUserFailure(v, UserOutput(sb, k, input), SystemOutput(sb, k, input), k, input, e);
      if !step.failed {
        assert CaseOf(i + n, n) == k + 1;
        SubmitStopsAtFailure(step.verdict, sb, testcases, n, mode, i + n);
      }
    }
  }

  /** In submit mode with every test case judged, the cases before the
      first failure are exactly the correct ones. */
  lemma {:induction false} SubmitCountsBeforeFailure(v: Verdict, sb: Sandbox, testcases: seq<string>, n: nat, mode: CaseMode, i: nat)
    requires n > 0 && !mode.hasSystem && mode.stop
    requires AllJudged(mode, CaseOf(i, n), NumCases(|testcases|, n, i))
    requires v.correctTestCases == |v.codeAnswer|
    ensures var s := RunCases(v, sb, testcases, n, mode, i);
      s.verdict.correctTestCases == |s.verdict.codeAnswer| - (if s.failed then 1 else 0)
    decreases |testcases| - i
  {
    hide CaseStep, UserOutput, SystemOutput, CaseInput, ExpectedFor;
    if i < |testcases| {
      var k := CaseOf(i, n);
      var input := CaseInput(testcases, n, i);
      var e := ExpectedFor(mode.expected, k);
      var step := SandboxStep(v, sb, k, input, mode.hasSystem, e);
      assert Judged(mode, k);
      CaseStepAnswers(v, UserOutput(sb, k, input), SystemOutput(sb, k, input), k, input, mode.hasSystem, e);
      CaseStepCounts(v, UserOutput(sb, k, input), SystemOutput(sb, k, input), k, input, mode.hasSystem, e);
      if !step.failed {
        assert CaseOf(i + n, n) == k + 1;
        SubmitCountsBeforeFailure(step.verdict, sb, testcases, n, mode, i + n);
      }
    }
  }

  /** What a job that stops before its test cases adds to the record it
      started from: no answers, no test-case errors, no last test case,
      nothing counted correct, and the same ids. */
  predicate NoRuns(w: Verdict, v: Verdict) {
    w.submissionId == v.submissionId && w.userId == v.userId && w.questionId == v.questionId &&
    w.isAnswer == v.isAnswer && w.codeAnswer == v.codeAnswer && ErrorList(w) == ErrorList(v) &&
    w.lastTestCase == v.lastTestCase && w.correctTestCases == v.correctTestCases
  }

  /** Validation fails only with status `Error`. */
  lemma ValidationFails(dataInput: string, paramType: seq<string>, validate: bool)
    ensures var r := ValidatedTestCases(ValidateField, dataInput, paramType, validate);
      r.Err? ==> r.error.ExecutionError? && r.error.status == Error
  {
    if |paramType| > 0 {
      ValidateFromErrors(ValidateField, TestLines(dataInput), paramType, 0);
    }
  }

  /** The `catch` with a failing exception: a failing status and an error
      message, and no test case touched. */
  lemma HaltFails(v: Verdict, e: Thrown)
    requires IsFailure(e)
    ensures Halt(v, e).Halted?
    ensures Halt(v, e).verdict.status != Success && NoRuns(Halt(v, e).verdict, v) && Halt(v, e).verdict.error.Some?
  {
  }

  /** Wrapping and compiling either stops in the `catch`, as above, or
      leaves the record as it was. */
  lemma SubmissionBuildFacts(v: Verdict, sb: Sandbox, s: Submission, user: LanguageHandler, system: LanguageHandler,
                             testcases: seq<string>)
    ensures var st := SubmissionBuild(v, sb, s, user, system, testcases);
      (st.Halted? ==> st.verdict.status != Success && NoRuns(st.verdict, v) && st.verdict.error.Some?) &&
      (st.Ready? ==> st.verdict == v && st.testcases == testcases)
  {
    hide Halt, WrapProgram, CompileCode;
    var up := WrapProgram(user.lang, s.userCode, s.functionName, s.paramType, s.returnType);
    if up.Err? {
      HaltFails(v, Rethrown(up.error));
    } else {
      var uc := CompileCode(user.compileCommand, sb[CompileCall(User, up.value)]);
      if uc.status != Success {
        HaltFails(v, UserCompileError(uc));
      } else {
        var sp := WrapProgram(system.lang, s.systemCode, s.functionName, s.paramType, s.returnType);
        if sp.Err? {
          HaltFails(v, Rethrown(sp.error));
        } else {
          HaltFails(v, SystemCompileError(CompileCode(system.compileCommand, sb[CompileCall(Reference, sp.value)])));
        }
      }
    }
  }

  /** The same for the user's program alone. */
  lemma AnswerBuildFacts(v: Verdict, sb: Sandbox, s: Submission, user: LanguageHandler,
                         testcases: seq<string>, outputs: seq<string>)
    ensures var st := AnswerBuild(v, sb, s, user, testcases, outputs);
      (st.Halted? ==> st.verdict.status != Success && NoRuns(st.verdict, v) && st.verdict.error.Some?) &&
      (st.Ready? ==> st.verdict == v && st.testcases == testcases && st.expected == outputs)
  {
    hide Halt, WrapProgram, CompileCode;
    var up := WrapProgram(user.lang, s.userCode, s.functionName, s.paramType, s.returnType);
    if up.Err? {
      HaltFails(v, Rethrown(up.error));
    } else {
      var uc := CompileCode(user.compileCommand, sb[CompileCall(User, up.value)]);
      if uc.status != Success {
        HaltFails(v, UserCompileError(uc));
      }
    }
  }

  /** Before its test cases, `processSubmission` either stops in the
      `catch` with a failing status and no test case touched, or has
      recorded the number of test cases, which split the lines evenly, and
      nothing else. */
  lemma SubmissionStageFacts(v: Verdict, sb: Sandbox, s: Submission)
    ensures var st := SubmissionStage(v, sb, s);
      st.Halted? ==> (st.verdict.status != Success && NoRuns(st.verdict, v) && st.verdict.error.Some?)
    ensures var st := SubmissionStage(v, sb, s);
      st.Ready? ==> (st.verdict == WithTotal(v, st.verdict.totalTestCases) &&
        |st.testcases| == st.verdict.totalTestCases * |s.paramType|)
  {
    hide Halt, SubmissionBuild, ValidatedTestCases;
    var user := LookupHandler(s.language, "userCode");
    var system := LookupHandler(SystemCodeLanguage, "systemCode");
    if user.None? || system.None? {
      HaltFails(v, UnknownLanguage);
    } else {
      var r := ValidatedTestCases(ValidateField, s.dataInput, s.paramType, true);
      ValidationFails(s.dataInput, s.paramType, true);
      ValidatedCounts(ValidateField, s.dataInput, s.paramType, true);
      if r.Ok? {
        var v1 := WithTotal(v, r.value.totalTestCases);
        SubmissionBuildFacts(v1, sb, s, user.value, system.value, r.value.testcases);
      } else {
        HaltFails(v, r.error);
      }
    }
  }

  /** The same for `processAnswer`, whose expected outputs are then one
      non-blank line per test case. */
  lemma AnswerStageFacts(v: Verdict, sb: Sandbox, s: Submission)
    ensures var st := AnswerStage(v, sb, s);
      st.Halted? ==> (st.verdict.status != Success && NoRuns(st.verdict, v) && st.verdict.error.Some?)
    ensures var st := AnswerStage(v, sb, s);
      st.Ready? ==> (st.verdict == WithTotal(v, st.verdict.totalTestCases) &&
        |st.testcases| == st.verdict.totalTestCases * |s.paramType| &&
        |st.expected| == st.verdict.totalTestCases &&
        forall j :: 0 <= j < |st.expected| ==> !IsBlank(st.expected[j]))
  {
    hide Halt, AnswerBuild, ValidatedTestCases, CreateCppHandler, KeepNonBlank, Split, IsBlank;
    var user := LookupHandler(s.language, "userCode");
    if user.None? {
      HaltFails(v, UnknownLanguage);
    } else {
      var r := ValidatedTestCases(ValidateField, s.dataInput, s.paramType, false);
      ValidationFails(s.dataInput, s.paramType, false);
      ValidatedCounts(ValidateField, s.dataInput, s.paramType, false);
      if r.Ok? {
        var v1 := WithTotal(v, r.value.totalTestCases);
        var outputs := ExpectedOutputs(s.systemCode);
        if |outputs| != r.value.totalTestCases {
          HaltFails(v1, OutputCountError(r.value.totalTestCases, |outputs|));
        } else {
          AnswerBuildFacts(v1, sb, s, user.value, r.value.testcases, outputs);
        }
      } else {
        HaltFails(v, r.error);
      }
    }
  }

  /** A record whose errors all go with a failing status passes the final
      check unchanged. */
  lemma FinalCheckKeeps(v: Verdict)
    requires ErrorsMeanFailure(v)
    ensures FinalCheck(v) == v
  {
  }

  /** A "run" job keeps its id, counts at most its test cases correct, has
      a failing status whenever it recorded an error, answers every test
      case once it gets to them, and succeeds exactly when it got to its
      test cases and all of them were correct. The status check after the
      loop, and the one after `processTestCases`, never change anything. */
  lemma SubmissionOutcome(sb: Sandbox, submissionId: string, s: Submission)
    ensures var r := SubmissionVerdict(sb, submissionId, s);
      r.submissionId == Some(submissionId) && !r.isAnswer &&
      r.correctTestCases <= r.totalTestCases && ErrorsMeanFailure(r)
    ensures var r := SubmissionVerdict(sb, submissionId, s);
      var st := SubmissionStage(Initial(Some(submissionId), s.userId, s.questionId, false), sb, s);
      (r.status == Success <==> st.Ready? && r.correctTestCases == r.totalTestCases) &&
      (st.Ready? ==> (|r.codeAnswer| == r.totalTestCases &&
        r == RunCases(st.verdict, sb, st.testcases, |s.paramType|, RunMode, 0).verdict))
  {
    hide CaseStep, RunCases, SubmissionStage, ValidateField;
    var v := Initial(Some(submissionId), s.userId, s.questionId, false);
    var st := SubmissionStage(v, sb, s);
    SubmissionStageFacts(v, sb, s);
    if st.Ready? {
      var w, n := st.verdict, |s.paramType|;
      var total := w.totalTestCases;
      NumCasesWhole(|st.testcases|, n, 0, total);
      RunCasesBounds(w, sb, st.testcases, n, RunMode, 0);
      RunCasesKeepFailure(w, sb, st.testcases, n, RunMode, 0);
      RunCasesAnswers(w, sb, st.testcases, n, RunMode, 0);
      RunCasesAccepted(w, sb, st.testcases, n, RunMode, 0);
      var x := RunCases(w, sb, st.testcases, n, RunMode, 0).verdict;
      FinalCheckKeeps(x);
    }
  }

  /** Every test case of a "submit" job that got to its test cases has a
      non-empty expected output. */
  lemma AnswerCasesJudged(outputs: seq<string>, total: nat, n: nat)
    requires n > 0 && |outputs| == total
    requires forall j :: 0 <= j < |outputs| ==> !IsBlank(outputs[j])
    ensures AllJudged(SubmitMode(outputs), CaseOf(0, n), total)
  {
    forall k | 1 <= k < 1 + total
      ensures Judged(SubmitMode(outputs), k)
    {
      assert !IsBlank(outputs[k - 1]);
    }
  }

  /** A "submit" job keeps its id, counts at most its test cases correct,
      has a failing status whenever it recorded an error, and succeeds
      exactly when it got to its test cases and all of them were correct;
      it then has an answer for each. */
  lemma AnswerOutcome(sb: Sandbox, s: Submission)
    ensures var r := AnswerVerdict(sb, s);
      r.submissionId == s.submissionId && r.isAnswer &&
      r.correctTestCases <= r.totalTestCases && ErrorsMeanFailure(r)
    ensures var r := AnswerVerdict(sb, s);
      var st := AnswerStage(Initial(s.submissionId, s.userId, s.questionId, true), sb, s);
      (r.status == Success <==> st.Ready? && r.correctTestCases == r.totalTestCases) &&
      (r.status == Success ==> |r.codeAnswer| == r.totalTestCases)
  {
    hide CaseStep, RunCases, AnswerStage, ValidateField;
    var v := Initial(s.submissionId, s.userId, s.questionId, true);
    var st := AnswerStage(v, sb, s);
    AnswerStageFacts(v, sb, s);
    if st.Ready? {
      var w, n := st.verdict, |s.paramType|;
      var total := w.totalTestCases;
      var mode := SubmitMode(st.expected);
      NumCasesWhole(|st.testcases|, n, 0, total);
      AnswerCasesJudged(st.expected, total, n);
      RunCasesBounds(w, sb, st.testcases, n, mode, 0);
      RunCasesKeepFailure(w, sb, st.testcases, n, mode, 0);
      RunCasesAnswers(w, sb, st.testcases, n, mode, 0);
      RunCasesAccepted(w, sb, st.testcases, n, mode, 0);
      SubmitCountsBeforeFailure(w, sb, st.testcases, n, mode, 0);
      var x := RunCases(w, sb, st.testcases, n, mode, 0).verdict;
      FinalCheckKeeps(x);
    }
  }

  /** A "submit" job that fails on a test case stops there: that case is
      its last answer and its last test case, its only recorded error, and
      every case before it was correct. */
  lemma AnswerFirstFailure(sb: Sandbox, s: Submission)
    ensures var r := AnswerVerdict(sb, s);
      var st := AnswerStage(Initial(s.submissionId, s.userId, s.questionId, true), sb, s);
      st.Ready? && r.status != Success ==>
        |ErrorList(r)| == 1 && r.lastTestCase.Some? &&
        r.lastTestCase.value.number == |r.codeAnswer| == r.correctTestCases + 1
  {
    hide CaseStep, RunCases, AnswerStage, ValidateField;
    var v := Initial(s.submissionId, s.userId, s.questionId, true);
    var st := AnswerStage(v, sb, s);
    AnswerStageFacts(v, sb, s);
    if st.Ready? {
      var w, n := st.verdict, |s.paramType|;
      var total := w.totalTestCases;
      var mode := SubmitMode(st.expected);
      NumCasesWhole(|st.testcases|, n, 0, total);
      AnswerCasesJudged(st.expected, total, n);
      RunCasesBounds(w, sb, st.testcases, n, mode, 0);
      RunCasesAnswers(w, sb, st.testcases, n, mode, 0);
      RunCasesAccepted(w, sb, st.testcases, n, mode, 0);
      SubmitCountsBeforeFailure(w, sb, st.testcases, n, mode, 0);
      SubmitStopsAtFailure(w, sb, st.testcases, n, mode, 0);
    }
  }

  /** A job in a language with no handler fails with the `TypeError` of the
      missing registry entry, before any test case. */
  lemma UnknownLanguageRejected(sb: Sandbox, submissionId: string, s: Submission)
    requires s.language != "CPP"
    ensures var r := SubmissionVerdict(sb, submissionId, s);
      r.status == Error && r.error == Some("TypeError: languageHandlers[language] is not a function") &&
      r.codeAnswer == [] && r.errors == Some([])
    ensures var r := AnswerVerdict(sb, s);
      r.status == Error && r.error == Some("TypeError: languageHandlers[language] is not a function") &&
      r.codeAnswer == [] && r.errors == Some([])
  {
  }

  /** A "submit" job whose stored outputs are not one per test case fails
      with "Expected <n> outputs, got <m>" before any test case runs. */
  lemma AnswerCountMismatch(sb: Sandbox, s: Submission)
    requires s.language == "CPP"
    requires ValidatedTestCases(ValidateField, s.dataInput, s.paramType, false).Ok?
    requires |ExpectedOutputs(s.systemCode)| != ValidatedTestCases(ValidateField, s.dataInput, s.paramType, false).value.totalTestCases
    ensures var total := ValidatedTestCases(ValidateField, s.dataInput, s.paramType, false).value.totalTestCases;
      var r := AnswerVerdict(sb, s);
      r.status == Error && r.totalTestCases == total && r.codeAnswer == [] &&
      r.error == Some("Expected " + NatToDecimal(total) + " outputs, got " + NatToDecimal(|ExpectedOutputs(s.systemCode)|))
  {
    hide ValidateField, ExpectedOutputs, NatToDecimal;
  }

  /** A "run" job whose wrapped program the compiler rejects takes the
      compiler's failing status, before any test case runs. */
  lemma UserCompileFailure(sb: Sandbox, submissionId: string, s: Submission)
    requires s.language == "CPP"
    requires ValidatedTestCases(ValidateField, s.dataInput, s.paramType, true).Ok?
    requires WrapProgram(Cpp, s.userCode, s.functionName, s.paramType, s.returnType).Ok?
    requires sb[CompileCall(User, WrapProgram(Cpp, s.userCode, s.functionName, s.paramType, s.returnType).value)].Failed?
    ensures var r := SubmissionVerdict(sb, submissionId, s);
      var c := CompileCode(CreateCppHandler("userCode").compileCommand,
        sb[CompileCall(User, WrapProgram(Cpp, s.userCode, s.functionName, s.paramType, s.returnType).value)]);
      r.status == c.status != Success && r.codeAnswer == [] && r.correctTestCases == 0
  {
    hide ValidateField, WrapProgram, CompileCode, ValidatedTestCases, RunCases;
  }

  /** A "run" job whose reference program does not compile is an
      `InternalError`, before any test case runs. */
  lemma SystemCompileFailure(sb: Sandbox, submissionId: string, s: Submission)
    requires s.language == "CPP"
    requires ValidatedTestCases(ValidateField, s.dataInput, s.paramType, true).Ok?
    requires WrapProgram(Cpp, s.userCode, s.functionName, s.paramType, s.returnType).Ok?
    requires sb[CompileCall(User, WrapProgram(Cpp, s.userCode, s.functionName, s.paramType, s.returnType).value)].Completed?
    requires WrapProgram(Cpp, s.systemCode, s.functionName, s.paramType, s.returnType).Ok?
    requires sb[CompileCall(Reference, WrapProgram(Cpp, s.systemCode, s.functionName, s.paramType, s.returnType).value)].Failed?
    ensures var r := SubmissionVerdict(sb, submissionId, s);
      r.status == InternalError && r.codeAnswer == [] && r.correctTestCases == 0
  {
    hide ValidateField, WrapProgram, CompileCode, ValidatedTestCases, RunCases;
  }
}
