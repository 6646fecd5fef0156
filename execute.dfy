/** `executeCode` (running a compiled program on one input and classifying
    a failed run) and `executeTestCase` (cutting the answer out of the
    program's output at the marker and recording the run in the result). */
module Execute {
  import opened Wrappers
  import opened Strings
  import opened Numbers
  import opened Results
  import opened Isolate

  /** What `executeCode` returns. */
  datatype CodeOutput = CodeOutput(output: string, meta: map<string, string>, status: Status, error: Option<string>)

  /** The classification of a run whose sandbox call threw. As for
      compilation, the thrown message (or "Unknown error") stands without a
      meta report and is replaced by non-empty trimmed standard error; then
      the report's status code decides. A code other than TO, RE, SG or XX
      is an Error with the report's message, a missing code an Error with
      the message so far. */
  function ClassifyRunFailure(message: Option<string>, metaText: Option<string>, stderrText: Option<string>): (r: CodeOutput)
    ensures r.status in {Error, Timeout, RuntimeError, MemoryLimitExceeded}
    ensures r.output == "" && r.error.Some?
  {
    var initial := message.GetOr("Unknown error");
    if metaText.None? then CodeOutput("", map[], Error, Some(initial))
    else
      var meta := ParseMeta(metaText.value);
      var stderr := stderrText.GetOr("");
      var fallback := if stderr != "" then Trim(stderr) else initial;
      var code := Lookup(meta, "status").GetOr("");
      var verdict: (Status, string) :=
        if code == "TO" then (Timeout, "Time limit exceeded")
        else if IsAbnormalExit(code) then
          if MemorySignal(meta, ExecuteMemoryLimitKb) then (MemoryLimitExceeded, "Memory limit exceeded")
          else (RuntimeError, if stderr != "" then stderr else OrElse(Lookup(meta, "message"), "Runtime error"))
        else if code != "" then (Error, OrElse(Lookup(meta, "message"), fallback))
        else (Error, fallback);
      CodeOutput("", meta["stderr" := stderr], verdict.0, Some(verdict.1))
  }

  /** `executeCode(handler, input, …, isUserCode)`: the output text and, for
      user code only, the meta report of a completed run; else the failure's
      classification. */
  function ExecuteCode(report: RunReport, isUser: bool): (r: CodeOutput)
    ensures r.status == Success <==> report.Completed?
    ensures r.status == Success ==> r.output == report.outputText && r.error.None?
    ensures r.status != Success ==> r.output == ""
    ensures report.Completed? && !isUser ==> r.meta == map[]
  {
    match report
    case Completed(output, metaText) => CodeOutput(output, if isUser then ParseMeta(metaText) else map[], Success, None)
    case Failed(message, metaText, stderrText) => ClassifyRunFailure(message, metaText, stderrText)
  }

  /** On an abnormal exit the memory test comes before the runtime-error
      verdict. */
  lemma RunMemoryFirst(message: Option<string>, metaText: string, stderrText: Option<string>)
    requires IsAbnormalExit(Lookup(ParseMeta(metaText), "status").GetOr(""))
    ensures var r := ClassifyRunFailure(message, Some(metaText), stderrText);
      (r.status == MemoryLimitExceeded <==> MemorySignal(ParseMeta(metaText), ExecuteMemoryLimitKb)) &&
      (r.status == MemoryLimitExceeded ==> r.error == Some("Memory limit exceeded")) &&
      (r.status != MemoryLimitExceeded ==> r.status == RuntimeError)
  {
  }

  /** A run is a timeout exactly when the report's status code is TO. */
  lemma RunTimeoutIff(message: Option<string>, metaText: Option<string>, stderrText: Option<string>)
    ensures var r := ClassifyRunFailure(message, metaText, stderrText);
      r.status == Timeout <==> (metaText.Some? && Lookup(ParseMeta(metaText.value), "status") == Some("TO"))
    ensures var r := ClassifyRunFailure(message, metaText, stderrText);
      r.status == Timeout ==> r.error == Some("Time limit exceeded")
  {
  }

  /** A peak resident size of `x` KB at or over the 256000 KB limit is a
      memory verdict on an abnormal exit. */
  lemma RunMemoryByRss(message: Option<string>, metaText: string, stderrText: Option<string>, x: int)
    requires IsAbnormalExit(Lookup(ParseMeta(metaText), "status").GetOr(""))
    requires Lookup(ParseMeta(metaText), "max-rss") == Some(IntToDecimal(x)) && x >= ExecuteMemoryLimitKb
    ensures ClassifyRunFailure(message, Some(metaText), stderrText).status == MemoryLimitExceeded
  {
    hide ParseMeta, Trim, Lookup, ParseInt, IntToDecimal;
    ParseIntOfDecimal(x);
  }

  // ---------------------------------------------------------------------
  // executeTestCase

  /** The text the generated program prints just before its answer. */
  const Marker: string := "{{CODE_ANSWER}}"

  lemma MarkerNoSelfOverlap()
    ensures NoSelfOverlap(Marker)
  {
    forall d | 0 < d < |Marker| ensures Marker[d..] != Marker[..|Marker| - d] {
      if d == 1 {
        assert Marker[d..][1] != Marker[..|Marker| - d][1];
      } else {
        assert Marker[d..][0] != Marker[..|Marker| - d][0];
      }
    }
  }

  /** What `executeTestCase` returns: the answer, or the error to report. */
  datatype TestRun = TestRun(output: string, error: Option<Thrown>)

  /** The answer of a run: a failed run is an error with its status, an
      output that does not split into exactly two pieces at the marker is
      "Invalid output format", and otherwise the answer is the trimmed text
      after the marker. */
  function RunOutcome(out: CodeOutput, n: nat, input: string): (r: TestRun)
    ensures r.error.Some? ==> r.output == "" && r.error.value.ExecutionError?
    ensures r.error.Some? ==> r.error.value.testCaseNumber == n && r.error.value.input == input
    ensures r.error.Some? && out.status != Success ==> r.error.value.status == out.status
  {
    if out.status != Success then
      TestRun("", Some(ExecutionError(out.status, out.error.GetOr(StatusText(out.status)), n, input)))
    else
      var pieces := Split(out.output, Marker);
      if |pieces| != 2 then TestRun("", Some(ExecutionError(Error, "Invalid output format", n, input)))
      else TestRun(Trim(pieces[1]), None)
  }

  /** A run's error never carries status Success. */
  lemma RunOutcomeFails(out: CodeOutput, n: nat, input: string)
    ensures RunOutcome(out, n, input).error.Some? ==> IsFailure(RunOutcome(out, n, input).error.value)
  {
  }

  /** A successful run is accepted exactly when the marker occurs once in
      its output, and the answer is then the trimmed text after it. */
  lemma RunOutcomeSentinel(out: CodeOutput, n: nat, input: string)
    requires out.status == Success
    ensures RunOutcome(out, n, input).error.None? <==> OccursOnce(out.output, Marker)
    ensures OccursOnce(out.output, Marker) ==>
      exists k :: OccursAt(out.output, Marker, k) &&
        RunOutcome(out, n, input).output == Trim(out.output[k + |Marker|..])
  {
    MarkerNoSelfOverlap();
    SplitTwoIffOnce(out.output, Marker);
  }

  /** The record after `executeTestCase`. A user run appends one entry to
      each per-test array: the upper-cased status on failure, "" on a bad
      output, else the answer, with `""` also going to the expected answers
      on both failure paths; a reference run changes nothing. */
  function AfterRun(v: Verdict, out: CodeOutput, isUser: bool): Verdict {
    if !isUser then v
    else
      var time := Lookup(out.meta, "time").GetOr("0");
      var memory := Lookup(out.meta, "max-rss").GetOr("0");
      var pieces := Split(out.output, Marker);
      if out.status != Success then
        v.(codeAnswer := v.codeAnswer + [AsciiUpper(StatusText(out.status))],
           stdOutputList := v.stdOutputList + [""],
           expectedCodeAnswer := v.expectedCodeAnswer + [""],
           executionTime := v.executionTime + [time],
           executionMemory := v.executionMemory + [memory])
      else if |pieces| != 2 then
        v.(codeAnswer := v.codeAnswer + [""],
           stdOutputList := v.stdOutputList + [""],
           expectedCodeAnswer := v.expectedCodeAnswer + [""],
           executionTime := v.executionTime + [time],
           executionMemory := v.executionMemory + [memory])
      else
        v.(codeAnswer := v.codeAnswer + [Trim(pieces[1])],
           stdOutputList := v.stdOutputList + [Trim(pieces[0])],
           executionTime := v.executionTime + [time],
           executionMemory := v.executionMemory + [memory])
  }

  /** Apart from the five per-test arrays, a run leaves the record alone. */
  predicate SameOutside(a: Verdict, b: Verdict) {
    a.submissionId == b.submissionId && a.userId == b.userId && a.questionId == b.questionId &&
    a.status == b.status && a.correctTestCases == b.correctTestCases &&
    a.totalTestCases == b.totalTestCases && a.lastTestCase == b.lastTestCase &&
    a.isAnswer == b.isAnswer && a.error == b.error && a.errors == b.errors
  }

  /** A user run appends exactly one entry to `code_answer`,
      `std_output_list`, `execution_time` and `execution_memory`, and one to
      `expected_code_answer` exactly when it failed; the `code_answer` entry
      is the answer, or the upper-cased status of a failed run. A reference
      run leaves the record as it was. */
  lemma AfterRunAppends(v: Verdict, out: CodeOutput, isUser: bool, n: nat, input: string)
    ensures var r := AfterRun(v, out, isUser); var run := RunOutcome(out, n, input);
      SameOutside(r, v) &&
      (!isUser ==> r == v) &&
      (isUser ==>
        |r.codeAnswer| == |v.codeAnswer| + 1 && |r.stdOutputList| == |v.stdOutputList| + 1 &&
        |r.executionTime| == |v.executionTime| + 1 && |r.executionMemory| == |v.executionMemory| + 1 &&
        r.codeAnswer[..|v.codeAnswer|] == v.codeAnswer &&
        r.expectedCodeAnswer == v.expectedCodeAnswer + (if run.error.Some? then [""] else []) &&
        r.codeAnswer[|v.codeAnswer|] ==
          (if out.status != Success then AsciiUpper(StatusText(out.status)) else run.output))
  {
  }

  /** `executeTestCase(result, handler, input, n, …, isUserCode)` on the
      report the sandbox gave for the run. */
  method ExecuteTestCase(result: ExecutionResult, report: RunReport, input: string, n: nat, isUser: bool)
    returns (run: TestRun)
    modifies result
    ensures run == RunOutcome(ExecuteCode(report, isUser), n, input)
    ensures result.Snapshot() == AfterRun(old(result.Snapshot()), ExecuteCode(report, isUser), isUser)
  {
    var out := ExecuteCode(report, isUser);
    run := RecordRun(result, out, input, n, isUser);
  }

  /** The part of `executeTestCase` after `executeCode` returned `out`. */
  method RecordRun(result: ExecutionResult, out: CodeOutput, input: string, n: nat, isUser: bool)
    returns (run: TestRun)
    modifies result
    ensures run == RunOutcome(out, n, input)
    ensures result.Snapshot() == AfterRun(old(result.Snapshot()), out, isUser)
  {
    var time := Lookup(out.meta, "time").GetOr("0");
    var memory := Lookup(out.meta, "max-rss").GetOr("0");
    if out.status != Success {
      if isUser {
        result.PushEntries(AsciiUpper(StatusText(out.status)), "", Some(""), time, memory);
      }
      return TestRun("", Some(ExecutionError(out.status, out.error.GetOr(StatusText(out.status)), n, input)));
    }
    var solution := Split(out.output, Marker);
    if |solution| != 2 {
      if isUser {
        result.PushEntries("", "", Some(""), time, memory);
      }
      return TestRun("", Some(ExecutionError(Error, "Invalid output format", n, input)));
    }
    var output := Trim(solution[1]);
    if isUser {
      result.PushEntries(output, Trim(solution[0]), None, time, memory);
    }
    run := TestRun(output, None);
  }
}
