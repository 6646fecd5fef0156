/** `compileCode`: compiling a wrapped program in the sandbox, and the rules
    that turn a failed compilation's report into a status and a message. */
module Compile {
  import opened Wrappers
  import opened Strings
  import opened Numbers
  import opened Results
  import opened Isolate

  /** What `compileCode` returns: a status and, on failure, a message. */
  datatype CompileOutcome = CompileOutcome(status: Status, error: Option<string>)

  /** The classification of a compilation whose sandbox call threw. The
      starting message is the thrown error's, or "Compilation failed";
      without a readable meta report it stands. Otherwise non-empty standard
      error replaces it (trimmed), and the report's status code decides. */
  function ClassifyCompileFailure(message: Option<string>, metaText: Option<string>, stderrText: Option<string>): (r: CompileOutcome)
    ensures r.status in {CompilationError, Timeout, MemoryLimitExceeded}
    ensures r.error.Some?
  {
    var initial := message.GetOr("Compilation failed");
    if metaText.None? then CompileOutcome(CompilationError, Some(initial))
    else
      var meta := ParseMeta(metaText.value);
      var stderr := stderrText.GetOr("");
      var fallback := if stderr != "" then Trim(stderr) else initial;
      var code := Lookup(meta, "status").GetOr("");
      if code == "TO" then CompileOutcome(Timeout, Some("Compilation time limit exceeded"))
      else if IsAbnormalExit(code) then
        if MemorySignal(meta, CompileMemoryLimitKb) then
          CompileOutcome(MemoryLimitExceeded, Some("Compilation memory limit exceeded"))
        else
          CompileOutcome(CompilationError, Some(if stderr != "" then stderr else OrElse(Lookup(meta, "message"), "Compilation failed")))
      else CompileOutcome(CompilationError, Some(fallback))
  }

  /** `compileCode(handler, code, …)`: a handler without a compile command
      succeeds at once; otherwise the sandbox report decides. */
  function CompileCode(compileCommand: Option<seq<string>>, report: RunReport): (r: CompileOutcome)
    ensures r.status == Success <==> (compileCommand.None? || report.Completed?)
    ensures r.status == Success ==> r.error.None?
  {
    if compileCommand.None? then CompileOutcome(Success, None)
    else match report
      case Completed(_, _) => CompileOutcome(Success, None)
      case Failed(message, metaText, stderrText) => ClassifyCompileFailure(message, metaText, stderrText)
  }

  /** Skipping compilation does not depend on the sandbox at all. */
  lemma NoCompileCommandSucceeds(a: RunReport, b: RunReport)
    ensures CompileCode(None, a) == CompileCode(None, b) == CompileOutcome(Success, None)
  {
  }

  /** A report whose status code is TO is a compile timeout, whatever else
      it holds. */
  lemma CompileTimeout(message: Option<string>, metaText: string, stderrText: Option<string>)
    requires Lookup(ParseMeta(metaText), "status") == Some("TO")
    ensures ClassifyCompileFailure(message, Some(metaText), stderrText) ==
      CompileOutcome(Timeout, Some("Compilation time limit exceeded"))
  {
  }

  /** On an abnormal exit the memory test comes first: any memory signal
      makes the verdict MemoryLimitExceeded, whatever standard error says;
      without one the verdict is CompilationError. */
  lemma CompileMemoryFirst(message: Option<string>, metaText: string, stderrText: Option<string>)
    requires IsAbnormalExit(Lookup(ParseMeta(metaText), "status").GetOr(""))
    ensures var r := ClassifyCompileFailure(message, Some(metaText), stderrText);
      (r.status == MemoryLimitExceeded <==> MemorySignal(ParseMeta(metaText), CompileMemoryLimitKb)) &&
      (r.status == MemoryLimitExceeded ==> r.error == Some("Compilation memory limit exceeded")) &&
      (r.status != MemoryLimitExceeded ==> r.status == CompilationError)
  {
  }

  /** A compile timeout or memory verdict needs a readable meta report; any
      failure without one is a CompilationError carrying the thrown message. */
  lemma CompileNeedsMeta(message: Option<string>, stderrText: Option<string>)
    ensures ClassifyCompileFailure(message, None, stderrText) ==
      CompileOutcome(CompilationError, Some(message.GetOr("Compilation failed")))
  {
  }

  /** A peak resident size of `x` KB at or over the 524288 KB limit, as
      isolate writes it, is a memory verdict on an abnormal exit. */
  lemma CompileMemoryByRss(message: Option<string>, metaText: string, stderrText: Option<string>, x: int)
    requires IsAbnormalExit(Lookup(ParseMeta(metaText), "status").GetOr(""))
    requires Lookup(ParseMeta(metaText), "max-rss") == Some(IntToDecimal(x)) && x >= CompileMemoryLimitKb
    ensures ClassifyCompileFailure(message, Some(metaText), stderrText) ==
      CompileOutcome(MemoryLimitExceeded, Some("Compilation memory limit exceeded"))
  {
    hide ParseMeta, Trim, Lookup, ParseInt, IntToDecimal;
    ParseIntOfDecimal(x);
  }
}
