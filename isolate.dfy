/** What the worker learns from one `isolate --run` call, and the reading
    of isolate's `key:value` meta report into a dictionary. The sandbox
    itself is not modelled: a `Sandbox` is any total map from the call made
    to the report it leaves behind. */
module Isolate {
  import opened Wrappers
  import opened Strings
  import opened Numbers

  /** Whose program a call compiles or runs. */
  datatype Role = User | Reference

  /** A call into the sandbox: compiling a wrapped program, or running it on
      the input of one test case. */
  datatype Call =
    | CompileCall(role: Role, source: string)
    | RunCall(role: Role, testCaseNumber: nat, input: string)

  /** The outcome of the `try` block around a sandbox call. `Completed`: the
      call succeeded and its output file (and, for user code, its meta file)
      were read. `Failed`: something in the block threw, with that error's
      message if it had one; the handler then reads whatever meta report and
      standard error the box holds, if it can. */
  datatype RunReport =
    | Completed(outputText: string, metaReport: string)
    | Failed(message: Option<string>, metaText: Option<string>, stderrText: Option<string>)

  /** The sandbox as an oracle: the report it leaves for every call. */
  type Sandbox = m: imap<Call, RunReport> | forall c :: c in m
    ghost witness imap c: Call | true :: Completed("", "")

  const ExecuteMemoryLimitKb: int := 256000
  const CompileMemoryLimitKb: int := 524288
  const TimeoutSeconds: int := 3
  const CompileTimeoutSeconds: int := 5

  /** A line with a colon in it splits into at least two pieces. */
  lemma ColonSplits(line: string)
    requires ':' in line
    ensures |Split(line, ":")| >= 2
  {
    var parts := Split(line, ":");
    if |parts| == 1 {
      JoinSplit(line, ":");
      SplitPiecesFree(line, ":");
      var k :| 0 <= k < |line| && line[k] == ':';
      assert line == parts[0];
      assert OccursAt(parts[0], ":", k);
      assert false;
    }
  }

  /** The text before the first colon of a meta line. */
  function MetaKey(line: string): (k: string)
    requires ':' in line
    ensures ':' !in k
  {
    ColonSplits(line);
    SplitPiecesFree(line, ":");
    var p := Split(line, ":");
    assert forall c :: c in p[0] ==> c != ':' by {
      forall c | c in p[0] ensures c != ':' {
        var j :| 0 <= j < |p[0]| && p[0][j] == c;
        assert !OccursAt(p[0], ":", j);
        assert p[0][j..j + 1] == [c];
      }
    }
    p[0]
  }

  /** The text between the first and the second colon (`split(":", 2)`). */
  function MetaValue(line: string): (v: string)
    requires ':' in line
    ensures ':' !in v
  {
    ColonSplits(line);
    SplitPiecesFree(line, ":");
    var p := Split(line, ":");
    assert forall c :: c in p[1] ==> c != ':' by {
      forall c | c in p[1] ensures c != ':' {
        var j :| 0 <= j < |p[1]| && p[1][j] == c;
        assert !OccursAt(p[1], ":", j);
        assert p[1][j..j + 1] == [c];
      }
    }
    p[1]
  }

  /** The meta lines read left to right into a dictionary; a line without a
      colon is skipped and a later key overwrites an earlier one. */
  function MetaEntries(lines: seq<string>): map<string, string>
    decreases |lines|
  {
    if |lines| == 0 then map[]
    else
      var m := MetaEntries(lines[..|lines| - 1]);
      var line := lines[|lines| - 1];
      if ':' in line then m[MetaKey(line) := MetaValue(line)] else m
  }

  /** The dictionary of a meta report. */
  function ParseMeta(text: string): map<string, string> {
    MetaEntries(Split(text, "\n"))
  }

  /** Line `j` is the last line that sets key `k`. */
  predicate LastSetter(lines: seq<string>, k: string, j: int) {
    0 <= j < |lines| && ':' in lines[j] && MetaKey(lines[j]) == k &&
    forall j2 :: j < j2 < |lines| && ':' in lines[j2] ==> MetaKey(lines[j2]) != k
  }

  /** A key is in the dictionary exactly when some line sets it, and its
      value is the one the last such line gives. */
  lemma {:induction false} MetaLastWins(lines: seq<string>, k: string)
    ensures k in MetaEntries(lines) <==> exists j :: 0 <= j < |lines| && ':' in lines[j] && MetaKey(lines[j]) == k
    ensures forall j :: LastSetter(lines, k, j) ==> k in MetaEntries(lines) && MetaEntries(lines)[k] == MetaValue(lines[j])
    decreases |lines|
  {
    if |lines| > 0 {
      var init := lines[..|lines| - 1];
      var line := lines[|lines| - 1];
      MetaLastWins(init, k);
      assert forall j :: 0 <= j < |init| ==> init[j] == lines[j];
      forall j | LastSetter(lines, k, j)
        ensures k in MetaEntries(lines) && MetaEntries(lines)[k] == MetaValue(lines[j])
      {
        if j < |lines| - 1 {
          assert LastSetter(init, k, j);
        }
      }
      if k in MetaEntries(lines) && !(':' in line && MetaKey(line) == k) {
        var j :| 0 <= j < |init| && ':' in init[j] && MetaKey(init[j]) == k;
        assert lines[j] == init[j];
      }
    }
  }

  /** No key or value of the dictionary holds a colon. */
  lemma {:induction false} MetaEntriesColonFree(lines: seq<string>)
    ensures forall k :: k in MetaEntries(lines) ==> ':' !in k && ':' !in MetaEntries(lines)[k]
    decreases |lines|
  {
    if |lines| > 0 {
      MetaEntriesColonFree(lines[..|lines| - 1]);
    }
  }

  /** `meta[key]`, absent keys being `undefined`. */
  function Lookup(meta: map<string, string>, key: string): Option<string> {
    if key in meta then Some(meta[key]) else None
  }

  /** `a || b` on an optional string: `b` when `a` is absent or empty. */
  function OrElse(a: Option<string>, b: string): (r: string)
    ensures a.Some? && a.value != "" ==> r == a.value
    ensures (a.None? || a.value == "") ==> r == b
  {
    if a.Some? && a.value != "" then a.value else b
  }

  /** The memory test shared by both classifiers: the cgroup OOM flag,
      `parseInt(max-rss || "0")` reaching the limit, or signal 9. */
  predicate MemorySignal(meta: map<string, string>, limitKb: int) {
    Lookup(meta, "cg-oom-killed") == Some("1") ||
    (var rss := ParseInt(OrElse(Lookup(meta, "max-rss"), "0")); rss.Some? && rss.value >= limitKb) ||
    Lookup(meta, "exitsig") == Some("9")
  }

  /** Isolate's failure codes: the program exited non-zero, died on a
      signal, or the sandbox itself failed. */
  predicate IsAbnormalExit(code: string) {
    code == "RE" || code == "SG" || code == "XX"
  }
}
