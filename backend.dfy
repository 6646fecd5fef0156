/** The backend's part of judging: the problem list's pagination and the
    cache keys it reads and writes, and the jobs the "run" and "submit"
    endpoints put on the submission queue. */
module Backend {
  import opened Wrappers
  import opened Strings
  import opened Numbers
  import opened Process

  /* ---------------------------------------------------------------------
     Pagination
     --------------------------------------------------------------------- */

  /** The problems on one page. */
  const PageLimit: nat := 10

  /** One row of the problem list: id, title, slug and difficulty. */
  datatype ProblemRow = ProblemRow(id: int, title: string, titleSlug: string, difficulty: string)

  /** `parseInt(req.query.page) || 1`: a missing page, one that does not
      parse and page 0 all ask for page 1; any other integer, negative
      ones included, is taken as it is. */
  function RequestedPage(query: Option<string>): (p: int)
    ensures p != 0
    ensures p == 1 || (query.Some? && ParseInt(query.value) == Some(p))
  {
    match query
    case None => 1
    case Some(q) =>
      match ParseInt(q)
      case None => 1
      case Some(x) => if x == 0 then 1 else x
  }

  /** A page number written out in decimal is read back as that page;
      without a usable number the first page is asked for. */
  lemma RequestedPageReads(i: int, query: Option<string>)
    ensures i != 0 ==> RequestedPage(Some(IntToDecimal(i))) == i
    ensures query.None? || ParseInt(query.value).None? || ParseInt(query.value) == Some(0) ==>
      RequestedPage(query) == 1
  {
    ParseIntOfDecimal(i);
  }

  /** The search text: the trimmed query, or "" without one. */
  function SearchTerm(query: Option<string>): (s: string)
    ensures s == "" || query.Some?
    ensures query.Some? ==> s == Trim(query.value)
  {
    if query.Some? then Trim(query.value) else ""
  }

  /** A search of nothing but white space counts as no search, and so goes
      through the cache. */
  lemma BlankSearchIsNoSearch(query: Option<string>)
    ensures SearchTerm(query) == "" <==> query.None? || IsBlank(query.value)
  {
  }

  /** `Math.ceil(count / PageLimit)`. */
  function TotalPages(count: nat): (t: nat)
    ensures count == 0 <==> t == 0
    ensures t > 0 ==> (t - 1) * PageLimit < count <= t * PageLimit
  {
    (count + PageLimit - 1) / PageLimit
  }

  /** The page shown and the number of rows before it. */
  datatype Window = Window(currentPage: nat, totalPages: nat, skip: nat)

  /** No window for an empty list; otherwise the requested page clamped to
      `[1, TotalPages(count)]` and the rows of the pages before it. */
  function Paginate(count: nat, page: int): (w: Option<Window>)
    ensures w.None? <==> count == 0
    ensures w.Some? ==>
      (w.value.totalPages == TotalPages(count) && 1 <= w.value.currentPage <= w.value.totalPages &&
       w.value.skip == (w.value.currentPage - 1) * PageLimit && w.value.skip < count)
    ensures w.Some? ==> (w.value.currentPage == page <==> 1 <= page <= TotalPages(count))
    ensures w.Some? && page < 1 ==> w.value.currentPage == 1
    ensures w.Some? && page > TotalPages(count) ==> w.value.currentPage == TotalPages(count)
  {
    if count == 0 then None
    else
      var totalPages := TotalPages(count);
      var adjusted: nat := if page < 1 then 1 else if page > totalPages then totalPages else page;
      Some(Window(adjusted, totalPages, (adjusted - 1) * PageLimit))
  }

  /** The database's `skip`/`take`: at most `take` rows from `skip` on. */
  function PageRows(rows: seq<ProblemRow>, skip: nat, take: nat): (r: seq<ProblemRow>)
    ensures |r| == if skip >= |rows| then 0 else if |rows| - skip < take then |rows| - skip else take
    ensures forall i :: 0 <= i < |r| ==> r[i] == rows[skip + i]
  {
    if skip >= |rows| then [] else if |rows| - skip < take then rows[skip..] else rows[skip..skip + take]
  }

  /** The reply to a page request. */
  datatype ProblemsReply = ProblemsReply(data: seq<ProblemRow>, currentPage: nat, totalPages: nat,
                                         totalItems: nat, limit: nat)

  /** The reply for `count` matching problems, the rows coming from `rows`
      (the matching problems in id order). An empty list is page 1 of 0. */
  function ProblemsPage(count: nat, page: int, rows: seq<ProblemRow>): (r: ProblemsReply)
    ensures r.limit == PageLimit && r.totalItems == count
    ensures count == 0 ==> r == ProblemsReply([], 1, 0, 0, PageLimit)
    ensures count > 0 ==> (r.currentPage >= 1 &&
      Paginate(count, page) == Some(Window(r.currentPage, r.totalPages, (r.currentPage - 1) * PageLimit)))
    ensures count == |rows| > 0 ==> 1 <= |r.data| <= PageLimit
  {
    match Paginate(count, page)
    case None => ProblemsReply([], 1, 0, 0, PageLimit)
    case Some(w) => ProblemsReply(PageRows(rows, w.skip, PageLimit), w.currentPage, w.totalPages, count, PageLimit)
  }

  /** Every problem is on exactly one page: row `j` is shown on page
      `j / PageLimit + 1` and on no other. */
  lemma RowOnOnePage(rows: seq<ProblemRow>, j: nat, page: int)
    requires j < |rows|
    ensures ProblemsPage(|rows|, j / PageLimit + 1, rows).currentPage == j / PageLimit + 1
    ensures var r := ProblemsPage(|rows|, page, rows);
      var skip := (r.currentPage - 1) * PageLimit;
      (skip <= j < skip + |r.data| <==> r.currentPage == j / PageLimit + 1) &&
      (skip <= j < skip + |r.data| ==> r.data[j - skip] == rows[j])
  {
    var t := TotalPages(|rows|);
    assert j / PageLimit + 1 <= t;
  }

  /* ---------------------------------------------------------------------
     The cache
     --------------------------------------------------------------------- */

  /** The key of the cached number of problems. */
  const CountKey: string := "problem:count"

  /** The key of a cached page: `problems:<page>:<take>`. */
  function PageKey(page: nat, take: nat): (k: string)
    ensures Split(k, ":") == ["problems", NatToDecimal(page), NatToDecimal(take)]
  {
    var parts := ["problems", NatToDecimal(page), NatToDecimal(take)];
    DecimalHasNoColon(page);
    DecimalHasNoColon(take);
    assert ':' !in "problems";
    SplitJoinChar(parts, ':');
    assert Join(parts[2..], ":") == NatToDecimal(take);
    assert Join(parts[1..], ":") == NatToDecimal(page) + ":" + NatToDecimal(take) by {
      assert parts[1..][1..] == parts[2..];
    }
    assert Join(parts, ":") == "problems:" + NatToDecimal(page) + ":" + NatToDecimal(take);
    "problems:" + NatToDecimal(page) + ":" + NatToDecimal(take)
  }

  lemma DecimalHasNoColon(n: nat)
    ensures ':' !in NatToDecimal(n)
  {
    var r := NatToDecimal(n);
    forall k | 0 <= k < |r| ensures r[k] != ':' {
    }
  }

  /** Different pages, or the same page with a different size, are cached
      under different keys, none of which is the count's. */
  lemma {:induction false} CacheKeysDistinct(p1: nat, t1: nat, p2: nat, t2: nat)
    ensures PageKey(p1, t1) == PageKey(p2, t2) ==> p1 == p2 && t1 == t2
    ensures PageKey(p1, t1) != CountKey
  {
    if PageKey(p1, t1) == PageKey(p2, t2) {
      assert NatToDecimal(p1) == NatToDecimal(p2) && NatToDecimal(t1) == NatToDecimal(t2);
      ParseIntOfDecimal(p1);
      ParseIntOfDecimal(p2);
      ParseIntOfDecimal(t1);
      ParseIntOfDecimal(t2);
    }
    assert PageKey(p1, t1)[7] == 's' != CountKey[7];
  }

  /** The cache as the problem list sees it: the count, stored as decimal
      text, and the pages, stored as the rows themselves. */
  class ProblemCache {
    var counts: map<string, string>
    var pages: map<string, seq<ProblemRow>>

    /** The only count ever stored is the decimal text of a count. */
    ghost predicate Valid()
      reads this
    {
      forall key :: key in counts ==> key == CountKey && ParseInt(counts[key]).Some? && ParseInt(counts[key]).value >= 0
    }

    constructor ()
      ensures Valid() && counts == map[] && pages == map[]
    {
      counts := map[];
      pages := map[];
    }

    /** `getProblemCount`: a search counts the matching rows; no search
        reads the cached count, or counts all rows (`stored`) and caches
        that. */
    method ProblemCount(search: string, stored: nat) returns (count: nat)
      requires Valid()
      modifies this
      ensures Valid() && pages == old(pages)
      ensures search != "" ==> count == stored && counts == old(counts)
      ensures search == "" ==> CountKey in counts && ParseInt(counts[CountKey]) == Some(count)
      ensures search == "" && CountKey in old(counts) ==> counts == old(counts)
      ensures search == "" && CountKey !in old(counts) ==>
        count == stored && counts == old(counts)[CountKey := NatToDecimal(stored)]
    {
      if search == "" {
        if CountKey in counts {
          count := ParseInt(counts[CountKey]).value;
          return;
        }
        ParseIntOfDecimal(stored);
        counts := counts[CountKey := NatToDecimal(stored)];
      }
      count := stored;
    }

    /** `getPageProblems`: a search reads the database; no search reads the
        cached page, or reads the database and caches what it read. */
    method PageProblems(page: nat, skip: nat, take: nat, search: string, rows: seq<ProblemRow>)
      returns (r: seq<ProblemRow>)
      modifies this
      ensures counts == old(counts)
      ensures search != "" ==> r == PageRows(rows, skip, take) && pages == old(pages)
      ensures search == "" && PageKey(page, take) in old(pages) ==>
        r == old(pages)[PageKey(page, take)] && pages == old(pages)
      ensures search == "" && PageKey(page, take) !in old(pages) ==>
        r == PageRows(rows, skip, take) && pages == old(pages)[PageKey(page, take) := r]
    {
      if search == "" {
        var key := PageKey(page, take);
        if key in pages {
          r := pages[key];
          return;
        }
        r := PageRows(rows, skip, take);
        pages := pages[key := r];
        return;
      }
      r := PageRows(rows, skip, take);
    }
  }

  /** `getProblems`, where `rows` are the problems matching the search in
      id order. The reply always follows the pagination of the count it
      used; a search, or a cache that holds nothing yet, gives exactly the
      page of the matching rows. */
  method GetProblems(cache: ProblemCache, pageQuery: Option<string>, searchQuery: Option<string>, rows: seq<ProblemRow>)
    returns (reply: ProblemsReply)
    requires cache.Valid()
    modifies cache
    ensures cache.Valid()
    ensures reply.limit == PageLimit
    ensures reply.totalItems == 0 ==> reply == ProblemsReply([], 1, 0, 0, PageLimit)
    ensures reply.totalItems > 0 ==> (reply.currentPage >= 1 &&
      Paginate(reply.totalItems, RequestedPage(pageQuery)) ==
        Some(Window(reply.currentPage, reply.totalPages, (reply.currentPage - 1) * PageLimit)))
    ensures SearchTerm(searchQuery) != "" ==>
      reply == ProblemsPage(|rows|, RequestedPage(pageQuery), rows) &&
      cache.counts == old(cache.counts) && cache.pages == old(cache.pages)
    ensures old(cache.counts) == map[] && old(cache.pages) == map[] ==>
      reply == ProblemsPage(|rows|, RequestedPage(pageQuery), rows)
  {
    hide ParseInt, Trim, NatToDecimal, PageKey;
    var page := RequestedPage(pageQuery);
    var search := SearchTerm(searchQuery);
    var count := cache.ProblemCount(search, |rows|);
    if count == 0 {
      reply := ProblemsReply([], 1, 0, 0, PageLimit);
      return;
    }
    var w := Paginate(count, page).value;
    var problems := cache.PageProblems(w.currentPage, w.skip, PageLimit, search, rows);
    reply := ProblemsReply(problems, w.currentPage, w.totalPages, count, PageLimit);
  }

  /* ---------------------------------------------------------------------
     Jobs
     --------------------------------------------------------------------- */

  datatype TestCase = TestCase(input: string, output: string)

  /** A stored problem: what a job copies from it and its test cases. */
  datatype Problem = Problem(functionName: string, systemCode: string, paramType: seq<string>,
                             returnType: string, testCases: seq<TestCase>)

  /** The fields of a request body that a job keeps. */
  datatype JobRequest = JobRequest(submissionId: Option<string>, questionId: string, language: string,
                                   dataInput: string, userCode: string)

  /** What an endpoint answers: the job it queued, a 400 with its message,
      or a 500. */
  datatype Reply = Enqueued(job: Submission) | BadRequest(message: string) | ServerError

  const InvalidQuestion: string := "Invalid question ID"

  function Inputs(testCases: seq<TestCase>): (r: seq<string>)
    ensures |r| == |testCases| && forall i :: 0 <= i < |r| ==> r[i] == testCases[i].input
  {
    seq(|testCases|, i requires 0 <= i < |testCases| => testCases[i].input)
  }

  function Outputs(testCases: seq<TestCase>): (r: seq<string>)
    ensures |r| == |testCases| && forall i :: 0 <= i < |r| ==> r[i] == testCases[i].output
  {
    seq(|testCases|, i requires 0 <= i < |testCases| => testCases[i].output)
  }

  /** The job `interpretSolution` queues: the user's own test data, the
      reference program and signature copied from the problem, and
      `isAnswer` false. */
  function RunJob(req: JobRequest, problem: Problem, userId: string): (job: Submission)
    ensures !job.isAnswer && job.dataInput == req.dataInput && job.systemCode == problem.systemCode
    ensures job.functionName == problem.functionName && job.paramType == problem.paramType &&
      job.returnType == problem.returnType && job.userId == userId
  {
    Submission(req.submissionId, req.questionId, req.language, problem.functionName, req.dataInput, req.userCode,
      problem.systemCode, problem.paramType, problem.returnType, false, userId)
  }

  /** The job `submitSolution` queues: the stored inputs as the test data,
      the stored outputs in place of the reference program, each joined
      with one newline between entries, and `isAnswer` true. */
  function AnswerJob(req: JobRequest, problem: Problem, userId: string): (job: Submission)
    ensures job.isAnswer && job.userId == userId
  {
    Submission(req.submissionId, req.questionId, req.language, problem.functionName,
      Join(Inputs(problem.testCases), "\n"), req.userCode, Join(Outputs(problem.testCases), "\n"),
      problem.paramType, problem.returnType, true, userId)
  }

  /** The problem a question id names: `parseInt` of the id, looked up. A
      question id that does not parse is rejected by the database, which
      the endpoint answers with a 500. */
  function FindProblem(problems: map<int, Problem>, questionId: string): (r: Result<Option<Problem>, string>)
    ensures r.Err? <==> ParseInt(questionId).None?
    ensures r.Ok? ==> (r.value.Some? <==> ParseInt(questionId).value in problems)
    ensures r.Ok? && r.value.Some? ==> r.value.value == problems[ParseInt(questionId).value]
  {
    match ParseInt(questionId)
    case None => Err("questionId is not an integer")
    case Some(id) => if id in problems then Ok(Some(problems[id])) else Ok(None)
  }

  /** `interpretSolution`. */
  function InterpretSolution(req: JobRequest, problems: map<int, Problem>, userId: string): (r: Reply)
    ensures r.ServerError? <==> ParseInt(req.questionId).None?
    ensures r.BadRequest? ==> r.message == InvalidQuestion
    ensures r.Enqueued? <==> ParseInt(req.questionId).Some? && ParseInt(req.questionId).value in problems
    ensures r.Enqueued? ==> !r.job.isAnswer
  {
    match FindProblem(problems, req.questionId)
    case Err(_) => ServerError
    case Ok(None) => BadRequest(InvalidQuestion)
    case Ok(Some(problem)) => Enqueued(RunJob(req, problem, userId))
  }

  /** `submitSolution`, as its reply. */
  function SubmitReply(req: JobRequest, problems: map<int, Problem>, userId: string): (r: Reply)
    ensures r.ServerError? <==> ParseInt(req.questionId).None?
    ensures r.BadRequest? ==> r.message == InvalidQuestion
    ensures r.Enqueued? <==> ParseInt(req.questionId).Some? && ParseInt(req.questionId).value in problems
    ensures r.Enqueued? ==> r.job.isAnswer
  {
    match FindProblem(problems, req.questionId)
    case Err(_) => ServerError
    case Ok(None) => BadRequest(InvalidQuestion)
    case Ok(Some(problem)) => Enqueued(AnswerJob(req, problem, userId))
  }

  /** Joining one more entry puts one separator before it. */
  lemma {:induction false} JoinSnoc(parts: seq<string>, x: string, sep: string)
    requires |parts| > 0
    ensures Join(parts + [x], sep) == Join(parts, sep) + sep + x
    decreases |parts|
  {
    if |parts| > 1 {
      assert (parts + [x])[1..] == parts[1..] + [x];
      JoinSnoc(parts[1..], x, sep);
    }
  }

  /** The `forEach` loop of `submitSolution`: each test case's input and
      output appended, then a newline unless it was the last. */
  method JoinTestCases(testCases: seq<TestCase>) returns (dataInput: string, systemCode: string)
    ensures dataInput == Join(Inputs(testCases), "\n")
    ensures systemCode == Join(Outputs(testCases), "\n")
  {
    var inputs, outputs := Inputs(testCases), Outputs(testCases);
    dataInput, systemCode := "", "";
    for index := 0 to |testCases|
      invariant index == 0 ==> dataInput == "" && systemCode == ""
      invariant 0 < index < |testCases| ==>
        dataInput == Join(inputs[..index], "\n") + "\n" && systemCode == Join(outputs[..index], "\n") + "\n"
      invariant index == |testCases| > 0 ==>
        dataInput == Join(inputs[..index], "\n") && systemCode == Join(outputs[..index], "\n")
    {
      if index > 0 {
        JoinSnoc(inputs[..index], inputs[index], "\n");
        JoinSnoc(outputs[..index], outputs[index], "\n");
      }
      assert inputs[..index + 1] == inputs[..index] + [inputs[index]];
      assert outputs[..index + 1] == outputs[..index] + [outputs[index]];
      dataInput := dataInput + testCases[index].input;
      systemCode := systemCode + testCases[index].output;
      if index != |testCases| - 1 {
        dataInput := dataInput + "\n";
        systemCode := systemCode + "\n";
      }
    }
    assert inputs[..|testCases|] == inputs && outputs[..|testCases|] == outputs;
  }

  /** `submitSolution`: the problem looked up, then the job assembled. */
  method SubmitSolution(req: JobRequest, problems: map<int, Problem>, userId: string) returns (r: Reply)
    ensures r == SubmitReply(req, problems, userId)
  {
    var found := FindProblem(problems, req.questionId);
    if found.Err? {
      return ServerError;
    }
    if found.value.None? {
      return BadRequest(InvalidQuestion);
    }
    var problem := found.value.value;
    var dataInput, systemCode := JoinTestCases(problem.testCases);
    r := Enqueued(Submission(req.submissionId, req.questionId, req.language, problem.functionName,
      dataInput, req.userCode, systemCode, problem.paramType, problem.returnType, true, userId));
  }

  /** The two endpoints queue the same job for the same request but for
      the flag, the test data and the reference: the run job's reference is
      the problem's program, the submit job's is the expected outputs. */
  lemma JobsDiffer(req: JobRequest, problem: Problem, userId: string)
    ensures RunJob(req, problem, userId).(isAnswer := true, dataInput := "", systemCode := "") ==
      AnswerJob(req, problem, userId).(dataInput := "", systemCode := "")
    ensures problem.testCases == [] ==> (AnswerJob(req, problem, userId).dataInput == "" &&
      AnswerJob(req, problem, userId).systemCode == "")
  {
  }

  /** Lines joined with newlines, none of them blank or holding a
      newline, split and filtered back into the same lines; the joined text
      is empty exactly when there were none. */
  lemma JoinedLinesRoundTrip(lines: seq<string>)
    requires forall i :: 0 <= i < |lines| ==> '\n' !in lines[i] && !IsBlank(lines[i])
    ensures KeepNonBlank(Split(Join(lines, "\n"), "\n")) == lines
    ensures Join(lines, "\n") == "" <==> |lines| == 0
  {
    if |lines| == 0 {
      assert Split("", "\n") == [""];
      assert IsBlank("");
    } else {
      SplitJoinChar(lines, '\n');
      KeepNonBlankAll(lines);
      assert lines[0] != "" by {
        assert IsBlank("");
      }
      assert |Join(lines, "\n")| >= |lines[0]|;
    }
  }

  /** What the judge reads back from a submit job: with single-line,
      non-blank inputs and outputs, its test lines are the stored inputs
      and its expected outputs the stored outputs, in order. */
  lemma AnswerJobRoundTrip(req: JobRequest, problem: Problem, userId: string)
    requires forall i :: 0 <= i < |problem.testCases| ==>
      '\n' !in problem.testCases[i].input && !IsBlank(problem.testCases[i].input) &&
      '\n' !in problem.testCases[i].output && !IsBlank(problem.testCases[i].output)
    ensures TestLines(AnswerJob(req, problem, userId).dataInput) == Inputs(problem.testCases)
    ensures ExpectedOutputs(AnswerJob(req, problem, userId).systemCode) == Outputs(problem.testCases)
  {
    hide KeepNonBlank, Split, Join, IsBlank;
    JoinedLinesRoundTrip(Inputs(problem.testCases));
    JoinedLinesRoundTrip(Outputs(problem.testCases));
  }
}
