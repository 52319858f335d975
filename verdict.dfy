/** Verdict codes, reports and the roll-up of per-case reports (test.ts). */
module Verdict {
  import opened Wrappers
  import opened TextDiff

  /** The TestResult enum. Accepted, Unaccepted and CompilationError are the
      fail-fast results; the others are detailed, per-case results. */
  datatype TestResult =
    | Accepted
    | Unaccepted
    | CompilationError
    | CpuTimeLimitExceeded
    | TimeLimitExceeded
    | SpaceLimitExceeded
    | RuntimeError
    | SystemError
    | WrongAnswer

  predicate IsFailFast(r: TestResult) {
    r.Accepted? || r.Unaccepted? || r.CompilationError?
  }

  /** The numeric value of each enum member: fail-fast results are the codes
      at most 0, detailed results the positive codes. */
  function Code(r: TestResult): (c: int)
    ensures -2 <= c <= 6
    ensures c <= 0 <==> IsFailFast(r)
  {
    match r
    case Accepted => 0
    case Unaccepted => -1
    case CompilationError => -2
    case CpuTimeLimitExceeded => 1
    case TimeLimitExceeded => 2
    case SpaceLimitExceeded => 3
    case RuntimeError => 4
    case SystemError => 5
    case WrongAnswer => 6
  }

  /** The enum's reverse mapping from a number to its member (`TestResult[n]`). */
  function FromCode(c: int): (r: Option<TestResult>)
    ensures r.Some? <==> -2 <= c <= 6
  {
    if c == 0 then Some(Accepted)
    else if c == -1 then Some(Unaccepted)
    else if c == -2 then Some(CompilationError)
    else if c == 1 then Some(CpuTimeLimitExceeded)
    else if c == 2 then Some(TimeLimitExceeded)
    else if c == 3 then Some(SpaceLimitExceeded)
    else if c == 4 then Some(RuntimeError)
    else if c == 5 then Some(SystemError)
    else if c == 6 then Some(WrongAnswer)
    else None
  }

  /** The two mappings are inverse: codes identify results uniquely. */
  lemma CodeRoundTrip(r: TestResult, c: int)
    ensures FromCode(Code(r)) == Some(r)
    ensures FromCode(c) == Some(r) ==> Code(r) == c
  {
    match r
    case Accepted =>
    case Unaccepted =>
    case CompilationError =>
    case CpuTimeLimitExceeded =>
    case TimeLimitExceeded =>
    case SpaceLimitExceeded =>
    case RuntimeError =>
    case SystemError =>
    case WrongAnswer =>
  }

  /** The structured response of the resource-limited judger. */
  datatype JudgerResponse = JudgerResponse(
    result: TestResult,
    cpuTime: int,
    realTime: int,
    memory: int,
    signal: int,
    exitCode: int,
    error: int)

  /** Why the code threw. */
  datatype Fault =
    | InputPathMissing    // path.resolve of an absent input path
    | AnswerPathMissing   // path.resolve of an absent answer path
    | JudgerFailed        // the judger could not be run, or its output was not JSON
    | FileUnreadable(path: string)
    | LogFailed           // a logging call threw

  /** What a report's `message` holds: the judger's whole response, a thrown
      error, or a divergence found by diff (its text is `Render`). */
  datatype Message =
    | JudgerOutput(response: JudgerResponse)
    | Thrown(fault: Fault)
    | DiffText(divergence: Divergence)

  datatype TestReport = TestReport(
    result: TestResult,
    usedTime: Option<int>,
    usedSpace: Option<int>,
    message: Option<Message>,
    children: Option<seq<TestReport>>)

  /** A report carrying only a result. */
  function Bare(r: TestResult): TestReport {
    TestReport(r, None, None, None, None)
  }

  /** `used_time ?? 0` */
  function TimeOf(r: TestReport): int {
    r.usedTime.GetOr(0)
  }

  /** `used_space ?? 0` */
  function SpaceOf(r: TestReport): int {
    r.usedSpace.GetOr(0)
  }

  predicate AllAccepted(reports: seq<TestReport>) {
    forall k :: 0 <= k < |reports| ==> reports[k].result == Accepted
  }

  /** Sum of the reports' times, a missing time counting as 0. */
  function TotalTime(reports: seq<TestReport>): int {
    if reports == [] then 0
    else TotalTime(reports[..|reports| - 1]) + TimeOf(reports[|reports| - 1])
  }

  /** Largest of 0 and the reports' spaces, a missing space counting as 0. */
  function PeakSpace(reports: seq<TestReport>): int {
    if reports == [] then 0
    else
      var m := PeakSpace(reports[..|reports| - 1]);
      var s := SpaceOf(reports[|reports| - 1]);
      if s > m then s else m
  }

  /** The top-level report over the per-case reports. */
  function Summary(reports: seq<TestReport>): TestReport {
    TestReport(
      if AllAccepted(reports) then Accepted else Unaccepted,
      Some(TotalTime(reports)),
      Some(PeakSpace(reports)),
      None,
      Some(reports))
  }

  /** PeakSpace is the maximum of 0 and every report's space. */
  lemma {:induction false} PeakSpaceIsMax(reports: seq<TestReport>)
    ensures PeakSpace(reports) >= 0
    ensures forall k :: 0 <= k < |reports| ==> SpaceOf(reports[k]) <= PeakSpace(reports)
    ensures PeakSpace(reports) == 0 || exists k :: 0 <= k < |reports| && SpaceOf(reports[k]) == PeakSpace(reports)
  {
    if reports != [] {
      var init := reports[..|reports| - 1];
      PeakSpaceIsMax(init);
      assert forall k :: 0 <= k < |init| ==> init[k] == reports[k];
    }
  }

  /** Time adds up over consecutive groups of reports. */
  lemma {:induction false} TotalTimeAppend(a: seq<TestReport>, b: seq<TestReport>)
    ensures TotalTime(a + b) == TotalTime(a) + TotalTime(b)
  {
    if b == [] {
      assert a + b == a;
    } else {
      var b' := b[..|b| - 1];
      assert (a + b)[..|a + b| - 1] == a + b';
      TotalTimeAppend(a, b');
    }
  }

  /** The roll-up loop of `test()`: counts failures, adds up time and keeps the
      largest space. */
  method Summarize(reports: seq<TestReport>) returns (report: TestReport)
    ensures report == Summary(reports)
    ensures report.result == Accepted <==> AllAccepted(reports)
    ensures report.result == Accepted || report.result == Unaccepted
    ensures report.children == Some(reports)
  {
    var totalTime, maxSpace, failed := 0, 0, 0;
    for i := 0 to |reports|
      invariant totalTime == TotalTime(reports[..i])
      invariant maxSpace == PeakSpace(reports[..i])
      invariant failed == 0 <==> AllAccepted(reports[..i])
    {
      assert reports[..i + 1][..i] == reports[..i];
      if reports[i].result != Accepted {
        failed := failed + 1;
      }
      totalTime := totalTime + TimeOf(reports[i]);
      maxSpace := if SpaceOf(reports[i]) > maxSpace then SpaceOf(reports[i]) else maxSpace;
    }
    assert reports[..|reports|] == reports;
    report := TestReport(
      if failed != 0 then Unaccepted else Accepted,
      Some(totalTime),
      Some(maxSpace),
      None,
      Some(reports));
  }
}
