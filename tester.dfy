/** The Test class of test.ts: configuration defaults, the per-case run
    through the resource-limited judger, the loop over all cases and the
    fail-fast top level. Every external effect (compiler, judger, files,
    temporary names, logging) is a field of `Env`. */
module Tester {
  import opened Wrappers
  import opened TextDiff
  import opened Verdict

  datatype Testcase = Testcase(
    input: Option<string>,
    answer: Option<string>,
    specialJudge: Option<string>)

  /** The parsed configuration document; `None` is an absent or null key. */
  datatype Config = Config(
    version: Option<int>,
    name: Option<string>,
    description: Option<string>,
    source: Option<string>,
    filepath: Option<string>,
    timeLimit: Option<int>,
    spaceLimit: Option<int>,
    solution: Option<string>,
    compileArgs: Option<string>,
    testcases: Option<seq<Testcase>>)

  const DefaultSpaceLimit: int := 128    // MB
  const DefaultTimeLimit: int := 2048    // ms
  const MaxOutputSize: int := 134217728  // bytes
  const BytesPerMegabyte: int := 1048576

  /** A configuration as the constructor leaves it. */
  predicate IsNormal(c: Config) {
    c.filepath.Some? && c.timeLimit.Some? && c.spaceLimit.Some? && c.testcases.Some?
    && c.description.None?
  }

  /** The configuration after the constructor: the path is recorded, absent
      limits and testcases get their defaults (present values, 0 included,
      are kept), the description is dropped and nothing else changes. The
      version is not checked. */
  function Normalized(raw: Config, path: string): (c: Config)
    ensures IsNormal(c) && c.filepath == Some(path)
    ensures raw.spaceLimit.Some? ==> c.spaceLimit == raw.spaceLimit
    ensures raw.spaceLimit.None? ==> c.spaceLimit == Some(DefaultSpaceLimit)
    ensures raw.timeLimit.Some? ==> c.timeLimit == raw.timeLimit
    ensures raw.timeLimit.None? ==> c.timeLimit == Some(DefaultTimeLimit)
    ensures raw.testcases.Some? ==> c.testcases == raw.testcases
    ensures raw.testcases.None? ==> c.testcases == Some([])
    ensures c.(filepath := raw.filepath, spaceLimit := raw.spaceLimit, timeLimit := raw.timeLimit,
               testcases := raw.testcases, description := raw.description) == raw
  {
    raw.(filepath := Some(path),
         spaceLimit := Some(raw.spaceLimit.GetOr(DefaultSpaceLimit)),
         timeLimit := Some(raw.timeLimit.GetOr(DefaultTimeLimit)),
         testcases := Some(raw.testcases.GetOr([])),
         description := None)
  }

  /** Normalising a normalised configuration again (same path) changes nothing. */
  lemma NormalizedIdempotent(raw: Config, path: string)
    ensures Normalized(Normalized(raw, path), path) == Normalized(raw, path)
  {
  }

  /** The command-line arguments given to the judger. */
  datatype JudgerRequest = JudgerRequest(
    exePath: string,
    inputPath: string,
    outputPath: string,
    errorPath: string,
    maxOutputSize: int,
    maxRealTime: int,
    maxMemory: int)

  /** The request for one case: stdout and stderr share the one temporary
      file, the time limit is passed in ms, the space limit converted from MB
      to bytes, and output is capped at 128 MiB. */
  function Request(exe: string, input: string, out: string, timeLimit: int, spaceLimit: int): (q: JudgerRequest)
    ensures q.exePath == exe && q.inputPath == input
    ensures q.outputPath == out && q.errorPath == out
    ensures q.maxOutputSize == 128 * BytesPerMegabyte
    ensures q.maxRealTime == timeLimit && q.maxMemory == spaceLimit * 1024 * 1024
  {
    JudgerRequest(exe, input, out, out, MaxOutputSize, timeLimit, spaceLimit * BytesPerMegabyte)
  }

  /** The logging calls of the case loop that may throw. */
  datatype LogEvent =
    | RunBegin             // "run tests begin", before the loop
    | RunCase(index: nat)  // "run test #i", inside the per-case try
    | CaseFailed(index: nat) // the error log of a non-accepted case, outside it
    | RunEnd               // "run tests end", after the loop

  /** The outside world as the core sees it. */
  datatype Env = Env(
    compile: (Option<string>, Option<string>) -> Option<string>, // (solution, compileArgs) -> executable, or failure
    run: JudgerRequest -> Option<JudgerResponse>,                 // judger response, or failure to run or parse
    readFile: string -> Option<string>,                          // file contents, or failure to read
    tempName: nat -> string,                                     // the fresh temporary name for case i
    logOk: LogEvent -> bool)                                     // false when that logging call throws

  // ---------------------------------------------------------------------
  // Specifications
  // ---------------------------------------------------------------------

  /** The request for case `t`, once both of its paths are present. */
  function CaseRequest(cfg: Config, exe: string, t: Testcase, ouf: string): JudgerRequest
    requires IsNormal(cfg) && t.input.Some?
  {
    Request(exe, t.input.value, ouf, cfg.timeLimit.value, cfg.spaceLimit.value)
  }

  /** What `testCase` returns (`Success`) or throws (`Failure`) for case `t`
      with output file `ouf`. */
  ghost function CaseVerdict(cfg: Config, exe: string, t: Testcase, ouf: string, env: Env): Result<TestReport, Fault>
    requires IsNormal(cfg)
  {
    if t.input.None? then Failure(InputPathMissing)
    else if t.answer.None? then Failure(AnswerPathMissing)
    else
      match env.run(CaseRequest(cfg, exe, t, ouf))
      case None => Success(TestReport(SystemError, None, None, Some(Thrown(JudgerFailed)), None))
      case Some(resp) =>
        var report := TestReport(resp.result, Some(resp.realTime), Some(resp.memory), Some(JudgerOutput(resp)), None);
        if resp.result != Accepted then Success(report)
        else
          match env.readFile(t.answer.value)
          case None => Failure(FileUnreadable(t.answer.value))
          case Some(ansc) =>
            match env.readFile(ouf)
            case None => Failure(FileUnreadable(ouf))
            case Some(outc) =>
              match DiffOf(Trim(ansc), Trim(outc))
              case None => Success(report)
              case Some(d) => Success(report.(result := WrongAnswer, message := Some(DiffText(d))))
  }

  /** The case's paths are present, the judger ran it and said ACCEPTED, both
      files could be read and they agree once trimmed. */
  ghost predicate Passes(cfg: Config, exe: string, t: Testcase, ouf: string, env: Env)
    requires IsNormal(cfg)
  {
    && t.input.Some? && t.answer.Some?
    && var resp := env.run(CaseRequest(cfg, exe, t, ouf));
    && resp.Some? && resp.value.result == Accepted
    && env.readFile(t.answer.value).Some? && env.readFile(ouf).Some?
    && Trim(env.readFile(t.answer.value).value) == Trim(env.readFile(ouf).value)
  }

  /** A case is accepted exactly when it passes: a divergence always turns
      the judger's ACCEPTED into WRONG_ANSWER. */
  lemma CaseAcceptedIff(cfg: Config, exe: string, t: Testcase, ouf: string, env: Env)
    requires IsNormal(cfg)
    ensures (CaseVerdict(cfg, exe, t, ouf, env).Success? && CaseVerdict(cfg, exe, t, ouf, env).value.result == Accepted)
            <==> Passes(cfg, exe, t, ouf, env)
  {
    if t.input.Some? && t.answer.Some? {
      var resp := env.run(CaseRequest(cfg, exe, t, ouf));
      if resp.Some? && resp.value.result == Accepted {
        var ansc, outc := env.readFile(t.answer.value), env.readFile(ouf);
        if ansc.Some? && outc.Some? {
          DiffNoneIffEqual(Trim(ansc.value), Trim(outc.value));
        }
      }
    }
  }

  /** How the judger's answer becomes the case report: a failed judger gives
      SYSTEM_ERROR without usage; the case throws only when the judger said
      ACCEPTED and the answer or output file cannot be read; otherwise usage is the judger's real time
      and memory, any result other than ACCEPTED is passed through with the
      response as message, and ACCEPTED either stays or becomes WRONG_ANSWER
      with the divergence of the trimmed answer against the trimmed output
      as message. */
  lemma CaseOutcome(cfg: Config, exe: string, t: Testcase, ouf: string, env: Env)
    requires IsNormal(cfg) && t.input.Some? && t.answer.Some?
    ensures var v := CaseVerdict(cfg, exe, t, ouf, env);
            match env.run(CaseRequest(cfg, exe, t, ouf))
            case None =>
              v == Success(TestReport(SystemError, None, None, Some(Thrown(JudgerFailed)), None))
            case Some(resp) =>
              && (v.Failure? <==>
                    resp.result == Accepted
                    && (env.readFile(t.answer.value).None? || env.readFile(ouf).None?))
              && (resp.result != Accepted ==>
                    v == Success(TestReport(resp.result, Some(resp.realTime), Some(resp.memory),
                                            Some(JudgerOutput(resp)), None)))
              && (v.Success? ==>
                    && v.value.usedTime == Some(resp.realTime)
                    && v.value.usedSpace == Some(resp.memory)
                    && v.value.children.None?)
              && (v.Success? && resp.result == Accepted && v.value.result != Accepted ==>
                    && v.value.result == WrongAnswer
                    && var ansc, outc := env.readFile(t.answer.value).value, env.readFile(ouf).value;
                    && DiffOf(Trim(ansc), Trim(outc)).Some?
                    && v.value.message == Some(DiffText(DiffOf(Trim(ansc), Trim(outc)).value)))
  {
  }

  /** The report that the case loop records for case `i`: the case's own
      report, or SYSTEM_ERROR with zero usage when the case threw. */
  ghost function CaseReport(cfg: Config, exe: string, i: nat, env: Env): TestReport
    requires IsNormal(cfg) && i < |cfg.testcases.value|
  {
    var thrown := (f: Fault) => TestReport(SystemError, Some(0), Some(0), Some(Thrown(f)), None);
    if !env.logOk(RunCase(i)) then thrown(LogFailed)
    else
      match CaseVerdict(cfg, exe, cfg.testcases.value[i], env.tempName(i), env)
      case Success(r) => r
      case Failure(f) => thrown(f)
  }

  /** What `testAllCases` returns: one report per case in plan order, or
      `None` when a logging call outside the per-case boundary threw. */
  ghost function AllCases(cfg: Config, exe: string, env: Env): Option<seq<TestReport>>
    requires IsNormal(cfg)
  {
    var cases := cfg.testcases.value;
    if !env.logOk(RunBegin) then None
    else if |cases| == 0 then Some([])
    else
      var reports := seq(|cases|, i requires 0 <= i < |cases| => CaseReport(cfg, exe, i, env));
      if || (exists i :: 0 <= i < |cases| && reports[i].result != Accepted && !env.logOk(CaseFailed(i)))
         || !env.logOk(RunEnd)
      then None
      else Some(reports)
  }

  /** A case that throws, in its log call or in `testCase`, is recorded as
      SYSTEM_ERROR with zero time and space and the thrown fault as message. */
  lemma ThrowingCaseIsSystemError(cfg: Config, exe: string, i: nat, env: Env)
    requires IsNormal(cfg) && i < |cfg.testcases.value|
    ensures !env.logOk(RunCase(i)) ==>
              CaseReport(cfg, exe, i, env) == TestReport(SystemError, Some(0), Some(0), Some(Thrown(LogFailed)), None)
    ensures var v := CaseVerdict(cfg, exe, cfg.testcases.value[i], env.tempName(i), env);
            env.logOk(RunCase(i)) && v.Failure? ==>
              CaseReport(cfg, exe, i, env) == TestReport(SystemError, Some(0), Some(0), Some(Thrown(v.error)), None)
  {
  }

  /** The loop yields exactly one report per case, in plan order, and when no
      logging call throws it always completes, whatever the cases do. */
  lemma AllCasesOnePerCase(cfg: Config, exe: string, env: Env)
    requires IsNormal(cfg)
    ensures AllCases(cfg, exe, env).Some? ==>
              && |AllCases(cfg, exe, env).value| == |cfg.testcases.value|
              && forall i :: 0 <= i < |cfg.testcases.value| ==>
                   AllCases(cfg, exe, env).value[i] == CaseReport(cfg, exe, i, env)
    ensures (forall e :: env.logOk(e)) ==> AllCases(cfg, exe, env).Some?
  {
  }

  /** The report `test()` returns. */
  ghost function Judge(cfg: Config, env: Env): TestReport
    requires IsNormal(cfg)
  {
    match env.compile(cfg.solution, cfg.compileArgs)
    case None => Bare(CompilationError)
    case Some(exe) =>
      match AllCases(cfg, exe, env)
      case None => Bare(SystemError)
      case Some(reports) => Summary(reports)
  }

  /** A compilation failure gives exactly `{result: COMPILATION_ERROR}`, and
      whatever the judger and the files would do has no influence on it: no
      case is run. */
  lemma JudgeCompileFailure(cfg: Config, env: Env, other: Env)
    requires IsNormal(cfg)
    requires env.compile(cfg.solution, cfg.compileArgs).None?
    requires other.compile == env.compile
    ensures Judge(cfg, env) == Bare(CompilationError)
    ensures Judge(cfg, other) == Judge(cfg, env)
  {
  }

  /** Children are present only when the run got past compilation and the
      loop; then there is one per case, in plan order, each the case's own
      report untouched. */
  lemma JudgeChildren(cfg: Config, env: Env)
    requires IsNormal(cfg)
    ensures var r := Judge(cfg, env);
            r.children.None? <==> r.result == CompilationError || r.result == SystemError
    ensures var r := Judge(cfg, env);
            r.children.Some? ==>
              && env.compile(cfg.solution, cfg.compileArgs).Some?
              && |r.children.value| == |cfg.testcases.value|
              && forall i :: 0 <= i < |cfg.testcases.value| ==>
                   r.children.value[i] == CaseReport(cfg, env.compile(cfg.solution, cfg.compileArgs).value, i, env)
  {
    var r := Judge(cfg, env);
    match env.compile(cfg.solution, cfg.compileArgs)
    case None =>
    case Some(exe) =>
      AllCasesOnePerCase(cfg, exe, env);
  }

  /** The run is ACCEPTED exactly when it compiled, the loop completed and
      every case was accepted (vacuously so with no cases); the totals are
      the sum of the cases' times and the largest of 0 and their spaces. */
  lemma JudgeAcceptedIff(cfg: Config, env: Env)
    requires IsNormal(cfg)
    ensures var r := Judge(cfg, env);
            r.result == Accepted <==>
              && env.compile(cfg.solution, cfg.compileArgs).Some?
              && var all := AllCases(cfg, env.compile(cfg.solution, cfg.compileArgs).value, env);
              && all.Some? && AllAccepted(all.value)
    ensures var r := Judge(cfg, env);
            r.children.Some? ==>
              r.usedTime == Some(TotalTime(r.children.value)) && r.usedSpace == Some(PeakSpace(r.children.value))
    ensures var exe := env.compile(cfg.solution, cfg.compileArgs);
            exe.Some? && cfg.testcases.value == [] && env.logOk(RunBegin) ==>
              Judge(cfg, env) == TestReport(Accepted, Some(0), Some(0), None, Some([]))
  {
  }

  // ---------------------------------------------------------------------
  // The class
  // ---------------------------------------------------------------------

  class Test {
    var config: Config
    var executable: Option<string>

    ghost predicate Valid()
      reads this
    {
      IsNormal(config)
    }

    /** Takes the parsed document `raw` read from `configPath` and fills in
        its defaults in place. */
    constructor (raw: Config, configPath: string)
      ensures Valid()
      ensures config == Normalized(raw, configPath)
      ensures executable == None
    {
      var cfg := raw;
      cfg := cfg.(filepath := Some(configPath));
      if cfg.spaceLimit.None? {
        cfg := cfg.(spaceLimit := Some(DefaultSpaceLimit));
      }
      if cfg.timeLimit.None? {
        cfg := cfg.(timeLimit := Some(DefaultTimeLimit));
      }
      if cfg.testcases.None? {
        cfg := cfg.(testcases := Some([]));
      }
      cfg := cfg.(description := None);
      config := cfg;
      executable := None;
    }

    /** Compiles, runs every case and rolls the reports up; a compilation
        failure or a failure of the case loop ends the run at once. */
    method Test(env: Env) returns (report: TestReport)
      requires Valid()
      modifies this`executable
      ensures Valid() && config == old(config)
      ensures report == Judge(config, env)
      ensures var exe := env.compile(config.solution, config.compileArgs);
              executable == if exe.Some? then exe else old(executable)
    {
      var compiled := env.compile(config.solution, config.compileArgs);
      if compiled.None? {
        return Bare(CompilationError);
      }
      executable := compiled;
      var reports := TestAllCases(env);
      if reports.None? {
        return Bare(SystemError);
      }
      report := Summarize(reports.value);
    }

    /** Runs the cases in order; a case that throws becomes SYSTEM_ERROR and
        the loop goes on. */
    method TestAllCases(env: Env) returns (reports: Option<seq<TestReport>>)
      requires Valid() && executable.Some?
      ensures reports == AllCases(config, executable.value, env)
    {
      if !env.logOk(RunBegin) {
        return None;
      }
      var cases := config.testcases.value;
      if |cases| == 0 {
        return Some([]);
      }
      var done: seq<TestReport> := [];
      for i := 0 to |cases|
        invariant |done| == i
        invariant forall k :: 0 <= k < i ==> done[k] == CaseReport(config, executable.value, k, env)
        invariant forall k :: 0 <= k < i ==> done[k].result == Accepted || env.logOk(CaseFailed(k))
      {
        var report: TestReport;
        if !env.logOk(RunCase(i)) {
          report := TestReport(SystemError, Some(0), Some(0), Some(Thrown(LogFailed)), None);
        } else {
          var outcome := TestCase(cases[i], env.tempName(i), env);
          match outcome
          case Success(r) =>
            report := r;
          case Failure(f) =>
            report := TestReport(SystemError, Some(0), Some(0), Some(Thrown(f)), None);
        }
        if report.result != Accepted && !env.logOk(CaseFailed(i)) {
          return None;
        }
        done := done + [report];
      }
      if !env.logOk(RunEnd) {
        return None;
      }
      ghost var cfg, exe := config, executable.value;
      assert done == seq(|cases|, k requires 0 <= k < |cases| => CaseReport(cfg, exe, k, env));
      return Some(done);
    }

    /** Runs one case through the judger with output file `ouf` (the fresh
        temporary name) and checks an ACCEPTED run's output against the
        answer. */
    method TestCase(t: Testcase, ouf: string, env: Env) returns (outcome: Result<TestReport, Fault>)
      requires Valid() && executable.Some?
      ensures outcome == CaseVerdict(config, executable.value, t, ouf, env)
    {
      if t.input.None? {
        return Failure(InputPathMissing);
      }
      if t.answer.None? {
        return Failure(AnswerPathMissing);
      }
      var inf, anf := t.input.value, t.answer.value;
      var request := Request(executable.value, inf, ouf, config.timeLimit.value, config.spaceLimit.value);
      var response := env.run(request);
      if response.None? {
        return Success(TestReport(SystemError, None, None, Some(Thrown(JudgerFailed)), None));
      }
      var resp := response.value;
      var report := TestReport(resp.result, Some(resp.realTime), Some(resp.memory), Some(JudgerOutput(resp)), None);
      if report.result == Accepted {
        var ansc := env.readFile(anf);
        if ansc.None? {
          return Failure(FileUnreadable(anf));
        }
        var outc := env.readFile(ouf);
        if outc.None? {
          return Failure(FileUnreadable(ouf));
        }
        var diff := Diff(ansc.value, outc.value);
        if diff.Some? {
          report := report.(result := WrongAnswer, message := Some(DiffText(diff.value)));
        }
      }
      return Success(report);
    }
  }
}
