# EtherTester judging core in Dafny

EtherTester is a GitHub Action that judges a C++ solution against a problem's
test cases. This project models the judging core, the `Test` class of
`test.ts`:

- **Configuration defaults.** The constructor takes the parsed problem
  document, records its path, fills in `spaceLimit` (128 MB), `timeLimit`
  (2048 ms) and `testcases` (`[]`) where they are absent or null, and drops
  `description` (`Tester.Normalized`, `Tester.Test.constructor`).
- **Text diff.** `diff` trims both texts and walks them in lockstep,
  counting line and column. It reports the first mismatching character or
  which text ended first (`TextDiff.Diff`, specified by `TextDiff.DiffOf`).
- **One case.** `testCase` builds the judger request from the limits and
  turns the judger's response into a report. An ACCEPTED run whose output
  differs from the answer becomes WRONG_ANSWER (`Tester.Test.TestCase`,
  specified by `Tester.CaseVerdict`).
- **The case loop.** `testAllCases` makes one report per case, in order. A
  case that throws becomes SYSTEM_ERROR with zero usage, and the loop goes on
  (`Tester.Test.TestAllCases`, specified by `Tester.AllCases`).
- **The top level.** `test` stops at once on a compilation failure or a
  failure of the case loop. Otherwise it rolls the cases up into ACCEPTED or
  UNACCEPTED, with the total time and the largest space
  (`Tester.Test.Test`, `Verdict.Summarize`, specified by `Tester.Judge`).

Every effect is a field of `Tester.Env`:

- `compile`: the compiler, giving an executable or a failure.
- `run`: the judger, giving its response, or a failure to run it or to parse
  its output.
- `readFile`: file contents, or a read failure.
- `tempName`: the fresh temporary name for case i.
- `logOk`: whether a logging call of the case loop throws.

A thrown exception is modelled as `Failure` of `Wrappers.Result`.

Behaviour kept as the code has it:

- `testCase` calls `diff(answer, output)`, so diff's first argument is the
  answer. In a mismatch, "Expected" names the output's character and
  "found" the answer's, and line:column are counted over the answer.
  "Unexpected EOF while reading answer." means the output ended first, and
  "...reading output." means the answer ended first. `Divergence.Mismatch`
  holds `expected` (second argument) and `found` (first argument) in that
  order.
- The configuration's `version` is not checked. A document of any version
  is normalised the same way (`Tester.Normalized` keeps `version` unchanged).
  `problem.d.ts` declares `CONFIG_VERSION = 1000` and says the version grows
  by 1000 on a breaking change (problem.d.ts:2, :13), but `test.ts` never
  reads either.
- A case whose `input` or `answer` path is missing makes `path.resolve`
  throw. An unreadable answer or output file makes `fs.readFile` throw. Both
  leave `testCase` and become SYSTEM_ERROR with zero time and space in the
  loop.
- A throw from the per-case log call ("run test #i") is inside the per-case
  `try`, so it gives a SYSTEM_ERROR case. A throw from the loop's other
  logging calls escapes the loop and gives a top-level SYSTEM_ERROR with no
  children.

## Model

| member | source | states |
|---|---|---|
| `Verdict.Code` | test.ts:35-47 | each result's numeric code lies in -2..6, and the codes at most 0 are exactly the fail-fast results |
| `Verdict.FromCode` | test.ts:35-47 | the reverse mapping from a number to the enum member is defined exactly on -2..6 |
| `Verdict.CodeRoundTrip` | test.ts:35-47 | number and member mappings are inverse, so each code names one result |
| `Verdict.Summarize` | test.ts:96-116 | the roll-up is ACCEPTED iff every child is ACCEPTED (so also with no children), else UNACCEPTED; time is the sum of the children's times, space the largest of 0 and their spaces (missing values count as 0); children are the reports unchanged |
| `Verdict.PeakSpaceIsMax` | test.ts:97-103 | the rolled-up space is at least 0, at least every child's space, and equals one of them unless it is 0 |
| `Verdict.TotalTimeAppend` | test.ts:96-102 | the rolled-up time of consecutive groups of reports is the sum of the groups' times |
| `TextDiff.TrimStart` | test.ts:215 | drops exactly the leading whitespace: a suffix starting with a non-whitespace character, all dropped characters whitespace |
| `TextDiff.TrimEnd` | test.ts:215 | drops exactly the trailing whitespace: a prefix ending with a non-whitespace character, all dropped characters whitespace |
| `TextDiff.Trim` | test.ts:215 | the trimmed text neither starts nor ends with whitespace |
| `TextDiff.TrimSplits` | test.ts:215 | trim cuts the text into a whitespace prefix, the result and a whitespace suffix |
| `TextDiff.TrimUnique` | test.ts:215 | whatever whitespace surrounds a text without outer whitespace, trim returns exactly that text |
| `TextDiff.TrimIdempotent` | test.ts:215 | trimming twice is trimming once |
| `TextDiff.TrimIgnoresSurroundingWhitespace` | test.ts:215 | adding whitespace (a trailing newline, say) around a text does not change its trim |
| `TextDiff.LineStart` | test.ts:216-225 | the start of the current line: just after the last newline before the index, or 0 |
| `TextDiff.PositionStep` | test.ts:224-225 | passing a newline increments the line and resets the column to 1; any other character increments the column |
| `TextDiff.CommonPrefixLength` | test.ts:217-223 | the texts agree below it and differ at it when both continue |
| `TextDiff.CommonPrefixAt` | test.ts:217-223 | any index up to which the texts agree and beyond which they cannot is the common prefix length |
| `TextDiff.Diff` | test.ts:214-232 | the loop's result is the divergence of the two trimmed texts, and it is null exactly when the trimmed texts are equal |
| `TextDiff.DiffNoneIffEqual` | test.ts:217-231 | no divergence iff the two texts are equal |
| `TextDiff.DiffMismatchAt` | test.ts:221-225 | at the first differing index i inside both texts: Expected second[i], found first[i], at line 1 + newlines before i and column 1 + characters since the last newline |
| `TextDiff.DiffSecondEndsFirst` | test.ts:218-219 | when the second text is a proper prefix of the first: "Unexpected EOF while reading answer." |
| `TextDiff.DiffFirstEndsFirst` | test.ts:227-228 | when the first text is a proper prefix of the second: "Unexpected EOF while reading output." |
| `TextDiff.DiffIgnoresSurroundingWhitespace` | test.ts:215 | a text diffed against itself gives null, and whitespace around either text (a trailing newline in the output, say) never changes the outcome |
| `TextDiff.DiffExampleMismatch` | test.ts:214-232 | "ab\ncd" against "ab\nce" differs at 2:2, expected 'e', found 'd' |
| `TextDiff.DiffExampleEof` | test.ts:214-232 | "123" against "1234" ends first; "1234" against "123" ends second |
| `TextDiff.Decimal` | test.ts:222 | a line or column number renders as a non-empty string of decimal digits |
| `TextDiff.DecimalRoundTrip` | test.ts:222 | the rendered digits denote the number rendered |
| `TextDiff.Render` | test.ts:219-228 | every diff message is non-empty, so the caller's truthiness test on it is a test for a divergence |
| `Tester.Normalized` | test.ts:61-70 | path recorded; absent limits and testcases get 128, 2048 and `[]`; present values (0 included) kept; description dropped; no other field (version included) changes |
| `Tester.NormalizedIdempotent` | test.ts:65-69 | normalising again with the same path changes nothing |
| `Tester.Request` | test.ts:173-183 | judger request: the compiled executable, stdout and stderr to the same temporary file, output capped at 128 MiB, time limit in ms, space limit converted from MB to bytes |
| `Tester.CaseAcceptedIff` | test.ts:186-211 | a case is ACCEPTED iff both paths exist, the judger said ACCEPTED, both files are readable and they agree once trimmed |
| `Tester.CaseOutcome` | test.ts:186-211 | a failed judger gives SYSTEM_ERROR without usage; the case throws exactly when the judger said ACCEPTED and the answer or output file cannot be read; any other result is reported unchanged with the judger's real time and memory and the response as message; ACCEPTED stays, or becomes WRONG_ANSWER with the same usage and the diff of answer against output as message |
| `Tester.ThrowingCaseIsSystemError` | test.ts:146-157 | a case whose log call or `testCase` throws is recorded as SYSTEM_ERROR with time 0, space 0 and the fault as message |
| `Tester.AllCasesOnePerCase` | test.ts:137-164 | the loop yields one report per case, in plan order, each that case's own report, and always completes when no logging call throws |
| `Tester.JudgeCompileFailure` | test.ts:77-84 | a compilation failure gives exactly `{result: COMPILATION_ERROR}`, independent of the judger and the files (no case runs) |
| `Tester.JudgeChildren` | test.ts:86-116 | children are absent exactly for COMPILATION_ERROR and SYSTEM_ERROR; otherwise one per case, in plan order, each the case's report untouched |
| `Tester.JudgeAcceptedIff` | test.ts:96-116 | ACCEPTED iff compiled, the loop completed and every case was accepted; time and space are the roll-up of the children; no cases gives ACCEPTED with time 0, space 0 and no children |
| `Tester.Test.constructor` | test.ts:61-70 | the stored configuration is the normalised document, and no executable is set yet |
| `Tester.Test.TestCase` | test.ts:170-212 | returns or throws exactly what `CaseVerdict` says for the case and its temporary output file |
| `Tester.Test.TestAllCases` | test.ts:135-168 | returns exactly `AllCases` for the stored configuration and executable |
| `Tester.Test.Test` | test.ts:72-117 | returns `Judge` of the stored configuration; the configuration is unchanged, and the executable is set iff compilation succeeded |

## Left out

- YAML parsing and reading the configuration file are not modelled. The
  constructor gets the parsed document as a `Config` record. A document that
  is not a mapping makes the `Test` constructor throw, and that case is
  not modelled. Keys other than the ten `Config` fields (`id`, `target`,
  `config`) pass through untouched and are not represented.
- Compiling with `g++` (`compile()`) is `Env.compile`: an executable or a
  failure.
- Running the judger with `sudo` and parsing its JSON output are `Env.run`.
  A failure to run it and a failure to parse it are merged into `None`. The
  response's `result` is assumed to be one of the enum's codes, and its
  fields are assumed present.
- `path.resolve` is not modelled: paths are used as given.
- `tmp.tmpNameSync` is `Env.tempName`, assumed to give a fresh name per case.
- `fs.readFile` is `Env.readFile`.
- Logging in `test()` itself is assumed never to throw. This covers the
  parse banner, the configuration dump, the error lines in its catch blocks
  and the "N of M tests passed" summary. `console.log` is also assumed never
  to throw.
- ANSI colours, `core.group` and `shortPath` only label logs and are not
  modelled.
- The global `escape` is a parameter of `TextDiff.Render`. Reports carry the
  structured `Divergence`, and the message text is `Render` of it.
- JavaScript strings are UTF-16 code units, but Dafny characters are Unicode
  scalar values. A character outside the Basic Multilingual Plane therefore
  counts as one column here, not two.
- Numbers are unbounded integers, not IEEE doubles. Fractional limits,
  rounding in the time sum, and `NaN` from absent judger fields are not
  modelled.
- A `testcases` value that is not a list is not modelled.
- `Testcase.specialJudge` is carried but unused, as in the code.
- Promise sequencing is modelled as sequential execution.
- `index.ts` (file discovery, environment report, passed/total count) is not
  part of this model. `problem.d.ts` holds only types and an unused version
  constant.
