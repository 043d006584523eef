/** From a raw execution to a verdict: the parser (pkg/executor/parser.go), the limits under which
    its input was captured (pkg/executor/process.go) and the worker's own check
    (pkg/queue/worker.go). */
module Verdict {
  import opened Wrappers
  import opened Jobs
  import opened Capture
  import opened Compare

  datatype RawExecution = RawExecution(
    stdout: string,
    stderr: string,
    exitCode: int,
    timedOut: bool,
    wallTime: real,
    cpuTime: real,
    memoryKb: int)

  datatype ExecutionResult = ExecutionResult(
    status: int,
    stdout: Option<string>,
    stderr: Option<string>,
    compileOutput: Option<string>,
    message: Option<string>,
    time: Option<real>,
    wallTime: Option<real>,
    memory: Option<int>,
    exitCode: Option<int>,
    exitSignal: Option<int>)

  function NonEmpty(s: string): Option<string> {
    if s == "" then None else Some(s)
  }

  /** What is shown and compared as standard output. */
  function ShownStdout(raw: RawExecution, request: Request): string {
    var stdout, stderr := Truncate(raw.stdout), Truncate(raw.stderr);
    if !request.redirectStderrToStdout || stderr == "" then stdout
    else if stdout == "" then stderr
    else stdout + "\n" + stderr
  }

  function ShownStderr(raw: RawExecution, request: Request): string {
    if request.redirectStderrToStdout then "" else Truncate(raw.stderr)
  }

  /** The shown output is what the caller expects, or nothing is expected. */
  predicate AsExpected(shown: string, request: Request) {
    request.expectedOutput == "" || SameOutput(shown, request.expectedOutput)
  }

  /** The signal a non-zero exit code stands for, and the status it is given. */
  function CrashOf(exitCode: int): (int, Option<int>) {
    if exitCode == 137 || exitCode == 9 then (TIME_LIMIT_EXCEEDED, Some(9))
    else if exitCode == 139 || exitCode == 11 then (RUNTIME_ERROR_SIGSEGV, Some(11))
    else if exitCode == 136 || exitCode == 8 then (RUNTIME_ERROR_SIGFPE, Some(8))
    else if exitCode == 134 || exitCode == 6 then (RUNTIME_ERROR_SIGABRT, Some(6))
    else if exitCode == 153 || exitCode == 25 then (RUNTIME_ERROR_SIGXFSZ, Some(25))
    else (RUNTIME_ERROR_NZEC, if exitCode > 128 then Some(exitCode - 128) else None)
  }

  /** The parsed result as a function of its inputs. */
  function Parsed(raw: RawExecution, request: Request): ExecutionResult {
    var shown := ShownStdout(raw, request);
    var (status, exitSignal) :=
      if raw.timedOut then (TIME_LIMIT_EXCEEDED, None)
      else if raw.exitCode == 0 then (if AsExpected(shown, request) then ACCEPTED else WRONG_ANSWER, None)
      else CrashOf(raw.exitCode);
    ExecutionResult(
      status, NonEmpty(shown), NonEmpty(ShownStderr(raw, request)), None, None,
      Some(raw.cpuTime), Some(raw.wallTime), Some(raw.memoryKb), Some(raw.exitCode), exitSignal)
  }

  /** Both outputs are shown, truncated; if they are redirected, one after the other as standard
      output. An exit with zero in time is judged by the lines of what is shown. */
  ghost predicate ShowsOutput(raw: RawExecution, sub: Request, r: ExecutionResult) {
    var out, err := Truncate(raw.stdout), Truncate(raw.stderr);
    var shown := if r.stdout.Some? then r.stdout.value else "";
    && (r.stdout.Some? ==> shown != "")
    && (if sub.redirectStderrToStdout then r.stderr == None && shown == Both(out, err)
        else r.stderr == NonEmpty(err) && shown == out)
    && (!raw.timedOut && raw.exitCode == 0 ==>
          r.status ==
          if sub.expectedOutput == "" || Content(shown) == Content(sub.expectedOutput) then ACCEPTED else WRONG_ANSWER)
  }

  function Both(out: string, err: string): (r: string)
    ensures out <= r && |err| <= |r| && r[|r| - |err|..] == err
    ensures |r| == |out| + |err| + if out != "" && err != "" then 1 else 0
    ensures out != "" && err != "" ==> r[|out|] == '\n'
  {
    out + (if out != "" && err != "" then "\n" else "") + err
  }

  /** A timeout has no signal. Otherwise the signal is the exit code, less 128 if it is above that,
      and the status of what did not exit with zero goes by the signal. */
  predicate ExplainsExit(raw: RawExecution, r: ExecutionResult) {
    if raw.timedOut then r.status == TIME_LIMIT_EXCEEDED && r.exitSignal == None
    else
      && (raw.exitCode > 128 ==> r.exitSignal == Some(raw.exitCode - 128))
      && (raw.exitCode <= 128 ==>
            r.exitSignal == if raw.exitCode in {6, 8, 9, 11, 25} then Some(raw.exitCode) else None)
      && (raw.exitCode != 0 ==>
            && (r.exitSignal == Some(9) <==> r.status == TIME_LIMIT_EXCEEDED)
            && (r.exitSignal == Some(11) <==> r.status == RUNTIME_ERROR_SIGSEGV)
            && (r.exitSignal == Some(8) <==> r.status == RUNTIME_ERROR_SIGFPE)
            && (r.exitSignal == Some(6) <==> r.status == RUNTIME_ERROR_SIGABRT)
            && (r.exitSignal == Some(25) <==> r.status == RUNTIME_ERROR_SIGXFSZ)
            && (r.exitSignal !in {Some(6), Some(8), Some(9), Some(11), Some(25)} <==> r.status == RUNTIME_ERROR_NZEC))
  }

  predicate Measures(raw: RawExecution, r: ExecutionResult) {
    && r.time == Some(raw.cpuTime) && r.wallTime == Some(raw.wallTime) && r.memory == Some(raw.memoryKb)
    && r.exitCode == Some(raw.exitCode) && r.compileOutput == None && r.message == None
  }

  lemma ParsedShows(raw: RawExecution, sub: Request)
    ensures ShowsOutput(raw, sub, Parsed(raw, sub))
  {
    hide Truncate, SameOutput, Content, CrashOf;
    var shown := ShownStdout(raw, sub);
    SameOutputMeansSameLines(shown, sub.expectedOutput);
    assert (if NonEmpty(shown).Some? then NonEmpty(shown).value else "") == shown;
    var out, err := Truncate(raw.stdout), Truncate(raw.stderr);
    assert out + "" + err == out + err && out + [] == out && "" + err == err;
  }

  lemma ParsedExplains(raw: RawExecution, sub: Request)
    ensures ExplainsExit(raw, Parsed(raw, sub)) && Measures(raw, Parsed(raw, sub))
  {
    hide ShownStdout, ShownStderr, SameOutput;
  }

  /** `ResultParser.Parse` */
  method Parse(raw: RawExecution, sub: Request) returns (r: ExecutionResult)
    ensures r == Parsed(raw, sub)
    ensures r.status == ACCEPTED <==>
      !raw.timedOut && raw.exitCode == 0 && AsExpected(ShownStdout(raw, sub), sub)
    ensures Finished(Job("", sub, r.status, NO_OUTPUT))
    ensures ShowsOutput(raw, sub, r) && ExplainsExit(raw, r) && Measures(raw, r)
  {
    var stdout := Truncate(raw.stdout);
    var stderr := Truncate(raw.stderr);
    if sub.redirectStderrToStdout {
      if stderr != "" {
        if stdout != "" {
          stdout := stdout + "\n" + stderr;
        } else {
          stdout := stderr;
        }
        stderr := "";
      }
    }

    var status: int;
    var exitSignal: Option<int> := None;
    if raw.timedOut {
      status := TIME_LIMIT_EXCEEDED;
    } else if raw.exitCode == 0 {
      var matches := true;
      if sub.expectedOutput != "" {
        matches := CompareOutput(stdout, sub.expectedOutput);
      }
      if matches {
        status := ACCEPTED;
      } else {
        status := WRONG_ANSWER;
      }
    } else {
      match raw.exitCode {
        case 137 => status := TIME_LIMIT_EXCEEDED; exitSignal := Some(9);
        case 9 => status := TIME_LIMIT_EXCEEDED; exitSignal := Some(9);
        case 139 => status := RUNTIME_ERROR_SIGSEGV; exitSignal := Some(11);
        case 11 => status := RUNTIME_ERROR_SIGSEGV; exitSignal := Some(11);
        case 136 => status := RUNTIME_ERROR_SIGFPE; exitSignal := Some(8);
        case 8 => status := RUNTIME_ERROR_SIGFPE; exitSignal := Some(8);
        case 134 => status := RUNTIME_ERROR_SIGABRT; exitSignal := Some(6);
        case 6 => status := RUNTIME_ERROR_SIGABRT; exitSignal := Some(6);
        case 153 => status := RUNTIME_ERROR_SIGXFSZ; exitSignal := Some(25);
        case 25 => status := RUNTIME_ERROR_SIGXFSZ; exitSignal := Some(25);
        case _ =>
          status := RUNTIME_ERROR_NZEC;
          if raw.exitCode > 128 { exitSignal := Some(raw.exitCode - 128); }
      }
    }

    var pStdout := if stdout != "" then Some(stdout) else None;
    var pStderr := if stderr != "" then Some(stderr) else None;
    r := ExecutionResult(
      status, pStdout, pStderr, None, None,
      Some(raw.cpuTime), Some(raw.wallTime), Some(raw.memoryKb), Some(raw.exitCode), exitSignal);
    ParsedShows(raw, sub);
    ParsedExplains(raw, sub);
  }

  /** How an execution can end for a worker. */
  datatype Outcome =
    | Rejected(reason: string)                                   // by the code scanner
    | Broken(error: string)                                      // the executor returned an error
    | Uncompilable(compileOutput: string, exit: Option<int>)     // Compilation Error result
    | Ran(raw: RawExecution)                                     // the parser's result

  function ResultOf(outcome: Outcome, request: Request): ExecutionResult
    requires outcome.Uncompilable? || outcome.Ran?
  {
    if outcome.Ran? then Parsed(outcome.raw, request)
    else ExecutionResult(
      COMPILATION_ERROR, None, None, Some(outcome.compileOutput), None, None, None, None, outcome.exit, None)
  }

  /** The worker's second check of the expected output. */
  function SecondCheck(result: ExecutionResult, request: Request): int {
    var actual := if result.stdout.Some? then result.stdout.value else "";
    if request.expectedOutput != "" && result.status == ACCEPTED && !SameOutput(actual, request.expectedOutput)
    then WRONG_ANSWER
    else result.status
  }

  /** The job as its worker leaves it, `now` being the time of the write. */
  function FinishedJob(job: Job, outcome: Outcome, now: int): Job {
    match outcome
    case Rejected(reason) =>
      job.(status := COMPILATION_ERROR,
           output := job.output.(compileOutput := Some("Rejected: " + reason), finishedAt := Some(Format(now))))
    case Broken(error) =>
      job.(status := INTERNAL_ERROR,
           output := job.output.(message := Some(error), finishedAt := Some(Format(now))))
    case _ =>
      var r := ResultOf(outcome, job.request);
      job.(status := SecondCheck(r, job.request),
           output := Output(Some(Format(now)), r.stdout, r.stderr, r.compileOutput, r.message, r.time, r.wallTime,
                            r.memory, r.exitCode, r.exitSignal))
  }

  /** The second check never changes what the parser decided, whatever was run. */
  lemma SecondCheckIsRedundant(outcome: Outcome, request: Request)
    requires outcome.Uncompilable? || outcome.Ran?
    ensures SecondCheck(ResultOf(outcome, request), request) == ResultOf(outcome, request).status
  {
    hide ShownStdout, ShownStderr, SameOutput;
    if outcome.Ran? {
      var shown := ShownStdout(outcome.raw, request);
      assert (if NonEmpty(shown).Some? then NonEmpty(shown).value else "") == shown;
    }
  }

  /** Accepted means: it ran, in time, exited with zero, and showed what was expected. */
  lemma AcceptedExactly(job: Job, outcome: Outcome, now: int)
    ensures FinishedJob(job, outcome, now).status == ACCEPTED <==>
      && outcome.Ran? && !outcome.raw.timedOut && outcome.raw.exitCode == 0
      && AsExpected(ShownStdout(outcome.raw, job.request), job.request)
  {
    if outcome.Uncompilable? || outcome.Ran? { SecondCheckIsRedundant(outcome, job.request); }
  }

  /** What the program printed, all of it, as the buffers hand it to the parser. */
  function Captured(complete: RawExecution, limit: int): RawExecution {
    complete.(stdout := Prefix(complete.stdout, limit), stderr := Prefix(complete.stderr, limit))
  }

  /** The bound on the buffers is invisible: every result is the one an unbounded capture of the
      complete output would give. */
  lemma BoundIsInvisible(complete: RawExecution, request: Request)
    ensures Parsed(Captured(complete, 2 * MAX_OUTPUT_LENGTH), request) == Parsed(complete, request)
  {
    CaptureShows(complete.stdout, 2 * MAX_OUTPUT_LENGTH);
    CaptureShows(complete.stderr, 2 * MAX_OUTPUT_LENGTH);
  }

  /** Whatever an execution ends with, the worker's one write turns the job into a finished one. */
  lemma WorkerFinishes(job: Job, outcome: Outcome, now: int)
    ensures FinalFor(job, FinishedJob(job, outcome, now))
  {
    if outcome.Uncompilable? || outcome.Ran? { SecondCheckIsRedundant(outcome, job.request); }
  }
}
