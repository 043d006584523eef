/** The value of a `SubmissionJob` (pkg/queue/queue.go) and the status numbers it carries
    (pkg/languages/statuses.go). */
module Jobs {
  import opened Wrappers

  const IN_QUEUE := 1
  const PROCESSING := 2
  const ACCEPTED := 3
  const WRONG_ANSWER := 4
  const TIME_LIMIT_EXCEEDED := 5
  const COMPILATION_ERROR := 6
  const RUNTIME_ERROR_SIGSEGV := 7
  const RUNTIME_ERROR_SIGXFSZ := 8
  const RUNTIME_ERROR_SIGFPE := 9
  const RUNTIME_ERROR_SIGABRT := 10
  const RUNTIME_ERROR_NZEC := 11
  const INTERNAL_ERROR := 13

  const NANOS_PER_SECOND := 1_000_000_000

  /** A recorded time. `Format` writes whole seconds, so everything below a second is lost. */
  datatype Stamp = At(seconds: int) | Unparsable

  function Format(now: int): (r: Stamp) {
    At(now / NANOS_PER_SECOND)
  }

  /** What a caller asked for; it never changes once the job is built. */
  datatype Request = Request(
    sourceCode: string,
    languageId: int,
    stdin: string,
    expectedOutput: string,
    redirectStderrToStdout: bool)

  /** What a worker writes besides the status. */
  datatype Output = Output(
    finishedAt: Option<Stamp>,
    stdout: Option<string>,
    stderr: Option<string>,
    compileOutput: Option<string>,
    message: Option<string>,
    time: Option<real>,
    wallTime: Option<real>,
    memory: Option<int>,
    exitCode: Option<int>,
    exitSignal: Option<int>)

  const NO_OUTPUT := Output(None, None, None, None, None, None, None, None, None, None)

  datatype Job = Job(token: string, request: Request, status: int, output: Output)

  predicate Finished(job: Job) {
    job.status > PROCESSING
  }

  /** How far a status has come: queued, processing, final. */
  function Rank(job: Job): nat {
    if job.status <= IN_QUEUE then 0 else if job.status == PROCESSING then 1 else 2
  }

  /** The one way in which a worker may turn `before` into a finished job. */
  predicate FinalFor(before: Job, after: Job) {
    && after.token == before.token
    && after.request == before.request
    && Finished(after)
    && after.output.finishedAt.Some?
  }

  /** A finished job whose recorded time is more than `ttl` ago. */
  predicate Expired(job: Job, now: int, ttl: int) {
    && Finished(job)
    && job.output.finishedAt.Some? && job.output.finishedAt.value.At?
    && now - job.output.finishedAt.value.seconds * NANOS_PER_SECOND > ttl
  }
}
