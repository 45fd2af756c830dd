/**
 * The vocabulary shared by the benchmark manager and its runners: the
 * constants of the evaluator's definitions module, the process signals, the
 * commands a runner receives on its pipe, the result records it builds, and
 * the tagged messages it puts on the shared result queue.
 */
module BenchmarkProtocol {
  import opened Wrappers
  import opened JsonValues
  import opened Text

  const MAX_NUM_ATTEMPTS: int := 10
  const SOLVE_CASE_SOFT_TIMEOUT: real := 5.0
  const SOLVE_CASE_HARD_TIMEOUT: real := 10.0

  datatype ManagerStatus = Idle | Running

  /** CaseStatuses: RUNNING = 0, OK = 1, ERROR = -1. */
  datatype CaseStatus = CaseRunning | CaseOk | CaseError {
    function Value(): (v: int)
      ensures -1 <= v <= 1
    {
      match this
      case CaseRunning => 0
      case CaseOk => 1
      case CaseError => -1
    }
  }

  /** ProcessSignal: HEALTH_CHECK = 1, SOLVE_CASE = 2, SENTINEL = 3, TERMINATE = -1. */
  datatype Signal = HealthCheckSignal | SolveCaseSignal | SentinelSignal | TerminateSignal {
    function Value(): int {
      match this
      case HealthCheckSignal => 1
      case SolveCaseSignal => 2
      case SentinelSignal => 3
      case TerminateSignal => -1
    }
  }

  /** What the manager sends down a runner's pipe: a signal and its parameters. */
  datatype Command =
    | HealthCheck(caseId: string)   // (HEALTH_CHECK, {"case_id": ...})
    | SolveCase(caseJson: Json)         // (SOLVE_CASE, {"case": ...})
    | SentinelCommand               // (SENTINEL, ...), which a runner refuses
    | Terminate                     // (TERMINATE, None)
  {
    function Signal(): Signal {
      match this
      case HealthCheck(_) => HealthCheckSignal
      case SolveCase(_) => SolveCaseSignal
      case SentinelCommand => SentinelSignal
      case Terminate => TerminateSignal
    }
  }

  /**
   * The log lines the runners and the manager write into result dicts and the
   * accumulated log, kept by kind; Render gives each one's text.
   */
  datatype LogLine =
    | HealthRetry(attempt: int, ai: string)
    | HealthRequestError(attempt: int, ai: string, text: string)
    | HealthMaxAttempts(ai: string)
    | HealthSuccess(ai: string, attempt: int)
    | SolveStart(ai: string)
    | SolveHardTimeout(ai: string)
    | SolveError(ai: string, text: string)
    | SolveSoftTimeout(ai: string)
    | SolveBadStatus(ai: string, code: int)
    | BenchmarkStart(benchmarkId: string)
    | HealthChecksStart(caseIndex: int)
    | HealthChecksPassed(caseIndex: int, ais: seq<string>)
    | HealthChecksAllFailed(caseIndex: int)
    | BenchmarkFinished(benchmarkId: string, caseSetId: string)

  function Render(line: LogLine): string {
    match line
    case HealthRetry(n, ai) => "Failed healthcheck #" + IntToString(n) + " for AI " + ai + ". Retrying..."
    case HealthRequestError(n, ai, text) => "Error on healthcheck #" + IntToString(n) + " for AI " + ai + ". Got " + text
    case HealthMaxAttempts(ai) =>
      "Error: could not get successful healthcheck response for " + ai + " after "
        + IntToString(MAX_NUM_ATTEMPTS) + " attempts."
    case HealthSuccess(ai, n) => "Successful health check for " + ai + " on attempt #" + IntToString(n)
    case SolveStart(ai) => "Starting call to solve-case endpoint of AI " + ai
    case SolveHardTimeout(ai) => "Hard timeout (10sec) solving case for " + ai
    case SolveError(ai, text) => "Error solving case for " + ai + ". Got " + text
    case SolveSoftTimeout(ai) => "Soft timeout (5sec) solving case for " + ai
    case SolveBadStatus(ai, code) =>
      "AI " + ai + " responded with unexpected HTTP status " + IntToString(code)
        + " and data=<Response [" + IntToString(code) + "]>"
    case BenchmarkStart(id) => "Starting run of benchmark with id " + id
    case HealthChecksStart(i) => "Starting health checks for case #" + IntToString(i) + "..."
    case HealthChecksPassed(i, ais) =>
      "The following AIs have passed the health check for case #" + IntToString(i) + ": " + Join(ais, ", ")
    case HealthChecksAllFailed(i) => "All AIs have failed the health check for case #" + IntToString(i)
    case BenchmarkFinished(id, caseSetId) =>
      "Finished running benchmark with id " + id + " and case set id " + caseSetId
  }

  /** The "report" part of a health-check result: the counters for the AI report row. */
  datatype HealthReport = HealthReport(
    healthChecks: int,
    healthcheckStatus: CaseStatus,
    errors: int,
    softTimeouts: int,
    hardTimeouts: int)

  /** The dict a runner builds in `is_healthy`. */
  datatype HealthResult = HealthResult(
    aiName: string,
    result: Json,
    healthy: bool,
    error: Option<string>,
    caseStatus: CaseStatus,
    softTimeout: bool,
    hardTimeout: bool,
    healthchecked: bool,
    report: HealthReport,
    log: seq<LogLine>)

  /** The dict a runner builds in `solve_case`. */
  datatype SolveResult = SolveResult(
    aiName: string,
    result: Json,
    error: Option<string>,
    caseStatus: CaseStatus,
    healthchecked: bool,
    softTimeout: bool,
    hardTimeout: bool,
    log: seq<LogLine>)

  /** The third element of a (signal, runner_id, payload) message. */
  datatype Payload =
    | NoPayload                   // None
    | HealthPayload(health: HealthResult)
    | SolvePayload(solve: SolveResult)
    | FinalPayload(aiName: string) // {"ai_name": ..., "results": {}}

  datatype Message = Message(signal: Signal, runnerId: int, payload: Payload)

  /** The payload a message carries is the one its signal calls for. */
  predicate Tagged(m: Message) {
    && (m.signal == HealthCheckSignal ==> m.payload.HealthPayload?)
    && (m.signal == SolveCaseSignal ==> m.payload.SolvePayload?)
  }
}
