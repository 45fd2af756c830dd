/**
 * The benchmark manager: it sets up one runner per benchmarked AI, and for
 * every case of the case set runs a two-phase protocol over the runners'
 * pipes and the shared result queue: health-check every runner and wait for
 * one SENTINEL per runner, then send the case to the healthy runners only and
 * wait for one SENTINEL per healthy runner. Whatever happens, every runner is
 * sent TERMINATE at the end and the manager goes back to IDLE.
 *
 * The shared queue is the sequence of what successive polls give (a message,
 * or None for a poll that timed out empty; every poll past its end is empty),
 * and `if_timeout` is an oracle that answers "not yet" to its first
 * `deadline` calls and "timed out" from then on.
 */
module Manager {
  import opened Wrappers
  import opened Dicts
  import opened JsonValues
  import opened Text
  import opened BenchmarkProtocol
  import opened Reporter

  /** An entry of `accumulated_logs`. */
  datatype LogEntry =
    | Line(line: LogLine)
    | Lines(lines: seq<LogLine>)   // a whole list of lines, which one loop of the source appends

  /** What a case's results hold for one AI. */
  datatype CaseOutput = CaseOutput(
    aiName: string,
    result: Json,
    error: Option<string>,
    caseStatus: CaseStatus,
    softTimeout: bool,
    hardTimeout: bool,
    healthchecked: bool)

  type CaseResults = Dict<string, CaseOutput>
  type Results = Dict<string, CaseResults>

  /** The output dict stored for an AI that failed its health check. */
  function UnhealthyOutput(r: HealthResult): (o: CaseOutput)
    ensures o.aiName == r.aiName && o.caseStatus == r.caseStatus && o.healthchecked == r.healthchecked
  {
    CaseOutput(r.aiName, r.result, r.error, r.caseStatus, r.softTimeout, r.hardTimeout, r.healthchecked)
  }

  /** A solve-case result once its "log" has been popped. */
  function SolvedOutput(r: SolveResult): (o: CaseOutput)
    ensures o.aiName == r.aiName && o.caseStatus == r.caseStatus && o.result == r.result
  {
    CaseOutput(r.aiName, r.result, r.error, r.caseStatus, r.softTimeout, r.hardTimeout, r.healthchecked)
  }

  /** How `_run_benchmark` ends. */
  datatype RunOutput =
    | TimedOut                                        // a bare `return`: None
    | AllUnhealthy(runId: string, results: Results)   // {"runId": ..., "results": ...}
    | Finished(benchmarkId: string, results: Results) // {"benchmark_id": ..., "results": ...}
    | Raised(error: Exception)                        // an exception left the run

  /** A message as a runner puts it: from an existing runner, with the payload its signal calls for. */
  predicate WellFormed(m: Message, poolSize: int) {
    0 <= m.runnerId < poolSize && Tagged(m)
  }

  /** The messages the polls from position `lo` up to `hi` took off the queue. */
  function Taken(incoming: seq<Option<Message>>, lo: nat, hi: nat): (ms: seq<Message>)
    requires lo <= hi <= |incoming|
    ensures |ms| <= hi - lo
    decreases hi
  {
    if lo == hi then []
    else Taken(incoming, lo, hi - 1) + (match incoming[hi - 1] case Some(m) => [m] case None => [])
  }

  /** Each of a result's log lines, appended one at a time. */
  function LinesOf(log: seq<LogLine>): (es: seq<LogEntry>)
    ensures |es| == |log| && forall i :: 0 <= i < |log| ==> es[i] == Line(log[i])
  {
    seq(|log|, i requires 0 <= i < |log| => Line(log[i]))
  }

  /** What the solve phase's loop over a result's "log" appends as written: the whole list, once per line. */
  function SolveLogAsWritten(log: seq<LogLine>): (es: seq<LogEntry>)
    ensures |es| == |log| && forall i :: 0 <= i < |log| ==> es[i] == Lines(log)
  {
    seq(|log|, _ => Lines(log))
  }

  /** The one-line solve log of a case solved in time does not reach the logs as its line. */
  lemma SolveLogAsWrittenNestsLines(ai: string)
    ensures SolveLogAsWritten([SolveStart(ai)]) == [Lines([SolveStart(ai)])]
    ensures SolveLogAsWritten([SolveStart(ai)]) != LinesOf([SolveStart(ai)])
  {
    assert LinesOf([SolveStart(ai)])[0] == Line(SolveStart(ai));
  }

  /** The parameters `BenchmarkRunner.__init__` declares after `self`. */
  const RUNNER_INIT_PARAMS: seq<string> := ["ai_name", "ai_config", "in_pipe", "out_queue", "runner_id"]

  /** A value `setup_runners` passes to the runner's constructor. */
  datatype RunnerArg =
    | AiName(name: string)
    | AiConfig(config: Json)
    | RunnerEnd(pipe: nat)     // the runner's end of the pipe made for it
    | ResultQueue              // the manager's shared result queue
    | RunnerIndex(index: nat)
    | StartTime(time: real)

  /** The arguments `setup_runners` as written passes for the AI at `index`: the start time comes sixth. */
  function RunnerCallAsWritten(ai: string, config: Json, index: nat, startTime: real): seq<RunnerArg> {
    [AiName(ai), AiConfig(config), RunnerEnd(index), ResultQueue, RunnerIndex(index), StartTime(startTime)]
  }

  /** The corrected arguments: the five the constructor declares. */
  function RunnerCall(ai: string, config: Json, index: nat): seq<RunnerArg> {
    [AiName(ai), AiConfig(config), RunnerEnd(index), ResultQueue, RunnerIndex(index)]
  }

  /**
   * `setup_runners` as written, from IDLE: one constructor call per AI in
   * dict order, each binding its arguments to the runner's parameters; the
   * first call that cannot bind raises and ends the setup.
   */
  function SetupRunnersAsWritten(benchmarkedAis: Dict<string, Json>, startTime: real): Result<seq<seq<(string, RunnerArg)>>>
    decreases |benchmarkedAis|
  {
    if benchmarkedAis == [] then Ok([])
    else
      var i := |benchmarkedAis| - 1;
      var built :- SetupRunnersAsWritten(benchmarkedAis[..i], startTime);
      match BindPositional(RUNNER_INIT_PARAMS, RunnerCallAsWritten(benchmarkedAis[i].0, benchmarkedAis[i].1, i, startTime))
      case Err(e) => Err(e)
      case Ok(runner) => Ok(built + [runner])
  }

  /**
   * As written, a manager set up for even one AI raises TypeError: six
   * arguments meet five parameters. The corrected call binds for every AI,
   * with the AI's position as its runner id.
   */
  lemma {:induction false} SetupRunnersAsWrittenRaises(benchmarkedAis: Dict<string, Json>, startTime: real)
    requires benchmarkedAis != []
    ensures SetupRunnersAsWritten(benchmarkedAis, startTime) == Err(TypeError)
    ensures forall i :: 0 <= i < |benchmarkedAis| ==>
      BindPositional(RUNNER_INIT_PARAMS, RunnerCall(benchmarkedAis[i].0, benchmarkedAis[i].1, i)).Ok? &&
      BindPositional(RUNNER_INIT_PARAMS, RunnerCall(benchmarkedAis[i].0, benchmarkedAis[i].1, i)).value[4] == ("runner_id", RunnerIndex(i))
  {
    var i := |benchmarkedAis| - 1;
    if i > 0 {
      SetupRunnersAsWrittenRaises(benchmarkedAis[..i], startTime);
    }
  }

  /** The name of the burnt-case marker file of the case at position `caseNum`. */
  function BurntMarker(caseId: string, caseNum: nat): (name: string)
    ensures |name| > |caseId| + 1 && name[..|caseId|] == caseId && name[|caseId|] == '_'
  {
    caseId + "_" + NatToString(caseNum)
  }

  /** `case["caseData"]["caseId"]`, which must be a string. */
  function CaseIdOf(c: Json): (r: Result<string>)
    ensures r.Ok? ==> Index(c, "caseData").Ok? && Index(Index(c, "caseData").value, "caseId") == Ok(JStr(r.value))
  {
    match Index(c, "caseData")
    case Err(e) => Err(e)
    case Ok(data) =>
      match Index(data, "caseId")
      case Err(e) => Err(e)
      case Ok(JStr(id)) => Ok(id)
      case Ok(_) => Err(TypeError)
  }

  // ---------------------------------------------------------------- health phase

  /** What the health phase has gathered so far. */
  datatype HealthTally = HealthTally(
    caseResults: CaseResults,
    healthy: seq<int>,
    logs: seq<LogEntry>,
    ai: AITable,
    sentinels: nat)

  /** The health phase's handling of one message taken off the queue. */
  function HealthStep(t: HealthTally, report: string, caseId: string, m: Message): HealthTally {
    if m.signal == SentinelSignal then t.(sentinels := t.sentinels + 1)
    else if m.signal == HealthCheckSignal && m.payload.HealthPayload? then
      var r := m.payload.health;
      var ai := CreateAITable(t.ai, AIKey(report, r.aiName, caseId), r.report);
      var t1 := if r.healthy then t.(healthy := t.healthy + [m.runnerId], ai := ai)
                else t.(caseResults := Put(t.caseResults, r.aiName, UnhealthyOutput(r)), ai := ai);
      t1.(logs := t1.logs + LinesOf(r.log))
    else t
  }

  /** The health phase's handling of the messages in the order they were taken. */
  function HealthTallyOf(t0: HealthTally, report: string, caseId: string, ms: seq<Message>): HealthTally
    decreases |ms|
  {
    if ms == [] then t0
    else HealthStep(HealthTallyOf(t0, report, caseId, ms[..|ms| - 1]), report, caseId, ms[|ms| - 1])
  }

  predicate IsHealthyReport(m: Message) {
    m.signal == HealthCheckSignal && m.payload.HealthPayload? && m.payload.health.healthy
  }

  predicate IsUnhealthyReport(m: Message) {
    m.signal == HealthCheckSignal && m.payload.HealthPayload? && !m.payload.health.healthy
  }

  function SentinelCount(ms: seq<Message>): (n: nat)
    ensures n <= |ms|
    decreases |ms|
  {
    if ms == [] then 0
    else SentinelCount(ms[..|ms| - 1]) + (if ms[|ms| - 1].signal == SentinelSignal then 1 else 0)
  }

  /** The ids the health phase keeps are exactly the runners that reported themselves healthy. */
  lemma {:induction false} HealthyIdsExact(t0: HealthTally, report: string, caseId: string, ms: seq<Message>, x: int)
    ensures x in HealthTallyOf(t0, report, caseId, ms).healthy <==>
      x in t0.healthy || exists k :: 0 <= k < |ms| && IsHealthyReport(ms[k]) && ms[k].runnerId == x
    decreases |ms|
  {
    if ms != [] {
      var init := ms[..|ms| - 1];
      HealthyIdsExact(t0, report, caseId, init, x);
      assert forall k :: 0 <= k < |init| ==> init[k] == ms[k];
    }
  }

  /** The phase counts every SENTINEL it takes, and only those. */
  lemma {:induction false} HealthSentinels(t0: HealthTally, report: string, caseId: string, ms: seq<Message>)
    ensures HealthTallyOf(t0, report, caseId, ms).sentinels == t0.sentinels + SentinelCount(ms)
    decreases |ms|
  {
    if ms != [] {
      HealthSentinels(t0, report, caseId, ms[..|ms| - 1]);
    }
  }

  /** One message adds a results entry exactly when it is an unhealthy report. */
  lemma HealthStepKeys(t: HealthTally, report: string, caseId: string, m: Message, a: string)
    ensures HasKey(HealthStep(t, report, caseId, m).caseResults, a) <==>
      HasKey(t.caseResults, a) || (IsUnhealthyReport(m) && m.payload.health.aiName == a)
  {
  }

  /** An AI has an entry in the case's results exactly when it was there before or it
      reported itself unhealthy. */
  lemma {:induction false} UnhealthyRecorded(t0: HealthTally, report: string, caseId: string, ms: seq<Message>,
                                             a: string)
    ensures HasKey(HealthTallyOf(t0, report, caseId, ms).caseResults, a) <==>
      HasKey(t0.caseResults, a)
      || exists k :: 0 <= k < |ms| && IsUnhealthyReport(ms[k]) && ms[k].payload.health.aiName == a
    decreases |ms|
  {
    if ms != [] {
      var init := ms[..|ms| - 1];
      UnhealthyRecorded(t0, report, caseId, init, a);
      HealthStepKeys(HealthTallyOf(t0, report, caseId, init), report, caseId, ms[|ms| - 1], a);
      assert forall k :: 0 <= k < |init| ==> init[k] == ms[k];
    }
  }

  // ---------------------------------------------------------------- solve phase

  /** What the solve phase has gathered so far. */
  datatype SolveTally = SolveTally(caseResults: CaseResults, logs: seq<LogEntry>, ai: AITable, sentinels: nat)

  /** The solve phase's handling of one message: the popped log is appended line by line,
      the AI report updated, and the result stored over whatever was there. */
  function SolveStep(t: SolveTally, report: string, caseId: string, m: Message): SolveTally {
    if m.signal == SentinelSignal then t.(sentinels := t.sentinels + 1)
    else if m.signal == SolveCaseSignal && m.payload.SolvePayload? then
      var r := m.payload.solve;
      SolveTally(
        Put(t.caseResults, r.aiName, SolvedOutput(r)),
        t.logs + LinesOf(r.log),
        UpdateAITable(t.ai, AIKey(report, r.aiName, caseId), r.caseStatus.Value(), None,
                      TextTruthy(r.error), false, r.softTimeout, r.hardTimeout),
        t.sentinels)
    else t
  }

  function SolveTallyOf(t0: SolveTally, report: string, caseId: string, ms: seq<Message>): SolveTally
    decreases |ms|
  {
    if ms == [] then t0
    else SolveStep(SolveTallyOf(t0, report, caseId, ms[..|ms| - 1]), report, caseId, ms[|ms| - 1])
  }

  /** Taking one more message is one more solve step. */
  lemma SolveTallySnoc(t0: SolveTally, report: string, caseId: string, ms: seq<Message>, m: Message)
    ensures SolveTallyOf(t0, report, caseId, ms + [m]) == SolveStep(SolveTallyOf(t0, report, caseId, ms), report, caseId, m)
  {
    assert (ms + [m])[..|ms|] == ms;
  }

  predicate IsSolveReport(m: Message, ai: string) {
    m.signal == SolveCaseSignal && m.payload.SolvePayload? && m.payload.solve.aiName == ai
  }

  /** Each solve result overwrites the AI's entry: the entry is the last result that AI sent. */
  lemma {:induction false} LastSolveWins(t0: SolveTally, report: string, caseId: string, ms: seq<Message>,
                                         k: nat, ai: string)
    requires k < |ms| && IsSolveReport(ms[k], ai)
    requires forall j :: k < j < |ms| ==> !IsSolveReport(ms[j], ai)
    ensures Get(SolveTallyOf(t0, report, caseId, ms).caseResults, ai) == Some(SolvedOutput(ms[k].payload.solve))
    decreases |ms|
  {
    var init := ms[..|ms| - 1];
    var last := ms[|ms| - 1];
    if k < |ms| - 1 {
      assert init[k] == ms[k];
      LastSolveWins(t0, report, caseId, init, k, ai);
      if last.signal == SolveCaseSignal && last.payload.SolvePayload? {
        PutOther(SolveTallyOf(t0, report, caseId, init).caseResults, last.payload.solve.aiName,
                 SolvedOutput(last.payload.solve), ai);
      }
    }
  }

  /** The solve phase counts every SENTINEL it takes, and only those. */
  lemma {:induction false} SolveSentinels(t0: SolveTally, report: string, caseId: string, ms: seq<Message>)
    ensures SolveTallyOf(t0, report, caseId, ms).sentinels == t0.sentinels + SentinelCount(ms)
    decreases |ms|
  {
    if ms != [] {
      SolveSentinels(t0, report, caseId, ms[..|ms| - 1]);
    }
  }

  /** How many times x occurs in s. */
  function Occurrences(s: seq<int>, x: int): (n: nat)
    ensures n <= |s|
    ensures n > 0 <==> x in s
    decreases |s|
  {
    if s == [] then 0
    else Occurrences(s[..|s| - 1], x) + (if s[|s| - 1] == x then 1 else 0)
  }

  function Repeat(c: Command, n: nat): (s: seq<Command>)
    ensures |s| == n && forall i :: 0 <= i < n ==> s[i] == c
  {
    seq(n, _ => c)
  }

  /** Every pipe of `after` continues the same pipe of `before`: commands are only ever appended. */
  predicate Extends(before: seq<seq<Command>>, after: seq<seq<Command>>) {
    |before| == |after| && forall i :: 0 <= i < |before| ==> before[i] <= after[i]
  }

  /** The outcome of one case of the loop in `_run_benchmark`. */
  datatype CaseOutcome = NextCase | Stop(output: RunOutput)

  /** `BenchmarkManager` */
  class BenchmarkManager {
    const db: DatabaseClient
    const deadline: nat                 // `if_timeout` answers True from its deadline-th call on
    var checks: nat                     // calls of `if_timeout` so far
    var state: ManagerStatus
    var setUp: bool                     // `setup` has run: the attributes below exist
    var benchmarkId: string
    var caseSetId: string
    var caseSet: seq<Json>
    var benchmarkedAis: Dict<string, Json>
    var accumulatedLogs: seq<LogEntry>
    var managerReport: ManagerReport
    var runnersPool: seq<string>        // the AI name of each runner; a runner's id is its position
    var sent: seq<seq<Command>>         // what has been sent down each runner's pipe
    var incoming: seq<Option<Message>>  // what successive polls of the result queue give
    var received: nat                   // polls that took an entry of `incoming`
    var burnt: set<string>              // the burnt-case marker files created

    ghost predicate Valid()
      reads this
    {
      && received <= |incoming|
      && |sent| == |runnersPool|
    }

    /** Every message a poll can give is one a runner of the pool puts. */
    predicate QueueWellFormed()
      reads this
    {
      forall k :: 0 <= k < |incoming| && incoming[k].Some? ==> WellFormed(incoming[k].value, |runnersPool|)
    }

    constructor (deadline: nat)
      ensures fresh(db) && db.managerReports == map[] && db.aiReports == map[]
      ensures this.deadline == deadline && checks == 0
      ensures state == Idle && !setUp && burnt == {}
      ensures Valid()
    {
      db := new DatabaseClient();
      this.deadline := deadline;
      checks := 0;
      state := Idle;
      setUp := false;
      benchmarkId, caseSetId, caseSet, benchmarkedAis := "", "", [], [];
      accumulatedLogs := [];
      managerReport := NewManagerReport("", "", 0);
      runnersPool, sent := [], [];
      incoming, received := [], 0;
      burnt := {};
    }

    /** `if_timeout` */
    method IfTimeout() returns (timedOut: bool)
      modifies this`checks
      ensures timedOut <==> old(checks) >= deadline
      ensures checks == old(checks) + 1
    {
      timedOut := checks >= deadline;
      checks := checks + 1;
    }

    /** `result_queue.get(timeout=1.0)`: a message, or None when the poll comes back empty. */
    method Poll() returns (m: Option<Message>)
      requires Valid()
      modifies this`received
      ensures Valid()
      ensures old(received) < |incoming| ==> m == incoming[old(received)] && received == old(received) + 1
      ensures old(received) == |incoming| ==> m.None? && received == old(received)
    {
      if received < |incoming| {
        m := incoming[received];
        received := received + 1;
      } else {
        m := None;
      }
    }

    /**
     * `setup`: only an IDLE manager can be set up; it records the run, creates
     * (or finds) the manager report and sets up one runner per benchmarked AI.
     * `incoming` stands for the result queue it creates.
     */
    method Setup(uniqueId: string, caseSetId: string, caseSet: seq<Json>, benchmarkedAis: Dict<string, Json>,
                 incoming: seq<Option<Message>>) returns (r: Result<()>)
      requires Valid()
      modifies this`benchmarkId, this`caseSetId, this`caseSet, this`accumulatedLogs, this`incoming,
               this`received, this`benchmarkedAis, this`managerReport, this`setUp, this`runnersPool,
               this`sent, db`managerReports
      ensures Valid()
      ensures r.Err? <==> state != Idle
      ensures r.Err? ==> setUp == old(setUp) && db.managerReports == old(db.managerReports) && r.error == ValueError
      ensures r.Ok? ==>
        && setUp && benchmarkId == uniqueId && this.caseSetId == caseSetId && this.caseSet == caseSet
        && accumulatedLogs == [] && this.incoming == incoming && received == 0
        && runnersPool == Keys(benchmarkedAis) && sent == seq(|benchmarkedAis|, _ => [])
        && managerReport == CreatedManagerReport(old(db.managerReports), uniqueId, caseSetId, |caseSet|)
        && db.managerReports == old(db.managerReports)[uniqueId := managerReport]
    {
      if state != Idle {
        return Err(ValueError);
      }
      SetAttributes(uniqueId, caseSetId, caseSet, benchmarkedAis, incoming);
      ghost var reports := db.managerReports;
      SetupReport();
      ghost var report := managerReport;
      assert db.managerReports == reports[uniqueId := report];
      setUp := true;
      SetupRunners();
      assert managerReport == report;
      r := Ok(());
    }

    /** The attributes `setup` stores before it creates the report and the runners. */
    method SetAttributes(uniqueId: string, caseSetId: string, caseSet: seq<Json>, benchmarkedAis: Dict<string, Json>,
                         incoming: seq<Option<Message>>)
      requires Valid()
      modifies this`benchmarkId, this`caseSetId, this`caseSet, this`accumulatedLogs, this`incoming,
               this`received, this`benchmarkedAis
      ensures Valid()
      ensures benchmarkId == uniqueId && this.caseSetId == caseSetId && this.caseSet == caseSet
      ensures accumulatedLogs == [] && this.incoming == incoming && received == 0
      ensures this.benchmarkedAis == benchmarkedAis
    {
      benchmarkId, this.caseSetId, this.caseSet := uniqueId, caseSetId, caseSet;
      accumulatedLogs, this.incoming, received := [], incoming, 0;
      this.benchmarkedAis := benchmarkedAis;
    }

    /** `setup_report`: the run's manager report, created or, when its id is taken, the stored one. */
    method SetupReport()
      modifies this`managerReport, db`managerReports
      ensures managerReport == CreatedManagerReport(old(db.managerReports), benchmarkId, caseSetId, |caseSet|)
      ensures db.managerReports == old(db.managerReports)[benchmarkId := managerReport]
    {
      managerReport := db.CreateManagerReport(benchmarkId, caseSetId, |caseSet|);
    }

    /** `setup_runners`: runner i serves the i-th benchmarked AI, and its pipe is empty. */
    method SetupRunners()
      requires Valid()
      modifies this`runnersPool, this`sent
      ensures Valid()
      ensures old(state) == Idle ==>
        runnersPool == Keys(benchmarkedAis) && sent == seq(|benchmarkedAis|, _ => [])
      ensures old(state) != Idle ==> runnersPool == old(runnersPool) && sent == old(sent)
    {
      if state == Idle {
        var pool: seq<string> := [];
        var i := 0;
        while i < |benchmarkedAis|
          invariant i <= |benchmarkedAis|
          invariant pool == Keys(benchmarkedAis)[..i]
        {
          pool := pool + [benchmarkedAis[i].0];
          i := i + 1;
        }
        runnersPool := pool;
        sent := seq(|benchmarkedAis|, _ => []);
      }
    }

    /** `finish_execution` */
    method FinishExecution()
      requires Valid()
      modifies this`state, this`runnersPool, this`sent
      ensures Valid()
      ensures state == Idle && runnersPool == [] && sent == []
    {
      state := Idle;
      runnersPool, sent := [], [];
    }

    /** Send HEALTH_CHECK for the case to every runner. */
    method SendHealthChecks(caseId: string)
      requires Valid()
      modifies this`sent
      ensures Valid()
      ensures |sent| == |old(sent)| && forall i :: 0 <= i < |sent| ==> sent[i] == old(sent)[i] + [HealthCheck(caseId)]
    {
      var i := 0;
      while i < |sent|
        invariant i <= |sent| == |old(sent)|
        invariant forall j :: 0 <= j < i ==> sent[j] == old(sent)[j] + [HealthCheck(caseId)]
        invariant forall j :: i <= j < |sent| ==> sent[j] == old(sent)[j]
      {
        sent := sent[i := sent[i] + [HealthCheck(caseId)]];
        i := i + 1;
      }
    }

    /** Send SOLVE_CASE with the case to each healthy id, once per occurrence. */
    method SendSolveCases(healthy: seq<int>, c: Json)
      requires Valid()
      requires forall x :: x in healthy ==> 0 <= x < |sent|
      modifies this`sent
      ensures Valid()
      ensures |sent| == |old(sent)|
      ensures forall i :: 0 <= i < |sent| ==> sent[i] == old(sent)[i] + Repeat(SolveCase(c), Occurrences(healthy, i))
    {
      var k := 0;
      while k < |healthy|
        invariant k <= |healthy| && |sent| == |old(sent)|
        invariant forall i :: 0 <= i < |sent| ==>
          sent[i] == old(sent)[i] + Repeat(SolveCase(c), Occurrences(healthy[..k], i))
      {
        var id := healthy[k];
        assert id in healthy;
        assert healthy[..k + 1][..k] == healthy[..k];
        sent := sent[id := sent[id] + [SolveCase(c)]];
        k := k + 1;
      }
      assert healthy[..k] == healthy;
    }

    /**
     * The health phase: take messages off the queue until one SENTINEL per
     * runner has arrived, recording AI reports, unhealthy results and log
     * lines, and keeping the ids of the healthy runners. `completed` is false
     * when the deadline passed first.
     */
    method HealthPhase(caseId: string) returns (completed: bool, healthy: seq<int>, caseResults: CaseResults)
      requires Valid() && QueueWellFormed()
      modifies this`checks, this`received, this`accumulatedLogs, db`aiReports
      ensures Valid() && old(received) <= received
      ensures var t := HealthTallyOf(HealthTally([], [], old(accumulatedLogs), old(db.aiReports), 0),
                                     managerReport.benchmarkId, caseId, Taken(incoming, old(received), received));
        && caseResults == t.caseResults && healthy == t.healthy
        && accumulatedLogs == t.logs && db.aiReports == t.ai
        && t.sentinels <= |runnersPool|
        && (completed <==> t.sentinels == |runnersPool|)
      ensures forall x :: x in healthy ==> 0 <= x < |runnersPool|
      ensures !completed ==> checks > deadline
    {
      var report := managerReport.benchmarkId;
      ghost var r0 := received;
      ghost var t0 := HealthTally([], [], accumulatedLogs, db.aiReports, 0);
      var sentinels := 0;
      healthy, caseResults := [], [];
      while sentinels < |runnersPool|
        invariant Valid() && r0 <= received
        invariant var t := HealthTallyOf(t0, report, caseId, Taken(incoming, r0, received));
          && caseResults == t.caseResults && healthy == t.healthy
          && accumulatedLogs == t.logs && db.aiReports == t.ai && sentinels == t.sentinels
        invariant sentinels <= |runnersPool|
        invariant forall x :: x in healthy ==> 0 <= x < |runnersPool|
        decreases deadline + 1 - checks
      {
        var timedOut := IfTimeout();
        if timedOut {
          return false, healthy, caseResults;
        }
        ghost var before := Taken(incoming, r0, received);
        var polled := Poll();
        if polled.Some? {
          var m := polled.value;
          assert Taken(incoming, r0, received) == before + [m];
          assert (before + [m])[..|before|] == before;
          sentinels, healthy, caseResults := TakeHealthMessage(report, caseId, m, sentinels, healthy, caseResults);
        } else {
          assert Taken(incoming, r0, received) == before;
        }
      }
      completed := true;
    }

    /** The health phase's handling of one message: a SENTINEL is counted, a health check recorded. */
    method TakeHealthMessage(report: string, caseId: string, m: Message, sentinels: nat, healthy: seq<int>,
                             caseResults: CaseResults)
      returns (sentinels': nat, healthy': seq<int>, caseResults': CaseResults)
      requires WellFormed(m, |runnersPool|)
      modifies this`accumulatedLogs, db`aiReports
      ensures var t := HealthStep(HealthTally(caseResults, healthy, old(accumulatedLogs), old(db.aiReports), sentinels),
                                  report, caseId, m);
        && caseResults' == t.caseResults && healthy' == t.healthy
        && accumulatedLogs == t.logs && db.aiReports == t.ai && sentinels' == t.sentinels
      ensures forall x :: x in healthy' ==> x in healthy || x == m.runnerId
    {
      sentinels', healthy', caseResults' := sentinels, healthy, caseResults;
      if m.signal == SentinelSignal {
        sentinels' := sentinels + 1;
      } else if m.signal == HealthCheckSignal {
        var r := m.payload.health;
        db.CreateAIReport(report, r.aiName, caseId, r.report);
        if r.healthy {
          healthy' := healthy + [m.runnerId];
        } else {
          caseResults' := Put(caseResults, r.aiName, UnhealthyOutput(r));
        }
        accumulatedLogs := accumulatedLogs + LinesOf(r.log);
      }
    }

    /**
     * The solve phase: take messages off the queue until `need` SENTINELs
     * have arrived, recording each solve result over the AI's entry.
     */
    method SolvePhase(caseId: string, need: nat, caseResults0: CaseResults)
      returns (completed: bool, caseResults: CaseResults)
      requires Valid() && QueueWellFormed()
      modifies this`checks, this`received, this`accumulatedLogs, db`aiReports
      ensures Valid() && old(received) <= received
      ensures var t := SolveTallyOf(SolveTally(caseResults0, old(accumulatedLogs), old(db.aiReports), 0),
                                    managerReport.benchmarkId, caseId, Taken(incoming, old(received), received));
        && caseResults == t.caseResults && accumulatedLogs == t.logs && db.aiReports == t.ai
        && t.sentinels <= need
        && (completed <==> t.sentinels == need)
      ensures !completed ==> checks > deadline
    {
      var report := managerReport.benchmarkId;
      ghost var r0 := received;
      ghost var t0 := SolveTally(caseResults0, accumulatedLogs, db.aiReports, 0);
      var sentinels := 0;
      caseResults := caseResults0;
      while sentinels < need
        invariant Valid() && r0 <= received
        invariant var t := SolveTallyOf(t0, report, caseId, Taken(incoming, r0, received));
          && caseResults == t.caseResults && accumulatedLogs == t.logs && db.aiReports == t.ai
          && sentinels == t.sentinels
        invariant sentinels <= need
        decreases deadline + 1 - checks
      {
        var timedOut;
        timedOut, caseResults, sentinels := SolveTurn(report, caseId, r0, t0, caseResults, sentinels);
        if timedOut {
          return false, caseResults;
        }
      }
      completed := true;
    }

    /** One turn of the solve phase's loop: the timeout check, a poll, and the message's handling. */
    method SolveTurn(report: string, caseId: string, ghost r0: nat, ghost t0: SolveTally,
                     caseResults0: CaseResults, sentinels0: nat)
      returns (timedOut: bool, caseResults: CaseResults, sentinels: nat)
      requires Valid() && QueueWellFormed() && r0 <= received
      requires var t := SolveTallyOf(t0, report, caseId, Taken(incoming, r0, received));
        && caseResults0 == t.caseResults && accumulatedLogs == t.logs && db.aiReports == t.ai
        && sentinels0 == t.sentinels
      modifies this`checks, this`received, this`accumulatedLogs, db`aiReports
      ensures Valid() && r0 <= received
      ensures var t := SolveTallyOf(t0, report, caseId, Taken(incoming, r0, received));
        && caseResults == t.caseResults && accumulatedLogs == t.logs && db.aiReports == t.ai
        && sentinels == t.sentinels
      ensures timedOut <==> old(checks) >= deadline
      ensures checks == old(checks) + 1
      ensures sentinels == sentinels0 || (!timedOut && sentinels == sentinels0 + 1)
    {
      caseResults, sentinels := caseResults0, sentinels0;
      timedOut := IfTimeout();
      if timedOut {
        return;
      }
      ghost var before := Taken(incoming, r0, received);
      var polled := Poll();
      if polled.Some? {
        var m := polled.value;
        assert Taken(incoming, r0, received) == before + [m];
        SolveTallySnoc(t0, report, caseId, before, m);
        var isSentinel;
        caseResults, isSentinel := RecordSolve(report, caseId, m, caseResults, sentinels);
        if isSentinel {
          sentinels := sentinels + 1;
        }
      } else {
        assert Taken(incoming, r0, received) == before;
      }
    }

    /** The solve phase's handling of one message it took off the queue. */
    method RecordSolve(report: string, caseId: string, m: Message, caseResults0: CaseResults, ghost sentinels: nat)
      returns (caseResults: CaseResults, isSentinel: bool)
      requires Tagged(m)
      modifies this`accumulatedLogs, db`aiReports
      ensures var t := SolveStep(SolveTally(caseResults0, old(accumulatedLogs), old(db.aiReports), sentinels),
                                 report, caseId, m);
        && caseResults == t.caseResults && accumulatedLogs == t.logs && db.aiReports == t.ai
        && (isSentinel <==> t.sentinels == sentinels + 1)
    {
      caseResults := caseResults0;
      isSentinel := m.signal == SentinelSignal;
      if m.signal == SolveCaseSignal {
        var r := m.payload.solve;
        accumulatedLogs := accumulatedLogs + LinesOf(r.log);
        db.UpdateAIReport(report, r.aiName, caseId, r.caseStatus.Value(), None, TextTruthy(r.error),
                          false, r.softTimeout, r.hardTimeout);
        caseResults := Put(caseResults, r.aiName, SolvedOutput(r));
      }
    }

    /** The names of the runners with the given ids. */
    function NamesOf(ids: seq<int>): (names: seq<string>)
      reads this
      requires forall i :: 0 <= i < |ids| ==> 0 <= ids[i] < |runnersPool|
      ensures |names| == |ids| && forall i :: 0 <= i < |ids| ==> names[i] == runnersPool[ids[i]]
    {
      var pool := runnersPool;
      seq(|ids|, i requires 0 <= i < |ids| => pool[ids[i]])
    }

    /**
     * The start of a case: the report's cursor moves to (case number + 1,
     * case id), the log says so, and every runner is sent HEALTH_CHECK.
     */
    method BeginCase(caseIndex: int, caseId: string)
      requires Valid()
      modifies this`accumulatedLogs, this`managerReport, this`sent, db`managerReports
      ensures Valid()
      ensures managerReport.currentCaseIndex == caseIndex && managerReport.currentCaseId == Some(caseId)
      ensures managerReport.benchmarkId == old(managerReport.benchmarkId)
      ensures accumulatedLogs == old(accumulatedLogs) + [Line(HealthChecksStart(caseIndex))]
      ensures |sent| == |old(sent)| && forall i :: 0 <= i < |sent| ==> sent[i] == old(sent)[i] + [HealthCheck(caseId)]
    {
      var updated := db.UpdateManagerReport(caseIndex, caseId, Some(managerReport), None);
      managerReport := updated.value;
      accumulatedLogs := accumulatedLogs + [Line(HealthChecksStart(caseIndex))];
      SendHealthChecks(caseId);
    }

    /**
     * The end of a health phase that completed: with no healthy runner the run
     * stops; otherwise the log names the healthy AIs, the case is marked burnt,
     * the case goes to the healthy runners and their results are collected.
     */
    method FinishCase(caseNum: nat, caseId: string, c: Json, healthy: seq<int>, caseResults0: CaseResults)
      returns (stop: Option<RunOutput>, caseResults: CaseResults)
      requires Valid() && QueueWellFormed()
      requires forall x :: x in healthy ==> 0 <= x < |runnersPool|
      modifies this`checks, this`received, this`accumulatedLogs, this`sent, this`burnt, db`aiReports
      ensures Valid() && Extends(old(sent), sent)
      ensures healthy == [] ==>
        stop == Some(AllUnhealthy(benchmarkId, [])) && burnt == old(burnt) && caseResults == caseResults0
      ensures healthy != [] ==>
        burnt == old(burnt) + {BurntMarker(caseId, caseNum)} && (stop.None? || stop == Some(TimedOut))
    {
      caseResults := caseResults0;
      if healthy == [] {
        accumulatedLogs := accumulatedLogs + [Line(HealthChecksAllFailed(caseNum + 1))];
        return Some(AllUnhealthy(benchmarkId, [])), caseResults;
      }
      assert forall i :: 0 <= i < |healthy| ==> healthy[i] in healthy;
      accumulatedLogs := accumulatedLogs + [Line(HealthChecksPassed(caseNum + 1, NamesOf(healthy)))];
      burnt := burnt + {BurntMarker(caseId, caseNum)};
      SendSolveCases(healthy, c);
      var completed;
      completed, caseResults := SolvePhase(caseId, |healthy|, caseResults);
      stop := if completed then None else Some(TimedOut);
    }

    /** The start of a case and its health phase. */
    method CheckCase(caseIndex: int, caseId: string) returns (completed: bool, healthy: seq<int>, caseResults: CaseResults)
      requires Valid() && QueueWellFormed()
      modifies this`checks, this`received, this`accumulatedLogs, this`managerReport, this`sent,
               db`aiReports, db`managerReports
      ensures Valid() && Extends(old(sent), sent) && QueueWellFormed()
      ensures forall x :: x in healthy ==> 0 <= x < |runnersPool|
      ensures managerReport.currentCaseIndex == caseIndex && managerReport.currentCaseId == Some(caseId)
    {
      BeginCase(caseIndex, caseId);
      completed, healthy, caseResults := HealthPhase(caseId);
    }

    /**
     * A case whose id is known: begin it, run its health phase and, when that
     * completes, finish it. `results'` gains the case's entry.
     */
    method CaseBody(caseNum: nat, caseId: string, c: Json, results: Results)
      returns (outcome: CaseOutcome, results': Results)
      requires Valid() && QueueWellFormed()
      modifies this`checks, this`received, this`accumulatedLogs, this`managerReport, this`sent, this`burnt,
               db`aiReports, db`managerReports
      ensures Valid() && Extends(old(sent), sent)
      ensures Keys(results') == Keys(Put(results, caseId, []))
      ensures outcome.NextCase? ==> burnt == old(burnt) + {BurntMarker(caseId, caseNum)}
      ensures outcome.Stop? ==>
        || outcome.output.TimedOut?
        || (outcome.output.AllUnhealthy? && outcome.output.runId == benchmarkId && burnt == old(burnt))
      ensures managerReport.currentCaseIndex == caseNum + 1 && managerReport.currentCaseId == Some(caseId)
    {
      var completed, healthy, caseResults := CheckCase(caseNum + 1, caseId);
      if !completed {
        return Stop(TimedOut), Put(results, caseId, caseResults);
      }
      var stop;
      stop, caseResults := FinishCase(caseNum, caseId, c, healthy, caseResults);
      results' := Put(results, caseId, caseResults);
      if stop.Some? {
        outcome := Stop(if stop.value.AllUnhealthy? then AllUnhealthy(benchmarkId, results') else stop.value);
        return;
      }
      outcome := NextCase;
    }

    /** One turn of the case loop of `_run_benchmark`, for the case at position `caseNum`. */
    method RunCase(caseNum: nat, results: Results) returns (outcome: CaseOutcome, results': Results)
      requires Valid() && QueueWellFormed() && caseNum < |caseSet|
      modifies this`checks, this`received, this`accumulatedLogs, this`managerReport, this`sent, this`burnt,
               db`aiReports, db`managerReports
      ensures Valid() && Extends(old(sent), sent)
      ensures outcome.NextCase? || outcome.output.TimedOut? || outcome.output.Raised? || outcome.output.AllUnhealthy?
      ensures outcome.NextCase? ==>
        && CaseIdOf(caseSet[caseNum]).Ok?
        && burnt == old(burnt) + {BurntMarker(CaseIdOf(caseSet[caseNum]).value, caseNum)}
        && forall x :: HasKey(results', x) <==> HasKey(results, x) || x == CaseIdOf(caseSet[caseNum]).value
      ensures outcome.Stop? && outcome.output.AllUnhealthy? ==>
        outcome.output.runId == benchmarkId && burnt == old(burnt)
      ensures old(checks) >= deadline ==> outcome == Stop(TimedOut) && sent == old(sent)
      ensures CaseIdOf(caseSet[caseNum]).Ok? && old(checks) < deadline ==>
        managerReport.currentCaseIndex == caseNum + 1
        && managerReport.currentCaseId == Some(CaseIdOf(caseSet[caseNum]).value)
    {
      results' := results;
      var timedOut := IfTimeout();
      if timedOut {
        return Stop(TimedOut), results';
      }
      var c := caseSet[caseNum];
      var idResult := CaseIdOf(c);
      if idResult.Err? {
        return Stop(Raised(idResult.error)), results';
      }
      outcome, results' := CaseBody(caseNum, idResult.value, c, results);
    }

    /** `_run_benchmark`: every case in turn, until one of them ends the run. */
    method RunCases() returns (output: RunOutput)
      requires Valid() && QueueWellFormed()
      modifies this`state, this`checks, this`received, this`accumulatedLogs, this`managerReport, this`sent,
               this`burnt, db`aiReports, db`managerReports
      ensures Valid() && Extends(old(sent), sent) && state == Running
      ensures output.Finished? ==>
        && output.benchmarkId == benchmarkId
        && (forall j :: 0 <= j < |caseSet| ==>
              CaseIdOf(caseSet[j]).Ok?
              && BurntMarker(CaseIdOf(caseSet[j]).value, j) in burnt
              && HasKey(output.results, CaseIdOf(caseSet[j]).value))
      ensures output.AllUnhealthy? ==> output.runId == benchmarkId
    {
      state := Running;
      var results: Results := [];
      accumulatedLogs := accumulatedLogs + [Line(BenchmarkStart(benchmarkId))];
      var caseNum := 0;
      while caseNum < |caseSet|
        invariant Valid() && caseNum <= |caseSet| && Extends(old(sent), sent) && state == Running
        invariant forall j :: 0 <= j < caseNum ==>
          CaseIdOf(caseSet[j]).Ok?
          && BurntMarker(CaseIdOf(caseSet[j]).value, j) in burnt
          && HasKey(results, CaseIdOf(caseSet[j]).value)
      {
        var outcome;
        outcome, results := RunCase(caseNum, results);
        if outcome.Stop? {
          return outcome.output;
        }
        caseNum := caseNum + 1;
      }
      accumulatedLogs := accumulatedLogs + [Line(BenchmarkFinished(benchmarkId, caseSetId))];
      output := Finished(benchmarkId, results);
    }

    /** The `finally` of `run_benchmark`: TERMINATE down every runner's pipe. */
    method SendTerminate()
      requires Valid()
      modifies this`sent
      ensures Valid()
      ensures |sent| == |old(sent)| && forall i :: 0 <= i < |sent| ==> sent[i] == old(sent)[i] + [Terminate]
    {
      var i := 0;
      while i < |sent|
        invariant i <= |sent| == |old(sent)|
        invariant forall j :: 0 <= j < i ==> sent[j] == old(sent)[j] + [Terminate]
        invariant forall j :: i <= j < |sent| ==> sent[j] == old(sent)[j]
      {
        sent := sent[i := sent[i] + [Terminate]];
        i := i + 1;
      }
    }

    /**
     * `run_benchmark`: run the cases, then, however the run ended, send
     * TERMINATE to every runner, go back to IDLE and empty the pool.
     * `pipes` is what each runner's pipe was sent, ending with the TERMINATE.
     */
    method RunBenchmark() returns (output: RunOutput, ghost pipes: seq<seq<Command>>)
      requires Valid() && QueueWellFormed()
      modifies this`state, this`checks, this`received, this`accumulatedLogs, this`managerReport, this`sent,
               this`burnt, this`runnersPool, db`aiReports, db`managerReports
      ensures Valid()
      ensures !old(setUp) ==> output == Raised(AttributeError) && sent == old(sent)
      ensures old(setUp) ==>
        && state == Idle && runnersPool == [] && sent == []
        && |pipes| == |old(sent)|
        && (forall i :: 0 <= i < |pipes| ==>
              old(sent)[i] <= pipes[i] && |pipes[i]| > 0 && pipes[i][|pipes[i]| - 1] == Terminate)
      ensures output.Finished? ==>
        output.benchmarkId == benchmarkId
        && forall j :: 0 <= j < |caseSet| ==>
             CaseIdOf(caseSet[j]).Ok? && BurntMarker(CaseIdOf(caseSet[j]).value, j) in burnt
             && HasKey(output.results, CaseIdOf(caseSet[j]).value)
    {
      pipes := sent;
      if !setUp {
        return Raised(AttributeError), pipes;
      }
      output := RunCases();
      ghost var mid := sent;
      SendTerminate();
      pipes := sent;
      assert forall i :: 0 <= i < |pipes| ==> pipes[i][..|mid[i]|] == mid[i];
      FinishExecution();
    }
  }
}
