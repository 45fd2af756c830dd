/**
 * `BenchmarkManagerWorker` of the evaluator's API: a process that owns one
 * benchmark manager and answers the commands put on its command queue, one
 * reply each, on its result queue. A None command is answered with None and
 * ends the worker; a command whose handling raises is answered with "Error"
 * and the worker goes on with the next one.
 *
 * The manager runs its benchmark in a thread of its own, so what the worker
 * reads of a set-up manager (its state, its report rows, the results file and
 * its logs) is an oracle: the k-th read sees `observe(k)`. The case-set files
 * are an oracle too: `files(id)` is the parsed cases.json of that case set,
 * or None when there is no such file.
 */
module EvaluatorWorker {
  import opened Wrappers
  import opened Dicts
  import opened JsonValues
  import opened Text
  import opened BenchmarkProtocol
  import opened Reporter
  import opened Manager

  // ---------------------------------------------------------------- configuration

  datatype Endpoints = Endpoints(healthCheck: string, solveCase: string)

  const AI_LOCATION_ALPHA: string := "http://127.0.0.1:5002/toy-ai/v1/"
  const ALPHA_ENDPOINTS: Endpoints := Endpoints(AI_LOCATION_ALPHA + "health-check", AI_LOCATION_ALPHA + "solve-case")

  /** AI_TYPES_ENDPOINTS: the AIs a benchmark can run against, and where they answer. */
  const AI_TYPES_ENDPOINTS: Dict<string, Endpoints> := [
    ("toy_ai_random_uniform", ALPHA_ENDPOINTS),
    ("toy_ai_random_probability_weighted", ALPHA_ENDPOINTS),
    ("toy_ai_deterministic_most_likely_conditions", ALPHA_ENDPOINTS),
    ("toy_ai_deterministic_by_symptom_intersection", ALPHA_ENDPOINTS),
    ("toy_ai_faulty_random_uniform", ALPHA_ENDPOINTS),
    ("babylon_toy_ai", Endpoints("http://127.0.0.1:5006/toy-ai/v1/health-check",
                                 "http://127.0.0.1:5006/toy-ai/v1/solve-case"))
  ]

  // ---------------------------------------------------------------- case-set ids

  const CASE_SET_ID_CHARS: string := "abcdefghijklmnopqrstuvwxyz0123456789_"

  predicate ValidCaseSetId(s: string) {
    forall i :: 0 <= i < |s| ==> s[i] in CASE_SET_ID_CHARS
  }

  /** `parse_validate_caseSetId`, given the text `str()` makes of the id: every character must be allowed. */
  method ParseValidateCaseSetId(text: string) returns (r: Result<string>)
    ensures r.Ok? <==> ValidCaseSetId(text)
    ensures r.Ok? ==> r.value == text
    ensures r.Err? ==> r.error == AssertionError
  {
    for i := 0 to |text|
      invariant forall j :: 0 <= j < i ==> text[j] in CASE_SET_ID_CHARS
    {
      if text[i] !in CASE_SET_ID_CHARS {
        return Err(AssertionError);
      }
    }
    return Ok(text);
  }

  /**
   * The text `str()` makes of a request's case-set id, when it can be valid:
   * a string is itself and a non-negative whole number its digits. The
   * text of any other JSON value holds a character the validation refuses (a '-',
   * a '.', a bracket or a capital letter), so None stands for it.
   */
  function CaseSetIdText(j: Json): Option<string> {
    match j
    case JStr(s) => Some(s)
    case JNum(n) => if n >= 0.0 && n == n.Floor as real then Some(NatToString(n.Floor)) else None
    case _ => None
  }

  // ---------------------------------------------------------------- "Start"

  /** `assert ai in AI_TYPES_ENDPOINTS`: a configured name passes; a list or a dict cannot be looked up. */
  function CheckAi(ai: Json): (r: Result<string>)
    ensures r.Ok? <==> ai.JStr? && HasKey(AI_TYPES_ENDPOINTS, ai.s)
    ensures r.Ok? ==> r.value == ai.s
  {
    match ai
    case JStr(s) => if HasKey(AI_TYPES_ENDPOINTS, s) then Ok(s) else Err(AssertionError)
    case JArr(_) => Err(TypeError)
    case JObj(_) => Err(TypeError)
    case _ => Err(AssertionError)
  }

  /** The validation of every requested AI in turn: their names, or the first failure. */
  function CheckAis(ais: seq<Json>): (r: Result<seq<string>>)
    ensures r.Ok? <==> forall i :: 0 <= i < |ais| ==> CheckAi(ais[i]).Ok?
    ensures r.Ok? ==> |r.value| == |ais| && forall i :: 0 <= i < |ais| ==> ais[i] == JStr(r.value[i])
    decreases |ais|
  {
    if ais == [] then Ok([])
    else
      var prefix := ais[..|ais| - 1];
      assert forall i :: 0 <= i < |prefix| ==> prefix[i] == ais[i];
      match CheckAis(prefix)
      case Err(e) => Err(e)
      case Ok(names) =>
        match CheckAi(ais[|ais| - 1])
        case Err(e) => Err(e)
        case Ok(name) => Ok(names + [name])
  }

  /** A failed check fails with the error of one of the requested AIs. */
  lemma {:induction false} CheckAisError(ais: seq<Json>)
    requires CheckAis(ais).Err?
    ensures exists i :: 0 <= i < |ais| && CheckAi(ais[i]) == Err(CheckAis(ais).error)
    decreases |ais|
  {
    var prefix := ais[..|ais| - 1];
    if CheckAis(prefix).Err? {
      CheckAisError(prefix);
      var i :| 0 <= i < |prefix| && CheckAi(prefix[i]) == Err(CheckAis(prefix).error);
      assert prefix[i] == ais[i];
    } else {
      assert CheckAi(ais[|ais| - 1]) == Err(CheckAis(ais).error);
    }
  }

  /** A passed check names exactly the requested AIs. */
  lemma CheckAisNames(ais: seq<Json>)
    requires CheckAis(ais).Ok?
    ensures forall a :: a in CheckAis(ais).value <==> JStr(a) in ais
  {
    var names := CheckAis(ais).value;
    forall a ensures a in names <==> JStr(a) in ais {
      if a in names {
        var i :| 0 <= i < |names| && names[i] == a;
        assert ais[i] == JStr(a);
      }
      if JStr(a) in ais {
        var i :| 0 <= i < |ais| && ais[i] == JStr(a);
        assert names[i] == a;
      }
    }
  }

  /** `{ai: AI_TYPES_ENDPOINTS[ai] for ai in names}`: each name once, in the order it first occurs. */
  function BenchmarkedAis(names: seq<string>): (d: Dict<string, Endpoints>)
    requires forall n :: n in names ==> HasKey(AI_TYPES_ENDPOINTS, n)
    ensures DistinctKeys(d)
    ensures Keys(d) == FirstOccurrences(names)
    ensures forall n :: n in names ==> Get(d, n) == Get(AI_TYPES_ENDPOINTS, n)
    decreases |names|
  {
    if names == [] then []
    else
      var prefix := names[..|names| - 1];
      var last := names[|names| - 1];
      var d0 := BenchmarkedAis(prefix);
      var d := Put(d0, last, Get(AI_TYPES_ENDPOINTS, last).value);
      forall n | n in names && n != last ensures Get(d, n) == Get(AI_TYPES_ENDPOINTS, n) {
        assert n in prefix;
        PutOther(d0, last, Get(AI_TYPES_ENDPOINTS, last).value, n);
      }
      d
  }

  /** `len(cases)`: a list's, a dict's or a string's length; anything else has none. */
  function PyLen(j: Json): (r: Result<nat>)
    ensures r.Ok? <==> j.JArr? || j.JObj? || j.JStr?
  {
    match j
    case JArr(items) => Ok(|items|)
    case JObj(fields) => Ok(|fields|)
    case JStr(s) => Ok(|s|)
    case _ => Err(TypeError)
  }

  /** What the worker holds: no manager yet, a fresh one, or one that was set up for a run. */
  datatype Held =
    | NoManager
    | Fresh
    | SetUp(benchmarkId: string, caseSetId: string, ais: Dict<string, Endpoints>, totalCases: nat)

  /** The AIs the request names, each checked against the configuration. */
  function RequestedAis(request: Json): (r: Result<seq<string>>)
    ensures r.Ok? ==> forall n :: n in r.value ==> HasKey(AI_TYPES_ENDPOINTS, n)
  {
    match Index(request, "aiImplementations")
    case Err(e) => Err(e)
    case Ok(rawAis) =>
      match Iterated(rawAis)
      case Err(e) => Err(e)
      case Ok(items) =>
        var r := CheckAis(items);
        assert r.Ok? ==> forall n :: n in r.value ==> HasKey(AI_TYPES_ENDPOINTS, n) by {
          if r.Ok? {
            forall n | n in r.value ensures HasKey(AI_TYPES_ENDPOINTS, n) {
              var i :| 0 <= i < |r.value| && r.value[i] == n;
              assert CheckAi(items[i]).Ok?;
            }
          }
        }
        r
  }

  /** Every AI the request names, when they all pass, is a configured one, and no other is taken. */
  lemma RequestedAisExact(request: Json)
    requires RequestedAis(request).Ok?
    ensures Index(request, "aiImplementations").Ok? && Iterated(Index(request, "aiImplementations").value).Ok?
    ensures var items := Iterated(Index(request, "aiImplementations").value).value;
      && (forall i :: 0 <= i < |items| ==> items[i].JStr? && HasKey(AI_TYPES_ENDPOINTS, items[i].s))
      && (forall a :: a in RequestedAis(request).value <==> JStr(a) in items)
  {
    var items := Iterated(Index(request, "aiImplementations").value).value;
    forall i | 0 <= i < |items| ensures items[i].JStr? && HasKey(AI_TYPES_ENDPOINTS, items[i].s) {
      assert CheckAi(items[i]).Ok?;
    }
    CheckAisNames(items);
  }

  /**
   * The "Start" command after its fresh manager was made (so the IDLE
   * assertion holds): validate the case-set id, check every requested AI,
   * load the case set and set the manager up for exactly the requested AIs.
   */
  function StartSpec(request: Json, uniqueId: string, files: string -> Option<Json>): (r: Result<Held>)
    ensures r.Ok? ==> && r.value.SetUp? && r.value.benchmarkId == uniqueId && ValidCaseSetId(r.value.caseSetId)
                      && RequestedAis(request).Ok?
                      && DistinctKeys(r.value.ais)
                      && Keys(r.value.ais) == FirstOccurrences(RequestedAis(request).value)
                      && files(r.value.caseSetId).Some?
                      && PyLen(files(r.value.caseSetId).value) == Ok(r.value.totalCases)
  {
    match Index(request, "caseSetId")
    case Err(e) => Err(e)
    case Ok(rawId) =>
      match CaseSetIdText(rawId)
      case None => Err(AssertionError)
      case Some(text) =>
        if !ValidCaseSetId(text) then Err(AssertionError)
        else
          match RequestedAis(request)
          case Err(e) => Err(e)
          case Ok(names) =>
            match files(text)
            case None => Err(FileNotFoundError)
            case Some(cases) =>
              match PyLen(cases)
              case Err(e) => Err(e)
              case Ok(n) => Ok(SetUp(uniqueId, text, BenchmarkedAis(names), n))
  }

  /**
   * A started run benchmarks exactly the requested AIs: every one of them is
   * configured, and the manager holds each of them once.
   */
  lemma StartBenchmarksRequested(request: Json, uniqueId: string, files: string -> Option<Json>)
    requires StartSpec(request, uniqueId, files).Ok?
    ensures Index(request, "aiImplementations").Ok? && Iterated(Index(request, "aiImplementations").value).Ok?
    ensures var items := Iterated(Index(request, "aiImplementations").value).value;
      var h := StartSpec(request, uniqueId, files).value;
      && (forall i :: 0 <= i < |items| ==> items[i].JStr? && HasKey(AI_TYPES_ENDPOINTS, items[i].s))
      && (forall a :: HasKey(h.ais, a) <==> JStr(a) in items)
  {
    RequestedAisExact(request);
  }

  // ---------------------------------------------------------------- "GetUpdate"

  /** What the manager, run by its thread, looks like when the worker reads it. */
  datatype Observation = Observation(
    state: ManagerStatus,
    report: Option<ManagerReport>,       // `select_manager_report`, None when no row matches
    aiRows: seq<(AIKey, AIReport)>,      // the report's `ai_reports`, in the order the query gives them
    resultsFile: Option<Json>,           // results.json of the run, when the file exists
    logs: seq<LogEntry>)

  /** The summary of an AI report row an update lists under the AI's name. */
  datatype ReportSummary = ReportSummary(caseStatus: int, healthcheckStatus: int, healthChecks: int,
                                         errors: int, timeouts: int)

  function Summary(r: AIReport): ReportSummary {
    ReportSummary(r.caseStatus, r.healthcheckStatus, r.healthChecks, r.errors, r.hardTimeouts)
  }

  /** The rows as (AI name, summary) pairs, the pairs the collecting loop groups. */
  function SummaryPairs(rows: seq<(AIKey, AIReport)>): (ps: seq<(string, ReportSummary)>)
    ensures |ps| == |rows| && forall i :: 0 <= i < |rows| ==> ps[i] == (rows[i].0.aiName, Summary(rows[i].1))
  {
    seq(|rows|, i requires 0 <= i < |rows| => (rows[i].0.aiName, Summary(rows[i].1)))
  }

  /** The (AI name, "result") pairs of one case's results, in order, or the first lookup that raises. */
  function EntryResults(entries: Dict<string, Json>): (r: Result<seq<(string, Json)>>)
    ensures r.Ok? ==> |r.value| == |entries|
    decreases |entries|
  {
    if entries == [] then Ok([])
    else
      match EntryResults(entries[..|entries| - 1])
      case Err(e) => Err(e)
      case Ok(ps) =>
        var last := entries[|entries| - 1];
        match Index(last.1, "result")
        case Err(e) => Err(e)
        case Ok(v) => Ok(ps + [(last.0, v)])
  }

  /** The pairs of every case's results in turn; a case entry that is not a dict has no `items`. */
  function CaseResultPairs(cases: Dict<string, Json>): (r: Result<seq<(string, Json)>>)
    decreases |cases|
  {
    if cases == [] then Ok([])
    else
      match CaseResultPairs(cases[..|cases| - 1])
      case Err(e) => Err(e)
      case Ok(ps) =>
        match cases[|cases| - 1].1
        case JObj(entries) =>
          (match EntryResults(entries)
           case Err(e) => Err(e)
           case Ok(qs) => Ok(ps + qs))
        case _ => Err(AttributeError)
  }

  /** `results_by_ai` from the loaded results: falsy results give {}, and a non-dict has no `items`. */
  function ResultsByAiSpec(results: Json): (r: Result<Dict<string, seq<Json>>>)
    ensures !Truthy(results) ==> r == Ok([])
  {
    if !Truthy(results) then Ok([])
    else
      match results
      case JObj(cases) =>
        (match CaseResultPairs(cases)
         case Err(e) => Err(e)
         case Ok(ps) => Ok(Grouped(ps)))
      case _ => Err(AttributeError)
  }

  /** The output of "GetUpdate". */
  datatype Update = Update(
    runId: string,
    caseSetId: string,
    totalCases: int,
    currentCaseIndex: int,
    currentCaseId: Option<string>,
    aiReports: Dict<string, seq<ReportSummary>>,
    resultsByAi: Dict<string, seq<Json>>,
    logs: seq<LogEntry>)

  /**
   * "GetUpdate" on a set-up manager as the read `obs` sees it: the report's
   * cursor, its rows grouped by AI, and, only once the manager is IDLE and
   * its results file exists, the results grouped by AI.
   */
  function GetUpdateSpec(h: Held, obs: Observation): (r: Result<Update>)
    requires h.SetUp?
    ensures r.Ok? <==> (obs.report.Some?
      && (obs.state == Idle && obs.resultsFile.Some? ==> ResultsByAiSpec(obs.resultsFile.value).Ok?))
    ensures r.Ok? ==>
      && r.value.runId == h.benchmarkId && r.value.caseSetId == h.caseSetId
      && r.value.totalCases == obs.report.value.totalCases
      && r.value.currentCaseIndex == obs.report.value.currentCaseIndex
      && r.value.currentCaseId == obs.report.value.currentCaseId
      && r.value.logs == obs.logs
    ensures r.Ok? && (obs.state != Idle || obs.resultsFile.None?) ==> r.value.resultsByAi == []
  {
    match obs.report
    case None => Err(AttributeError)
    case Some(report) =>
      var collected := Grouped(SummaryPairs(obs.aiRows));
      var byAi := if obs.state == Idle && obs.resultsFile.Some? then ResultsByAiSpec(obs.resultsFile.value)
                  else Ok([]);
      match byAi
      case Err(e) => Err(e)
      case Ok(resultsByAi) =>
        Ok(Update(h.benchmarkId, h.caseSetId, report.totalCases, report.currentCaseIndex,
                  report.currentCaseId, collected, resultsByAi, obs.logs))
  }

  /** Every AI with a report row is listed with the summaries of exactly its rows, in row order. */
  lemma UpdateListsEveryRow(h: Held, obs: Observation, a: string)
    requires h.SetUp? && GetUpdateSpec(h, obs).Ok?
    ensures GetOr(GetUpdateSpec(h, obs).value.aiReports, a, []) == ValuesOf(SummaryPairs(obs.aiRows), a)
    ensures Keys(GetUpdateSpec(h, obs).value.aiReports) == FirstOccurrences(Keys(SummaryPairs(obs.aiRows)))
  {
    GroupedValues(SummaryPairs(obs.aiRows), a);
    GroupedKeys(SummaryPairs(obs.aiRows));
  }

  // ---------------------------------------------------------------- the command loop

  /** A command as the worker takes it off its queue. */
  datatype WorkerCommand =
    | StopWorker                               // None
    | Start(request: Json, uniqueId: string)   // ("Start", request, unique_id)
    | GetStatus                                // ("GetStatus", 0)
    | GetUpdate                                // ("GetUpdate", 0)
    | Unknown                                  // a tuple with any other first element

  /** What the worker puts on its result queue. */
  datatype Reply = NoneReply | Started | Status(status: ManagerStatus) | UpdateReply(update: Update) | ErrorReply

  datatype WorkerState = WorkerState(held: Held, observed: nat)

  datatype StepOutcome = StepOutcome(state: WorkerState, reply: Option<Reply>, continues: bool)

  /** One turn of `main`'s loop. */
  function WorkerStep(st: WorkerState, cmd: WorkerCommand, files: string -> Option<Json>,
                      observe: nat -> Observation): (o: StepOutcome)
    // only None ends the loop, and it is answered with None
    ensures !o.continues <==> cmd == StopWorker
    ensures cmd == StopWorker ==> o.reply == Some(NoneReply) && o.state == st
    // every command of a known kind is answered exactly once; an unknown one is not answered
    ensures o.reply.None? <==> cmd == Unknown
    // a manager that was never set up is IDLE, and has nothing to report
    ensures cmd == GetStatus && st.held.Fresh? ==> o.reply == Some(Status(Idle))
    ensures cmd == GetUpdate && !st.held.SetUp? ==> o.reply == Some(ErrorReply)
    // a Start always replaces the manager, and is answered "Started" exactly when the run is set up
    ensures cmd.Start? ==> (o.reply == Some(Started) <==> o.state.held.SetUp?)
    ensures cmd.Start? && o.reply != Some(Started) ==> o.reply == Some(ErrorReply) && o.state.held == Fresh
  {
    match cmd
    case StopWorker => StepOutcome(st, Some(NoneReply), false)
    case Start(request, uniqueId) =>
      (match StartSpec(request, uniqueId, files)
       case Err(_) => StepOutcome(st.(held := Fresh), Some(ErrorReply), true)
       case Ok(h) => StepOutcome(st.(held := h), Some(Started), true))
    case GetStatus =>
      (match st.held
       case NoManager => StepOutcome(st, Some(ErrorReply), true)
       case Fresh => StepOutcome(st, Some(Status(Idle)), true)
       case SetUp(_, _, _, _) => StepOutcome(st.(observed := st.observed + 1), Some(Status(observe(st.observed).state)), true))
    case GetUpdate =>
      if st.held.SetUp? then
        var reply := match GetUpdateSpec(st.held, observe(st.observed))
                     case Err(_) => ErrorReply
                     case Ok(u) => UpdateReply(u);
        StepOutcome(st.(observed := st.observed + 1), Some(reply), true)
      else StepOutcome(st, Some(ErrorReply), true)
    case Unknown => StepOutcome(st, None, true)
  }

  /** The parameters `BenchmarkManager.__init__` declares after `self`. */
  const MANAGER_INIT_PARAMS: seq<string> := ["benchmark_start_time"]

  /**
   * One turn of `main` as written: "Start" first builds the manager with
   * `BenchmarkManager()`, binding no argument to the constructor's
   * parameters. A call that cannot bind raises TypeError before anything is
   * assigned; the command is answered "Error" and the worker keeps what it
   * held. A call that binds goes on as the corrected turn does.
   */
  function WorkerStepAsWritten(st: WorkerState, cmd: WorkerCommand, files: string -> Option<Json>,
                               observe: nat -> Observation): (o: StepOutcome)
    ensures cmd.Start? ==> o == StepOutcome(st, Some(ErrorReply), true)
    ensures !cmd.Start? ==> o == WorkerStep(st, cmd, files, observe)
  {
    if !cmd.Start? then WorkerStep(st, cmd, files, observe)
    else
      match BindPositional<real>(MANAGER_INIT_PARAMS, [])
      case Err(_) => StepOutcome(st, Some(ErrorReply), true)
      case Ok(_) => WorkerStep(st, cmd, files, observe)
  }

  /** The corrected call, with the start time, binds it to the constructor's one parameter. */
  lemma ManagerCallBinds(startTime: real)
    ensures BindPositional(MANAGER_INIT_PARAMS, [startTime]) == Ok([("benchmark_start_time", startTime)])
  {
    var r := BindPositional(MANAGER_INIT_PARAMS, [startTime]);
    assert r.Ok? && |r.value| == 1 && r.value[0] == ("benchmark_start_time", startTime);
    assert r.value == [("benchmark_start_time", startTime)];
  }

  /** A request that names one configured AI and an existing case set. */
  const SampleRequest: Json :=
    JObj([("caseSetId", JStr("cs_1")), ("aiImplementations", JArr([JStr("babylon_toy_ai")]))])

  /**
   * As written, a well-formed "Start" is answered "Error" and no run is set
   * up, where the manager built with its start time sets the run up.
   */
  lemma StartFailsAsWritten(files: string -> Option<Json>, observe: nat -> Observation)
    requires files("cs_1") == Some(JArr([]))
    ensures WorkerStepAsWritten(WorkerState(NoManager, 0), Start(SampleRequest, "1"), files, observe).reply
            == Some(ErrorReply)
    ensures WorkerStep(WorkerState(NoManager, 0), Start(SampleRequest, "1"), files, observe).reply == Some(Started)
  {
    SampleCaseSetId();
    SampleAis();
  }

  /** The sample's case-set id passes validation. */
  lemma SampleCaseSetId()
    ensures Index(SampleRequest, "caseSetId") == Ok(JStr("cs_1")) && ValidCaseSetId("cs_1")
  {
    assert forall i :: 0 <= i < 4 ==> "cs_1"[i] in CASE_SET_ID_CHARS by {
      assert CASE_SET_ID_CHARS[2] == 'c' && CASE_SET_ID_CHARS[18] == 's';
      assert CASE_SET_ID_CHARS[27] == '1' && CASE_SET_ID_CHARS[36] == '_';
    }
  }

  /** The sample's one AI is a configured one. */
  lemma SampleAis()
    ensures RequestedAis(SampleRequest).Ok?
  {
    assert Index(SampleRequest, "aiImplementations") == Ok(JArr([JStr("babylon_toy_ai")]));
    assert Keys(AI_TYPES_ENDPOINTS)[5] == "babylon_toy_ai";
    assert CheckAi(JStr("babylon_toy_ai")) == Ok("babylon_toy_ai");
    assert CheckAis([JStr("babylon_toy_ai")]).Ok?;
  }

  function ReplyList(r: Option<Reply>): seq<Reply> {
    match r
    case Some(x) => [x]
    case None => []
  }

  /** How `main` ends: the worker's state, its replies, and how many commands it took. */
  datatype Trace = Trace(state: WorkerState, replies: seq<Reply>, taken: nat, stopped: bool)

  /** `main` from the i-th command on. */
  function WorkerRun(st: WorkerState, cmds: seq<WorkerCommand>, i: nat, files: string -> Option<Json>,
                     observe: nat -> Observation): (t: Trace)
    requires i <= |cmds|
    ensures i + t.taken <= |cmds|
    decreases |cmds| - i
  {
    if i == |cmds| then Trace(st, [], 0, false)
    else
      var o := WorkerStep(st, cmds[i], files, observe);
      if !o.continues then Trace(o.state, ReplyList(o.reply), 1, true)
      else
        var rest := WorkerRun(o.state, cmds, i + 1, files, observe);
        Trace(rest.state, ReplyList(o.reply) + rest.replies, rest.taken + 1, rest.stopped)
  }

  /**
   * Trace `t` of the commands from the i-th on took commands up to the first
   * None, answered it last with None and stopped, or took every command.
   */
  predicate StopsAtNone(cmds: seq<WorkerCommand>, i: nat, t: Trace) {
    && i + t.taken <= |cmds|
    && (forall k :: i <= k < i + t.taken && cmds[k] == StopWorker ==> t.stopped && k == i + t.taken - 1)
    && (t.stopped ==> t.taken > 0 && cmds[i + t.taken - 1] == StopWorker
                      && |t.replies| > 0 && t.replies[|t.replies| - 1] == NoneReply)
    && (!t.stopped ==> i + t.taken == |cmds|)
  }

  /** Taking one more command that is not None in front of such a trace gives one again. */
  lemma StopsAtNoneCons(cmds: seq<WorkerCommand>, i: nat, first: seq<Reply>, rest: Trace)
    requires i < |cmds| && cmds[i] != StopWorker
    requires StopsAtNone(cmds, i + 1, rest)
    ensures StopsAtNone(cmds, i, Trace(rest.state, first + rest.replies, rest.taken + 1, rest.stopped))
  {
    var t := Trace(rest.state, first + rest.replies, rest.taken + 1, rest.stopped);
    if rest.stopped {
      assert t.replies[|t.replies| - 1] == rest.replies[|rest.replies| - 1];
    }
  }

  /**
   * `main` takes commands up to the first None, answers it last with None and
   * stops; without a None it takes every command.
   */
  lemma {:induction false} WorkerRunStopsAtNone(st: WorkerState, cmds: seq<WorkerCommand>, i: nat,
                                                files: string -> Option<Json>, observe: nat -> Observation)
    requires i <= |cmds|
    ensures StopsAtNone(cmds, i, WorkerRun(st, cmds, i, files, observe))
    decreases |cmds| - i
  {
    if i < |cmds| {
      var o := WorkerStep(st, cmds[i], files, observe);
      if o.continues {
        WorkerRunStopsAtNone(o.state, cmds, i + 1, files, observe);
        StopsAtNoneCons(cmds, i, ReplyList(o.reply), WorkerRun(o.state, cmds, i + 1, files, observe));
      }
    }
  }

  /** The worker process. */
  class BenchmarkManagerWorker {
    const files: string -> Option<Json>
    const observe: nat -> Observation
    var held: Held
    var observed: nat
    var replies: seq<Reply>       // what it has put on its result queue

    constructor (files: string -> Option<Json>, observe: nat -> Observation)
      ensures this.files == files && this.observe == observe
      ensures held == NoManager && observed == 0 && replies == []
    {
      this.files := files;
      this.observe := observe;
      held, observed, replies := NoManager, 0, [];
    }

    function State(): WorkerState
      reads this
    {
      WorkerState(held, observed)
    }

    /** The "Start" branch, after the fresh manager was made. */
    method StartRun(request: Json, uniqueId: string) returns (r: Result<Held>)
      ensures r == StartSpec(request, uniqueId, files)
    {
      var rawId := Index(request, "caseSetId");
      if rawId.Err? {
        return Err(rawId.error);
      }
      var text := CaseSetIdText(rawId.value);
      if text.None? {
        return Err(AssertionError);
      }
      var caseSetId := ParseValidateCaseSetId(text.value);
      if caseSetId.Err? {
        return Err(caseSetId.error);
      }
      var names := CheckRequestedAis(request);
      if names.Err? {
        return Err(names.error);
      }
      var cases := files(caseSetId.value);
      if cases.None? {
        return Err(FileNotFoundError);
      }
      var total := PyLen(cases.value);
      if total.Err? {
        return Err(total.error);
      }
      return Ok(SetUp(uniqueId, caseSetId.value, BenchmarkedAis(names.value), total.value));
    }

    /** The loop over the requested AIs: each must be configured. */
    method CheckRequestedAis(request: Json) returns (r: Result<seq<string>>)
      ensures r == RequestedAis(request)
    {
      var rawAis := Index(request, "aiImplementations");
      if rawAis.Err? {
        return Err(rawAis.error);
      }
      var items := Iterated(rawAis.value);
      if items.Err? {
        return Err(items.error);
      }
      var ais := items.value;
      var names: seq<string> := [];
      for i := 0 to |ais|
        invariant CheckAis(ais[..i]) == Ok(names)
      {
        var checked := CheckAi(ais[i]);
        if checked.Err? {
          CheckAiFails(ais, i, names);
          return Err(checked.error);
        }
        CheckAiAppends(ais, i, names);
        names := names + [checked.value];
      }
      assert ais[..|ais|] == ais;
      return Ok(names);
    }

    /** The collecting loop of "GetUpdate": the report rows grouped by AI name. */
    method CollectReports(rows: seq<(AIKey, AIReport)>) returns (collected: Dict<string, seq<ReportSummary>>)
      ensures collected == Grouped(SummaryPairs(rows))
    {
      collected := [];
      for i := 0 to |rows|
        invariant collected == Grouped(SummaryPairs(rows[..i]))
      {
        assert SummaryPairs(rows[..i + 1])[..i] == SummaryPairs(rows[..i]);
        collected := SetDefaultAppend(collected, rows[i].0.aiName, Summary(rows[i].1));
      }
      assert rows[..|rows|] == rows;
    }

    /** The nested loop of "GetUpdate" over the loaded results: each AI's "result"s, case by case. */
    method ResultsByAi(results: Json) returns (r: Result<Dict<string, seq<Json>>>)
      ensures r == ResultsByAiSpec(results)
    {
      if !Truthy(results) {
        return Ok([]);
      }
      if !results.JObj? {
        return Err(AttributeError);
      }
      var cases := results.fields;
      var byAi: Dict<string, seq<Json>> := [];
      ghost var pairs: seq<(string, Json)> := [];
      for i := 0 to |cases|
        invariant CaseResultPairs(cases[..i]) == Ok(pairs) && byAi == Grouped(pairs)
      {
        CaseResultPairsSnoc(cases, i);
        if !cases[i].1.JObj? {
          CaseErrorStands(cases, i + 1);
          return Err(AttributeError);
        }
        var grown := AddCaseResults(byAi, cases[i].1.fields);
        if grown.Err? {
          CaseErrorStands(cases, i + 1);
          return Err(grown.error);
        }
        GroupedThenMore(pairs, EntryResults(cases[i].1.fields).value);
        pairs := pairs + EntryResults(cases[i].1.fields).value;
        byAi := grown.value;
      }
      assert cases[..|cases|] == cases;
      return Ok(byAi);
    }

    /** "GetUpdate" on a set-up manager, through the read `obs`. */
    method ReadUpdate(obs: Observation) returns (r: Result<Update>)
      requires held.SetUp?
      ensures r == GetUpdateSpec(held, obs)
    {
      if obs.report.None? {
        return Err(AttributeError);
      }
      var report := obs.report.value;
      var collected := CollectReports(obs.aiRows);
      var resultsByAi: Dict<string, seq<Json>> := [];
      if obs.state == Idle && obs.resultsFile.Some? {
        var byAi := ResultsByAi(obs.resultsFile.value);
        if byAi.Err? {
          return Err(byAi.error);
        }
        resultsByAi := byAi.value;
      }
      return Ok(Update(held.benchmarkId, held.caseSetId, report.totalCases, report.currentCaseIndex,
                       report.currentCaseId, collected, resultsByAi, obs.logs));
    }

    /** One turn of `main`: handle the command and put its reply, if any. */
    method Handle(cmd: WorkerCommand) returns (continues: bool)
      modifies this`held, this`observed, this`replies
      ensures var o := WorkerStep(old(State()), cmd, files, observe);
        && State() == o.state && replies == old(replies) + ReplyList(o.reply) && continues == o.continues
    {
      match cmd {
      case StopWorker =>
        replies := replies + [NoneReply];
        return false;
      case Start(request, uniqueId) =>
        held := Fresh;
        var r := StartRun(request, uniqueId);
        if r.Err? {
          replies := replies + [ErrorReply];
        } else {
          held := r.value;
          replies := replies + [Started];
        }
      case GetStatus =>
        if held.NoManager? {
          replies := replies + [ErrorReply];
        } else if held.Fresh? {
          replies := replies + [Status(Idle)];
        } else {
          replies := replies + [Status(observe(observed).state)];
          observed := observed + 1;
        }
      case GetUpdate =>
        if held.SetUp? {
          var u := ReadUpdate(observe(observed));
          replies := replies + [if u.Err? then ErrorReply else UpdateReply(u.value)];
          observed := observed + 1;
        } else {
          replies := replies + [ErrorReply];
        }
      case Unknown =>
      }
      continues := true;
    }

    /** `main`: handle commands until None; `taken` is how many it took off the queue. */
    method Serve(commands: seq<WorkerCommand>) returns (taken: nat)
      modifies this`held, this`observed, this`replies
      ensures var t := WorkerRun(old(State()), commands, 0, files, observe);
        && State() == t.state && replies == old(replies) + t.replies && taken == t.taken
    {
      var i := 0;
      while i < |commands|
        invariant i <= |commands|
        invariant var t := WorkerRun(old(State()), commands, 0, files, observe);
          var rest := WorkerRun(State(), commands, i, files, observe);
          && t.state == rest.state && old(replies) + t.replies == replies + rest.replies
          && t.taken == i + rest.taken && t.stopped == rest.stopped
      {
        ghost var before := replies;
        ghost var st := State();
        var continues := Handle(commands[i]);
        if !continues {
          WorkerRunStops(st, commands, i, files, observe);
          return i + 1;
        }
        WorkerRunContinues(st, commands, i, files, observe, before);
        i := i + 1;
      }
      return i;
    }
  }

  /** A command that stops `main` is the last one it takes. */
  lemma WorkerRunStops(st: WorkerState, cmds: seq<WorkerCommand>, i: nat, files: string -> Option<Json>,
                       observe: nat -> Observation)
    requires i < |cmds| && !WorkerStep(st, cmds[i], files, observe).continues
    ensures var o := WorkerStep(st, cmds[i], files, observe);
      WorkerRun(st, cmds, i, files, observe) == Trace(o.state, ReplyList(o.reply), 1, true)
  {
  }

  /** A command after which `main` goes on: its reply comes before those of the rest. */
  lemma WorkerRunContinues(st: WorkerState, cmds: seq<WorkerCommand>, i: nat, files: string -> Option<Json>,
                           observe: nat -> Observation, before: seq<Reply>)
    requires i < |cmds| && WorkerStep(st, cmds[i], files, observe).continues
    ensures var o := WorkerStep(st, cmds[i], files, observe);
      var rest := WorkerRun(o.state, cmds, i + 1, files, observe);
      var t := WorkerRun(st, cmds, i, files, observe);
      && t.state == rest.state && t.taken == rest.taken + 1 && t.stopped == rest.stopped
      && before + t.replies == (before + ReplyList(o.reply)) + rest.replies
  {
  }

  /** One more case of the results. */
  lemma CaseResultPairsSnoc(cases: Dict<string, Json>, i: nat)
    requires i < |cases|
    ensures CaseResultPairs(cases[..i + 1]) ==
      match CaseResultPairs(cases[..i])
      case Err(e) => Err(e)
      case Ok(ps) =>
        match cases[i].1
        case JObj(entries) =>
          (match EntryResults(entries)
           case Err(e) => Err(e)
           case Ok(qs) => Ok(ps + qs))
        case _ => Err(AttributeError)
  {
    assert cases[..i + 1][..i] == cases[..i];
  }

  /** The inner loop: one case's entries, appended under their AI names. */
  method AddCaseResults(byAi: Dict<string, seq<Json>>, entries: Dict<string, Json>)
    returns (r: Result<Dict<string, seq<Json>>>)
    ensures EntryResults(entries).Err? ==> r == Err(EntryResults(entries).error)
    ensures EntryResults(entries).Ok? ==> r == Ok(AppendAll(byAi, EntryResults(entries).value))
  {
    var acc := byAi;
    ghost var inner: seq<(string, Json)> := [];
    for j := 0 to |entries|
      invariant EntryResults(entries[..j]) == Ok(inner) && acc == AppendAll(byAi, inner)
    {
      var v := Index(entries[j].1, "result");
      if v.Err? {
        EntryStepFails(entries, j, inner);
        return Err(v.error);
      }
      var x := (entries[j].0, v.value);
      EntryStepAppends(entries, j, inner);
      AppendAllSnoc(byAi, inner, x);
      acc := SetDefaultAppend(acc, x.0, x.1);
      inner := inner + [x];
    }
    assert entries[..|entries|] == entries;
    return Ok(acc);
  }

  /** One more entry of a case's results. */
  lemma EntryResultsSnoc(entries: Dict<string, Json>, j: nat)
    requires j < |entries|
    ensures EntryResults(entries[..j + 1]) ==
      match EntryResults(entries[..j])
      case Err(e) => Err(e)
      case Ok(ps) =>
        match Index(entries[j].1, "result")
        case Err(e) => Err(e)
        case Ok(v) => Ok(ps + [(entries[j].0, v)])
  {
    assert entries[..j + 1][..j] == entries[..j];
  }

  /** Once a prefix of the requested AIs fails validation, the whole validation fails the same way. */
  lemma {:induction false} PrefixErrorStands(ais: seq<Json>, n: nat, e: Exception)
    requires n <= |ais| && CheckAis(ais[..n]) == Err(e)
    ensures CheckAis(ais) == Err(e)
    decreases |ais| - n
  {
    if n < |ais| {
      CheckAisErrorStep(ais, n);
      PrefixErrorStands(ais, n + 1, e);
    } else {
      assert ais[..n] == ais;
    }
  }

  /** An AI that fails its check fails the whole check with its error. */
  lemma {:induction false} CheckAiFails(ais: seq<Json>, i: nat, names: seq<string>)
    requires i < |ais| && CheckAis(ais[..i]) == Ok(names) && CheckAi(ais[i]).Err?
    ensures CheckAis(ais) == Err(CheckAi(ais[i]).error)
  {
    CheckAiFailsPrefix(ais, i, names);
    PrefixErrorStands(ais, i + 1, CheckAi(ais[i]).error);
  }

  lemma {:induction false} CheckAiFailsPrefix(ais: seq<Json>, i: nat, names: seq<string>)
    requires i < |ais| && CheckAis(ais[..i]) == Ok(names) && CheckAi(ais[i]).Err?
    ensures CheckAis(ais[..i + 1]) == Err(CheckAi(ais[i]).error)
  {
    var p := ais[..i + 1];
    assert p[..|p| - 1] == ais[..i] && p[|p| - 1] == ais[i];
  }

  /** An AI that passes its check adds its name. */
  lemma {:induction false} CheckAiAppends(ais: seq<Json>, i: nat, names: seq<string>)
    requires i < |ais| && CheckAis(ais[..i]) == Ok(names) && CheckAi(ais[i]).Ok?
    ensures CheckAis(ais[..i + 1]) == Ok(names + [CheckAi(ais[i]).value])
  {
    var p := ais[..i + 1];
    assert p[..|p| - 1] == ais[..i] && p[|p| - 1] == ais[i];
  }

  /** A failed prefix stays failed when one more AI is checked. */
  lemma {:induction false} CheckAisErrorStep(ais: seq<Json>, n: nat)
    requires n < |ais| && CheckAis(ais[..n]).Err?
    ensures CheckAis(ais[..n + 1]) == CheckAis(ais[..n])
  {
    assert ais[..n + 1][..n] == ais[..n];
  }

  /** An entry without a "result" fails the whole case with its error. */
  lemma EntryStepFails(entries: Dict<string, Json>, j: nat, inner: seq<(string, Json)>)
    requires j < |entries| && EntryResults(entries[..j]) == Ok(inner) && Index(entries[j].1, "result").Err?
    ensures EntryResults(entries) == Err(Index(entries[j].1, "result").error)
  {
    EntryResultsSnoc(entries, j);
    EntryErrorStands(entries, j + 1);
  }

  /** An entry with a "result" adds its AI name and that result. */
  lemma EntryStepAppends(entries: Dict<string, Json>, j: nat, inner: seq<(string, Json)>)
    requires j < |entries| && EntryResults(entries[..j]) == Ok(inner) && Index(entries[j].1, "result").Ok?
    ensures EntryResults(entries[..j + 1]) == Ok(inner + [(entries[j].0, Index(entries[j].1, "result").value)])
  {
    EntryResultsSnoc(entries, j);
  }

  lemma {:induction false} EntryErrorStands(entries: Dict<string, Json>, n: nat)
    requires n <= |entries| && EntryResults(entries[..n]).Err?
    ensures EntryResults(entries) == EntryResults(entries[..n])
    decreases |entries| - n
  {
    if n < |entries| {
      assert entries[..n + 1][..n] == entries[..n];
      EntryErrorStands(entries, n + 1);
    } else {
      assert entries[..n] == entries;
    }
  }

  lemma {:induction false} CaseErrorStands(cases: Dict<string, Json>, n: nat)
    requires n <= |cases| && CaseResultPairs(cases[..n]).Err?
    ensures CaseResultPairs(cases) == CaseResultPairs(cases[..n])
    decreases |cases| - n
  {
    if n < |cases| {
      assert cases[..n + 1][..n] == cases[..n];
      CaseErrorStands(cases, n + 1);
    } else {
      assert cases[..n] == cases;
    }
  }
}
