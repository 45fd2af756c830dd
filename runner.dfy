/**
 * A benchmark runner: the process that serves one AI for the benchmark
 * manager. It receives commands on its pipe, health-checks the AI with a
 * bounded number of retries, asks it to solve cases, and puts tagged
 * messages on the shared result queue. The HTTP endpoints it calls are given
 * as two oracles, indexed by how many requests of that kind were made so far.
 */
module Runner {
  import opened Wrappers
  import opened JsonValues
  import opened Text
  import opened BenchmarkProtocol

  /** What a call to the health-check endpoint gives: an exception, or a response
      whose body is None when it is not valid JSON. */
  datatype HealthResponse =
    | RequestRaised(text: string)
    | HttpResponse(statusCode: int, body: Option<Json>)

  /** What a call to the solve-case endpoint gives. */
  datatype SolveOutcome =
    | SolveTimeout(text: string)      // requests' Timeout or ConnectTimeout
    | SolveRaised(text: string)       // any other exception
    | SolveAnswered(statusCode: int, elapsed: real, body: Option<Json>)

  /** The part of a runner that changes: the attempt counter, the number of
      requests made to each endpoint, and everything put on the queue so far. */
  datatype RunnerState = RunnerState(
    attempts: int,
    healthRequests: nat,
    solveRequests: nat,
    out: seq<Message>)

  /** How the command loop ends. */
  datatype RunEnd =
    | Terminated          // received TERMINATE
    | Crashed             // an exception left the loop
    | AwaitingCommand     // the commands ran out: `recv` blocks

  /** `_update_attempts` on the counter value: (should_retry, new counter). */
  function NextAttempts(attempts: int): (r: (bool, int))
    ensures attempts >= MAX_NUM_ATTEMPTS ==> r == (false, 1)
    ensures attempts < MAX_NUM_ATTEMPTS ==> r == (true, attempts + 1)
  {
    if attempts >= MAX_NUM_ATTEMPTS then (false, 1) else (true, attempts + 1)
  }

  /** The counter stays within 1..MAX_NUM_ATTEMPTS once it starts there. */
  lemma NextAttemptsInRange(attempts: int)
    requires 1 <= attempts <= MAX_NUM_ATTEMPTS
    ensures 1 <= NextAttempts(attempts).1 <= MAX_NUM_ATTEMPTS
    ensures NextAttempts(attempts).0 <==> NextAttempts(attempts).1 == attempts + 1
  {
  }

  function HealthMsg(id: int, r: HealthResult): Message { Message(HealthCheckSignal, id, HealthPayload(r)) }
  function SentinelMsg(id: int): Message { Message(SentinelSignal, id, NoPayload) }
  function FinalMsg(id: int, name: string): Message { Message(SentinelSignal, id, FinalPayload(name)) }

  /** The result dict `is_healthy` starts from. */
  function InitialHealthResult(name: string): HealthResult {
    HealthResult(name, JObj([]), false, None, CaseError, false, false, false,
                 HealthReport(1, CaseRunning, 0, 0, 0), [])
  }

  /** The result of the last allowed attempt when it failed. */
  function FinalFailure(name: string, line: LogLine): HealthResult {
    var r := InitialHealthResult(name);
    r.(report := r.report.(errors := 1, healthcheckStatus := CaseError), log := [line])
  }

  /** One health-check attempt: the new counter, what it puts on the queue, and whether it raises. */
  datatype AttemptOutcome = AttemptOutcome(attempts: int, emitted: seq<Message>, raised: bool)

  /** One call of the body of `is_healthy` against one endpoint response. */
  function HealthAttempt(name: string, id: int, attempts: int, resp: HealthResponse): (o: AttemptOutcome)
    // every result put on the queue is unhealthy-by-default: one health check, case status ERROR
    ensures forall m :: m in o.emitted && m.payload.HealthPayload? ==>
      m.payload.health.report.healthChecks == 1 && m.payload.health.caseStatus == CaseError
        && m.payload.health.aiName == name && !m.payload.health.healthchecked
    // an attempt that does not raise ends with a result followed by a SENTINEL
    ensures !o.raised ==>
      (|o.emitted| == 2 && o.emitted[0].signal == HealthCheckSignal && o.emitted[1] == SentinelMsg(id))
    // an attempt that raises puts at most one message, never a SENTINEL
    ensures o.raised ==> |o.emitted| <= 1 && forall m :: m in o.emitted ==> m.signal == HealthCheckSignal
    // only a successful check is healthy, and it leaves the counter as it was
    ensures forall m :: m in o.emitted && m.payload.HealthPayload? && m.payload.health.healthy ==>
      m.payload.health.report.healthcheckStatus == CaseOk && o.attempts == attempts
  {
    var base := InitialHealthResult(name);
    match resp
    case RequestRaised(text) =>
      var (retry, next) := NextAttempts(attempts);
      if retry then
        var r := base.(log := [HealthRetry(next - 1, name)]);
        AttemptOutcome(next, [HealthMsg(id, r)], true)
      else
        var r := FinalFailure(name, HealthRequestError(next, name, text));
        AttemptOutcome(next, [HealthMsg(id, r), SentinelMsg(id)], false)
    case HttpResponse(code, body) =>
      if code != 200 then
        var (retry, next) := NextAttempts(attempts);
        if body.None? then
          // `response.json()` in the log call raises before anything is put
          AttemptOutcome(next, [], true)
        else if retry then
          AttemptOutcome(next, [HealthMsg(id, base)], true)
        else
          AttemptOutcome(next, [HealthMsg(id, FinalFailure(name, HealthMaxAttempts(name))), SentinelMsg(id)], false)
      else if body.None? then
        AttemptOutcome(attempts, [], true)
      else
        match GetOrDefault(body.value, "status", JStr("Error"))
        case Err(_) =>
          // the body is JSON but not an object: `data.get` raises
          AttemptOutcome(attempts, [], true)
        case Ok(status) =>
          if status != JStr("OK") then
            var (retry, next) := NextAttempts(attempts);
            if retry then
              AttemptOutcome(next, [HealthMsg(id, base)], true)
            else
              AttemptOutcome(next, [HealthMsg(id, FinalFailure(name, HealthMaxAttempts(name))), SentinelMsg(id)], false)
          else
            var r := base.(healthy := true, report := base.report.(healthcheckStatus := CaseOk),
                           log := [HealthSuccess(name, attempts)]);
            AttemptOutcome(attempts, [HealthMsg(id, r), SentinelMsg(id)], false)
  }

  /** A 200 response whose "status" is anything but "OK", or missing, fails like a bad status code. */
  lemma StatusNotOkIsFailure(name: string, id: int, attempts: int, fields: seq<(string, Json)>)
    requires Dicts.Get(fields, "status") != Some(JStr("OK"))
    ensures var o := HealthAttempt(name, id, attempts, HttpResponse(200, Some(JObj(fields))));
      o.attempts == NextAttempts(attempts).1
      && o.raised == NextAttempts(attempts).0
      && forall m :: m in o.emitted && m.payload.HealthPayload? ==> !m.payload.health.healthy
  {
  }

  /**
   * A response that `is_healthy` counts as a failed attempt: the request raised,
   * the status code is not 200, or a 200 object's "status" is not "OK". The body
   * must be JSON, since the failure paths log `response.json()`.
   */
  predicate CountedFailure(resp: HealthResponse) {
    || resp.RequestRaised?
    || (&& resp.HttpResponse? && resp.body.Some?
        && (|| resp.statusCode != 200
            || (resp.body.value.JObj? && Dicts.Get(resp.body.value.fields, "status") != Some(JStr("OK")))))
  }

  /** The final failed attempt records one error and healthcheck status ERROR. */
  lemma FinalFailureRecordsError(name: string, id: int, resp: HealthResponse)
    requires CountedFailure(resp)
    ensures var o := HealthAttempt(name, id, MAX_NUM_ATTEMPTS, resp);
      !o.raised && o.attempts == 1
      && o.emitted[0].payload.HealthPayload?
      && o.emitted[0].payload.health.report.errors == 1
      && o.emitted[0].payload.health.report.healthcheckStatus == CaseError
      && !o.emitted[0].payload.health.healthy
  {
  }

  /** What the retry decorator around `is_healthy` does: from the given attempt number
      on, it calls the body until it returns or the 10th attempt raises. */
  datatype HealthOutcome = HealthOutcome(attempts: int, requests: nat, emitted: seq<Message>, raised: bool)

  function IsHealthySpec(name: string, id: int, net: nat -> HealthResponse,
                         attempts: int, requests: nat, attemptNumber: nat): (h: HealthOutcome)
    requires 1 <= attemptNumber <= MAX_NUM_ATTEMPTS
    ensures h.requests > requests
    ensures h.requests - requests <= MAX_NUM_ATTEMPTS + 1 - attemptNumber
    decreases MAX_NUM_ATTEMPTS - attemptNumber
  {
    var o := HealthAttempt(name, id, attempts, net(requests));
    if !o.raised || attemptNumber == MAX_NUM_ATTEMPTS then
      HealthOutcome(o.attempts, requests + 1, o.emitted, o.raised)
    else
      var rest := IsHealthySpec(name, id, net, o.attempts, requests + 1, attemptNumber + 1);
      HealthOutcome(rest.attempts, rest.requests, o.emitted + rest.emitted, rest.raised)
  }

  function Prepend(emitted: seq<Message>, h: HealthOutcome): HealthOutcome {
    h.(emitted := emitted + h.emitted)
  }

  /** One unrolling of the retry loop. */
  lemma IsHealthyUnfold(name: string, id: int, net: nat -> HealthResponse, attempts: int, requests: nat, n: nat,
                        o: AttemptOutcome)
    requires 1 <= n <= MAX_NUM_ATTEMPTS && o == HealthAttempt(name, id, attempts, net(requests))
    ensures IsHealthySpec(name, id, net, attempts, requests, n)
      == if !o.raised || n == MAX_NUM_ATTEMPTS then HealthOutcome(o.attempts, requests + 1, o.emitted, o.raised)
         else Prepend(o.emitted, IsHealthySpec(name, id, net, o.attempts, requests + 1, n + 1))
  {
  }

  lemma AppendAssoc<T>(a: seq<T>, b: seq<T>, c: seq<T>)
    ensures a + (b + c) == (a + b) + c
  {
  }

  /** An endpoint whose every response, from request `from` on, is a counted failure. */
  predicate AlwaysFails(net: nat -> HealthResponse, from: nat, count: nat) {
    forall k :: from <= k < from + count ==> CountedFailure(net(k))
  }

  /**
   * Against an endpoint that keeps failing, a check that starts with the counter
   * at c and at attempt number a (with c and a in step, a + 10 - c <= 10) makes
   * exactly 11 - c requests: each retry puts one HEALTH_CHECK message and no
   * SENTINEL, the last one puts the final result followed by a SENTINEL, and the
   * counter ends back at 1.
   */
  lemma {:induction false} FailingEndpointFrom(name: string, id: int, net: nat -> HealthResponse,
                                               c: int, requests: nat, a: nat)
    requires 1 <= c <= MAX_NUM_ATTEMPTS && 1 <= a && a - 1 <= c - 1
    requires AlwaysFails(net, requests, MAX_NUM_ATTEMPTS + 1 - c)
    ensures FailedCheck(IsHealthySpec(name, id, net, c, requests, a), id, requests, MAX_NUM_ATTEMPTS + 1 - c)
    decreases MAX_NUM_ATTEMPTS - c
  {
    if c < MAX_NUM_ATTEMPTS {
      FailingEndpointFrom(name, id, net, c + 1, requests + 1, a + 1);
      RetryThenFailedCheck(name, id, net, c, requests, a);
    } else {
      FinalFailureRecordsError(name, id, net(requests));
    }
  }

  /**
   * What a check against a failing endpoint ends with after n requests: the
   * counter back at 1, n - 1 HEALTH_CHECK messages of retries, then the final
   * result recording one error and a SENTINEL.
   */
  predicate FailedCheck(h: HealthOutcome, id: int, requests: nat, n: nat) {
    && h.requests == requests + n
    && !h.raised && h.attempts == 1
    && n >= 1 && |h.emitted| == n + 1
    && (forall k :: 0 <= k < |h.emitted| - 1 ==> h.emitted[k].signal == HealthCheckSignal)
    && h.emitted[|h.emitted| - 1] == SentinelMsg(id)
    && h.emitted[|h.emitted| - 2].payload.HealthPayload?
    && h.emitted[|h.emitted| - 2].payload.health.report.errors == 1
  }

  /** A failed request before the last attempt adds one request and one retry message. */
  lemma RetryThenFailedCheck(name: string, id: int, net: nat -> HealthResponse, c: int, requests: nat, a: nat)
    requires 1 <= c < MAX_NUM_ATTEMPTS && 1 <= a <= c && CountedFailure(net(requests))
    requires FailedCheck(IsHealthySpec(name, id, net, c + 1, requests + 1, a + 1), id, requests + 1, MAX_NUM_ATTEMPTS - c)
    ensures FailedCheck(IsHealthySpec(name, id, net, c, requests, a), id, requests, MAX_NUM_ATTEMPTS + 1 - c)
  {
    var o := HealthAttempt(name, id, c, net(requests));
    RaisedAttemptRetries(name, id, c, net(requests));
    IsHealthyUnfold(name, id, net, c, requests, a, o);
    var rest := IsHealthySpec(name, id, net, c + 1, requests + 1, a + 1);
    assert o.emitted == [o.emitted[0]];
    PrependRetry(o.emitted[0], rest);
  }

  /** A retry's HEALTH_CHECK message put before what the later attempts put. */
  lemma PrependRetry(m: Message, rest: HealthOutcome)
    requires m.signal == HealthCheckSignal && |rest.emitted| >= 2
    requires forall k :: 0 <= k < |rest.emitted| - 1 ==> rest.emitted[k].signal == HealthCheckSignal
    ensures var h := Prepend([m], rest);
      && h.requests == rest.requests && h.raised == rest.raised && h.attempts == rest.attempts
      && |h.emitted| == |rest.emitted| + 1
      && (forall k :: 0 <= k < |h.emitted| - 1 ==> h.emitted[k].signal == HealthCheckSignal)
      && h.emitted[|h.emitted| - 1] == rest.emitted[|rest.emitted| - 1]
      && h.emitted[|h.emitted| - 2] == rest.emitted[|rest.emitted| - 2]
  {
    var h := Prepend([m], rest);
    forall k | 0 <= k < |h.emitted| - 1 ensures h.emitted[k].signal == HealthCheckSignal {
      if k > 0 {
        assert h.emitted[k] == rest.emitted[k - 1];
      }
    }
  }

  /** A counted failure before the last attempt retries: the counter moves on and one message is put. */
  lemma RaisedAttemptRetries(name: string, id: int, c: int, resp: HealthResponse)
    requires 1 <= c < MAX_NUM_ATTEMPTS && CountedFailure(resp)
    ensures var o := HealthAttempt(name, id, c, resp);
      o.raised && o.attempts == c + 1 && |o.emitted| == 1 && o.emitted[0].signal == HealthCheckSignal
  {
  }

  /** The retry bound: starting from counter 1, MAX_NUM_ATTEMPTS requests, MAX_NUM_ATTEMPTS - 1
      intermediate HEALTH_CHECK messages, then the final result and one SENTINEL. */
  lemma FailingEndpoint(name: string, id: int, net: nat -> HealthResponse, requests: nat)
    requires AlwaysFails(net, requests, MAX_NUM_ATTEMPTS)
    ensures var h := IsHealthySpec(name, id, net, 1, requests, 1);
      && h.requests == requests + MAX_NUM_ATTEMPTS
      && !h.raised && h.attempts == 1
      && |h.emitted| == MAX_NUM_ATTEMPTS + 1
      && (forall k :: 0 <= k < MAX_NUM_ATTEMPTS ==> h.emitted[k].signal == HealthCheckSignal)
      && h.emitted[MAX_NUM_ATTEMPTS] == SentinelMsg(id)
  {
    FailingEndpointFrom(name, id, net, 1, requests, 1);
  }

  /** An endpoint that answers a status other than 200 with a body that is not JSON. */
  predicate AnswersNonJsonError(net: nat -> HealthResponse, from: nat, count: nat) {
    forall k :: from <= k < from + count ==>
      net(k).HttpResponse? && net(k).statusCode != 200 && net(k).body.None?
  }

  /**
   * Against an endpoint answering errors without a JSON body, every attempt
   * from attempt number c on (the counter in step with it) raises in its log
   * call before putting anything: `is_healthy` makes 11 - c requests, puts no
   * result and no SENTINEL, and raises.
   */
  lemma {:induction false} NonJsonErrorFrom(name: string, id: int, net: nat -> HealthResponse, c: int, requests: nat)
    requires 1 <= c <= MAX_NUM_ATTEMPTS
    requires AnswersNonJsonError(net, requests, MAX_NUM_ATTEMPTS + 1 - c)
    ensures var h := IsHealthySpec(name, id, net, c, requests, c);
      h.raised && h.emitted == [] && h.attempts == 1 && h.requests == requests + MAX_NUM_ATTEMPTS + 1 - c
    decreases MAX_NUM_ATTEMPTS - c
  {
    var o := HealthAttempt(name, id, c, net(requests));
    assert o.raised && o.emitted == [] && o.attempts == NextAttempts(c).1;
    IsHealthyUnfold(name, id, net, c, requests, c, o);
    if c < MAX_NUM_ATTEMPTS {
      NonJsonErrorFrom(name, id, net, c + 1, requests + 1);
    }
  }

  /**
   * A check against such an endpoint makes MAX_NUM_ATTEMPTS requests and then
   * raises out of `is_healthy` without having put an ERROR result or a SENTINEL.
   */
  lemma NonJsonErrorEndpoint(name: string, id: int, net: nat -> HealthResponse, requests: nat)
    requires AnswersNonJsonError(net, requests, MAX_NUM_ATTEMPTS)
    ensures var h := IsHealthySpec(name, id, net, 1, requests, 1);
      h.raised && h.emitted == [] && h.attempts == 1 && h.requests == requests + MAX_NUM_ATTEMPTS
  {
    NonJsonErrorFrom(name, id, net, 1, requests);
  }

  /** A successful check leaves the counter where the earlier failures put it. */
  lemma SuccessKeepsCounter(name: string, id: int, attempts: int, fields: seq<(string, Json)>)
    requires Dicts.Get(fields, "status") == Some(JStr("OK"))
    ensures var o := HealthAttempt(name, id, attempts, HttpResponse(200, Some(JObj(fields))));
      !o.raised && o.attempts == attempts
      && o.emitted[0].payload.HealthPayload? && o.emitted[0].payload.health.healthy
  {
  }

  /** `solve_case`: the result dict, or the exception that escapes it. */
  function SolveCaseSpec(name: string, caseJson: Json, outcome: SolveOutcome): (r: Result<SolveResult>)
    ensures r.Ok? ==> r.value.healthchecked && r.value.aiName == name
    ensures r.Ok? ==> (r.value.hardTimeout <==> outcome.SolveTimeout?)
    ensures r.Ok? ==> (r.value.softTimeout <==> outcome.SolveAnswered? && outcome.elapsed > SOLVE_CASE_SOFT_TIMEOUT)
    ensures r.Ok? ==> (r.value.caseStatus == CaseOk <==> outcome.SolveAnswered? && outcome.statusCode == 200)
    ensures r.Ok? ==> r.value.caseStatus != CaseRunning
    ensures r.Ok? && r.value.caseStatus == CaseOk ==> r.value.error.None? && Some(r.value.result) == outcome.body
    ensures r.Ok? && r.value.caseStatus == CaseError ==> r.value.error.Some?
    ensures r.Err? <==>
      (!(caseJson.JObj? && Dicts.HasKey(caseJson.fields, "caseData"))
       || (outcome.SolveAnswered? && outcome.statusCode == 200 && outcome.body.None?))
  {
    match Index(caseJson, "caseData")
    case Err(e) => Err(e)
    case Ok(_) =>
      var base := SolveResult(name, JObj([]), None, CaseRunning, true, false, false, [SolveStart(name)]);
      match outcome
      case SolveTimeout(text) =>
        Ok(base.(error := Some(text), caseStatus := CaseError, hardTimeout := true,
                 log := base.log + [SolveHardTimeout(name)]))
      case SolveRaised(text) =>
        Ok(base.(error := Some(text), caseStatus := CaseError,
                 log := base.log + [SolveError(name, text)]))
      case SolveAnswered(code, elapsed, body) =>
        var soft := elapsed > SOLVE_CASE_SOFT_TIMEOUT;
        var r := if soft then base.(softTimeout := true, log := base.log + [SolveSoftTimeout(name)])
                 else base;
        if code != 200 then
          var message := SolveBadStatus(name, code);
          Ok(r.(error := Some(Render(message)), caseStatus := CaseError, log := r.log + [message]))
        else if body.None? then
          Err(ValueError)
        else
          Ok(r.(result := body.value, caseStatus := CaseOk))
  }

  /** What one command does to the runner: the new state and whether the loop goes on. */
  datatype StepResult = StepResult(state: RunnerState, continues: bool)

  function RunStep(name: string, id: int, healthNet: nat -> HealthResponse, solveNet: nat -> SolveOutcome,
                   st: RunnerState, cmd: Command): (s: StepResult)
    requires cmd != Terminate
    // the queue only grows
    ensures st.out <= s.state.out
    // a command that ends the loop puts nothing itself: the final SENTINEL is the caller's
    ensures !s.continues ==> s.state.out == st.out || cmd.HealthCheck?
    // a refused SENTINEL command ends the loop
    ensures cmd == SentinelCommand ==> !s.continues && s.state == st
    // a solved case puts exactly its result and then a SENTINEL
    ensures cmd.SolveCase? && s.continues ==>
      (|s.state.out| == |st.out| + 2
       && s.state.out[|st.out|].signal == SolveCaseSignal
       && s.state.out[|st.out| + 1] == SentinelMsg(id)
       && s.state.solveRequests == st.solveRequests + 1)
  {
    match cmd
    case HealthCheck(_) =>
      var h := IsHealthySpec(name, id, healthNet, st.attempts, st.healthRequests, 1);
      StepResult(RunnerState(h.attempts, h.requests, st.solveRequests, st.out + h.emitted), !h.raised)
    case SolveCase(caseJson) =>
      (match SolveCaseSpec(name, caseJson, solveNet(st.solveRequests))
       case Err(_) => StepResult(st.(solveRequests := st.solveRequests + 1), false)
       case Ok(r) =>
         StepResult(st.(solveRequests := st.solveRequests + 1,
                        out := st.out + [Message(SolveCaseSignal, id, SolvePayload(r)), SentinelMsg(id)]), true))
    case SentinelCommand =>
      StepResult(st, false)
  }

  /** The step `run` takes on each command; TERMINATE never reaches it. */
  function StepOf(name: string, id: int, healthNet: nat -> HealthResponse, solveNet: nat -> SolveOutcome)
    : (RunnerState, Command) -> StepResult
  {
    (st: RunnerState, cmd: Command) =>
      if cmd == Terminate then StepResult(st, false) else RunStep(name, id, healthNet, solveNet, st, cmd)
  }

  /**
   * The loop of `run` from the i-th command on, for a given step: TERMINATE
   * puts the final SENTINEL and ends it, a step that raises ends it with the
   * final SENTINEL too, and running out of commands leaves it waiting.
   */
  function RunWith(step: (RunnerState, Command) -> StepResult, id: int, name: string,
                   st: RunnerState, commands: seq<Command>, i: nat): (RunnerState, RunEnd)
    requires i <= |commands|
    decreases |commands| - i
  {
    if i == |commands| then (st, AwaitingCommand)
    else if commands[i] == Terminate then (st.(out := st.out + [FinalMsg(id, name)]), Terminated)
    else
      var s := step(st, commands[i]);
      if s.continues then RunWith(step, id, name, s.state, commands, i + 1)
      else (s.state.(out := s.state.out + [FinalMsg(id, name)]), Crashed)
  }

  /** `run` from the i-th command on: the final state and how the loop ended. */
  function RunFrom(name: string, id: int, healthNet: nat -> HealthResponse, solveNet: nat -> SolveOutcome,
                   st: RunnerState, commands: seq<Command>, i: nat): (RunnerState, RunEnd)
    requires i <= |commands|
  {
    RunWith(StepOf(name, id, healthNet, solveNet), id, name, st, commands, i)
  }

  /** One command of `run` other than TERMINATE: the step, then the rest. */
  lemma RunFromUnfold(name: string, id: int, healthNet: nat -> HealthResponse, solveNet: nat -> SolveOutcome,
                      st: RunnerState, commands: seq<Command>, i: nat)
    requires i < |commands| && commands[i] != Terminate
    ensures var s := RunStep(name, id, healthNet, solveNet, st, commands[i]);
      RunFrom(name, id, healthNet, solveNet, st, commands, i)
        == if s.continues then RunFrom(name, id, healthNet, solveNet, s.state, commands, i + 1)
           else (s.state.(out := s.state.out + [FinalMsg(id, name)]), Crashed)
  {
    assert StepOf(name, id, healthNet, solveNet)(st, commands[i]) == RunStep(name, id, healthNet, solveNet, st, commands[i]);
  }

  /** Every step of `run` only adds to the result queue. */
  lemma StepOfGrows(name: string, id: int, healthNet: nat -> HealthResponse, solveNet: nat -> SolveOutcome)
    ensures forall s: RunnerState, c: Command :: s.out <= StepOf(name, id, healthNet, solveNet)(s, c).state.out
  {
    forall s: RunnerState, c: Command ensures s.out <= StepOf(name, id, healthNet, solveNet)(s, c).state.out {
      StepGrows(name, id, healthNet, solveNet, s, c);
    }
  }

  lemma StepGrows(name: string, id: int, healthNet: nat -> HealthResponse, solveNet: nat -> SolveOutcome,
                  st: RunnerState, cmd: Command)
    ensures st.out <= StepOf(name, id, healthNet, solveNet)(st, cmd).state.out
  {
    if cmd != Terminate {
      var s := RunStep(name, id, healthNet, solveNet, st, cmd);
      assert StepOf(name, id, healthNet, solveNet)(st, cmd) == s;
    }
  }

  /**
   * `run` only adds to the result queue, and unless it ran out of commands,
   * by TERMINATE or by an exception, the last thing it puts is the final
   * SENTINEL carrying the AI's name; this holds for any step that only adds
   * to the queue, as every step of `run` does (StepOfGrows).
   */
  lemma {:induction false} RunWithEndsWithFinal(step: (RunnerState, Command) -> StepResult, id: int, name: string,
                                                st: RunnerState, commands: seq<Command>, i: nat)
    requires i <= |commands|
    requires forall s: RunnerState, c: Command :: s.out <= step(s, c).state.out
    ensures var r := RunWith(step, id, name, st, commands, i);
      && st.out <= r.0.out
      && (r.1 != AwaitingCommand ==> |r.0.out| > |st.out| && r.0.out[|r.0.out| - 1] == FinalMsg(id, name))
    decreases |commands| - i
  {
    var r := RunWith(step, id, name, st, commands, i);
    if i == |commands| {
    } else if commands[i] == Terminate {
      assert r.0.out == st.out + [FinalMsg(id, name)];
      assert r.0.out[..|st.out|] == st.out;
    } else {
      var s := step(st, commands[i]);
      if s.continues {
        RunWithEndsWithFinal(step, id, name, s.state, commands, i + 1);
        PrefixTransitive(st.out, s.state.out, r.0.out);
      } else {
        var out := s.state.out + [FinalMsg(id, name)];
        assert out[..|s.state.out|] == s.state.out;
        PrefixTransitive(st.out, s.state.out, out);
      }
    }
  }

  lemma PrefixTransitive<T>(a: seq<T>, b: seq<T>, c: seq<T>)
    requires a <= b && b <= c
    ensures a <= c && |a| <= |b| <= |c|
  {
    assert b[..|a|] == a;
    assert c[..|a|] == c[..|b|][..|a|];
  }

  predicate NoFinalBetween(out: seq<Message>, lo: int, hi: int) {
    forall k :: 0 <= lo <= k < hi <= |out| ==> !out[k].payload.FinalPayload?
  }

  /**
   * However the loop is left, by TERMINATE or by an exception, the final
   * SENTINEL carrying the AI's name is put last (RunWithEndsWithFinal), and it is
   * the only one of its kind that the loop puts; when the commands run out none
   * is put.
   */
  lemma {:induction false} OneFinalSentinel(name: string, id: int, healthNet: nat -> HealthResponse,
                                            solveNet: nat -> SolveOutcome, st: RunnerState,
                                            commands: seq<Command>, i: nat)
    requires i <= |commands|
    ensures var r := RunFrom(name, id, healthNet, solveNet, st, commands, i);
      NoFinalBetween(r.0.out, |st.out|, if r.1 == AwaitingCommand then |r.0.out| else |r.0.out| - 1)
    decreases |commands| - i
  {
    if i < |commands| && commands[i] != Terminate {
      var s := RunStep(name, id, healthNet, solveNet, st, commands[i]);
      RunFromUnfold(name, id, healthNet, solveNet, st, commands, i);
      NoFinalPayloadInStep(name, id, healthNet, solveNet, st, commands[i]);
      var r := RunFrom(name, id, healthNet, solveNet, st, commands, i);
      if s.continues {
        assert r == RunFrom(name, id, healthNet, solveNet, s.state, commands, i + 1);
        OneFinalSentinel(name, id, healthNet, solveNet, s.state, commands, i + 1);
        StepOfGrows(name, id, healthNet, solveNet);
        RunWithEndsWithFinal(StepOf(name, id, healthNet, solveNet), id, name, s.state, commands, i + 1);
        assert s.state.out <= r.0.out;
      } else {
        assert r == (s.state.(out := s.state.out + [FinalMsg(id, name)]), Crashed);
      }
    }
  }

  /** A step never puts a final SENTINEL itself. */
  lemma NoFinalPayloadInStep(name: string, id: int, healthNet: nat -> HealthResponse,
                             solveNet: nat -> SolveOutcome, st: RunnerState, cmd: Command)
    requires cmd != Terminate
    ensures var s := RunStep(name, id, healthNet, solveNet, st, cmd);
      NoFinalBetween(s.state.out, |st.out|, |s.state.out|)
  {
    if cmd.HealthCheck? {
      HealthNeverFinal(name, id, healthNet, st.attempts, st.healthRequests, 1);
    }
  }

  lemma {:induction false} HealthNeverFinal(name: string, id: int, net: nat -> HealthResponse,
                                            attempts: int, requests: nat, a: nat)
    requires 1 <= a <= MAX_NUM_ATTEMPTS
    ensures HealthOnly(IsHealthySpec(name, id, net, attempts, requests, a).emitted, id)
    decreases MAX_NUM_ATTEMPTS - a
  {
    var o := HealthAttempt(name, id, attempts, net(requests));
    AttemptHealthOnly(name, id, attempts, net(requests));
    EmittedUnfold(name, id, net, attempts, requests, a);
    if o.raised && a < MAX_NUM_ATTEMPTS {
      HealthNeverFinal(name, id, net, o.attempts, requests + 1, a + 1);
      HealthOnlyConcat(o.emitted, IsHealthySpec(name, id, net, o.attempts, requests + 1, a + 1).emitted, id);
    }
  }

  /** What a check puts: what its first attempt puts, then, after a retry, what the later attempts put. */
  lemma EmittedUnfold(name: string, id: int, net: nat -> HealthResponse, attempts: int, requests: nat, a: nat)
    requires 1 <= a <= MAX_NUM_ATTEMPTS
    ensures var o := HealthAttempt(name, id, attempts, net(requests));
      IsHealthySpec(name, id, net, attempts, requests, a).emitted
        == if o.raised && a < MAX_NUM_ATTEMPTS
           then o.emitted + IsHealthySpec(name, id, net, o.attempts, requests + 1, a + 1).emitted
           else o.emitted
  {
  }

  /** Messages a health check may put: HEALTH_CHECK results and SENTINELs of this runner, never a final one. */
  predicate HealthOnly(ms: seq<Message>, id: int) {
    forall m :: m in ms ==>
      !m.payload.FinalPayload? && (m.signal == HealthCheckSignal || m == SentinelMsg(id))
      && m.runnerId == id && Tagged(m)
  }

  lemma AttemptHealthOnly(name: string, id: int, attempts: int, resp: HealthResponse)
    ensures HealthOnly(HealthAttempt(name, id, attempts, resp).emitted, id)
  {
  }

  lemma HealthOnlyConcat(a: seq<Message>, b: seq<Message>, id: int)
    requires HealthOnly(a, id) && HealthOnly(b, id)
    ensures HealthOnly(a + b, id)
  {
  }

  /** The messages of `out` from position `lo` on carry the id and the payload their signal calls for. */
  predicate TaggedFrom(out: seq<Message>, lo: int, id: int) {
    forall k :: 0 <= lo <= k < |out| ==> out[k].runnerId == id && Tagged(out[k])
  }

  lemma TaggedAppend(out: seq<Message>, more: seq<Message>, id: int)
    requires forall k :: 0 <= k < |more| ==> more[k].runnerId == id && Tagged(more[k])
    ensures TaggedFrom(out + more, |out|, id)
  {
    assert forall k :: |out| <= k < |out + more| ==> (out + more)[k] == more[k - |out|];
  }

  /** What one health check emits carries the runner's id and a health payload. */
  lemma HealthEmittedTagged(name: string, id: int, net: nat -> HealthResponse, attempts: int, requests: nat,
                            out: seq<Message>)
    ensures TaggedFrom(out + IsHealthySpec(name, id, net, attempts, requests, 1).emitted, |out|, id)
  {
    var e := IsHealthySpec(name, id, net, attempts, requests, 1).emitted;
    HealthNeverFinal(name, id, net, attempts, requests, 1);
    forall k | 0 <= k < |e| ensures e[k].runnerId == id && Tagged(e[k]) {
      assert e[k] in e;
    }
    TaggedAppend(out, e, id);
  }

  /** A step puts only messages tagged with the runner's own id and the payload their signal calls for. */
  lemma StepMessagesTagged(name: string, id: int, healthNet: nat -> HealthResponse,
                           solveNet: nat -> SolveOutcome, st: RunnerState, cmd: Command)
    requires cmd != Terminate
    ensures TaggedFrom(RunStep(name, id, healthNet, solveNet, st, cmd).state.out, |st.out|, id)
  {
    var out := RunStep(name, id, healthNet, solveNet, st, cmd).state.out;
    match cmd
    case HealthCheck(_) =>
      HealthEmittedTagged(name, id, healthNet, st.attempts, st.healthRequests, st.out);
    case SolveCase(caseJson) =>
      match SolveCaseSpec(name, caseJson, solveNet(st.solveRequests)) {
        case Err(_) =>
        case Ok(r) =>
          TaggedAppend(st.out, [Message(SolveCaseSignal, id, SolvePayload(r)), SentinelMsg(id)], id);
      }
    case SentinelCommand =>
  }

  /**
   * Every message the loop puts, the final SENTINEL included, carries the
   * runner's id and the payload its signal calls for: what the manager
   * relies on when it reads a result by its signal.
   */
  lemma {:induction false} RunMessagesTagged(name: string, id: int, healthNet: nat -> HealthResponse,
                                             solveNet: nat -> SolveOutcome, st: RunnerState,
                                             commands: seq<Command>, i: nat)
    requires i <= |commands|
    ensures TaggedFrom(RunFrom(name, id, healthNet, solveNet, st, commands, i).0.out, |st.out|, id)
    decreases |commands| - i
  {
    var r := RunFrom(name, id, healthNet, solveNet, st, commands, i);
    if i < |commands| && commands[i] != Terminate {
      var s := RunStep(name, id, healthNet, solveNet, st, commands[i]);
      RunFromUnfold(name, id, healthNet, solveNet, st, commands, i);
      StepMessagesTagged(name, id, healthNet, solveNet, st, commands[i]);
      if s.continues {
        assert r == RunFrom(name, id, healthNet, solveNet, s.state, commands, i + 1);
        RunMessagesTagged(name, id, healthNet, solveNet, s.state, commands, i + 1);
        StepOfGrows(name, id, healthNet, solveNet);
        RunWithEndsWithFinal(StepOf(name, id, healthNet, solveNet), id, name, s.state, commands, i + 1);
        PrefixTransitive(st.out, s.state.out, r.0.out);
      } else {
        assert r.0.out == s.state.out + [FinalMsg(id, name)];
      }
    }
  }

  /** The runner process, with the endpoints it calls given as oracles. */
  class BenchmarkRunner {
    const aiName: string
    const runnerId: int
    const healthNet: nat -> HealthResponse
    const solveNet: nat -> SolveOutcome
    var healthcheckAttempts: int
    var healthRequests: nat
    var solveRequests: nat
    var outQueue: seq<Message>

    ghost predicate Valid()
      reads this
    {
      1 <= healthcheckAttempts <= MAX_NUM_ATTEMPTS
    }

    function State(): RunnerState
      reads this
    {
      RunnerState(healthcheckAttempts, healthRequests, solveRequests, outQueue)
    }

    constructor (name: string, id: int, healthNet: nat -> HealthResponse, solveNet: nat -> SolveOutcome,
                 outQueue: seq<Message>)
      ensures Valid()
      ensures aiName == name && runnerId == id && this.healthNet == healthNet && this.solveNet == solveNet
      ensures State() == RunnerState(1, 0, 0, outQueue)
    {
      aiName, runnerId := name, id;
      this.healthNet, this.solveNet := healthNet, solveNet;
      healthcheckAttempts := 1;
      healthRequests, solveRequests := 0, 0;
      this.outQueue := outQueue;
    }

    /** `_update_attempts` */
    method UpdateAttempts() returns (shouldRetry: bool)
      modifies this`healthcheckAttempts
      ensures (shouldRetry, healthcheckAttempts) == NextAttempts(old(healthcheckAttempts))
    {
      if healthcheckAttempts >= MAX_NUM_ATTEMPTS {
        healthcheckAttempts := 1;
        return false;
      }
      healthcheckAttempts := healthcheckAttempts + 1;
      return true;
    }

    /** One call of the body of `is_healthy`, against the next health-check response. */
    method HealthAttemptOnce() returns (raised: bool, ghost o: AttemptOutcome)
      modifies this`healthcheckAttempts, this`healthRequests, this`outQueue
      ensures o == HealthAttempt(aiName, runnerId, old(healthcheckAttempts), healthNet(old(healthRequests)))
      ensures healthcheckAttempts == o.attempts && raised == o.raised
      ensures outQueue == old(outQueue) + o.emitted && healthRequests == old(healthRequests) + 1
    {
      var resp := healthNet(healthRequests);
      healthRequests := healthRequests + 1;
      o := HealthAttempt(aiName, runnerId, healthcheckAttempts, resp);
      var result := InitialHealthResult(aiName);
      match resp {
        case RequestRaised(text) =>
          var retry := UpdateAttempts();
          if retry {
            result := result.(log := [HealthRetry(healthcheckAttempts - 1, aiName)]);
            outQueue := outQueue + [HealthMsg(runnerId, result)];
            raised := true;
          } else {
            result := FinalFailure(aiName, HealthRequestError(healthcheckAttempts, aiName, text));
            outQueue := outQueue + [HealthMsg(runnerId, result), SentinelMsg(runnerId)];
            raised := false;
          }
        case HttpResponse(code, body) =>
          if code != 200 {
            var retry := UpdateAttempts();
            if body.None? {
              raised := true;  // `response.json()` in the log call raises first
            } else if retry {
              outQueue := outQueue + [HealthMsg(runnerId, result)];
              raised := true;
            } else {
              result := FinalFailure(aiName, HealthMaxAttempts(aiName));
              outQueue := outQueue + [HealthMsg(runnerId, result), SentinelMsg(runnerId)];
              raised := false;
            }
          } else if body.None? {
            raised := true;
          } else {
            var status := GetOrDefault(body.value, "status", JStr("Error"));
            if status.Err? {
              raised := true;
            } else if status.value != JStr("OK") {
              var retry := UpdateAttempts();
              if retry {
                outQueue := outQueue + [HealthMsg(runnerId, result)];
                raised := true;
              } else {
                result := FinalFailure(aiName, HealthMaxAttempts(aiName));
                outQueue := outQueue + [HealthMsg(runnerId, result), SentinelMsg(runnerId)];
                raised := false;
              }
            } else {
              result := result.(healthy := true, report := result.report.(healthcheckStatus := CaseOk),
                                log := [HealthSuccess(aiName, healthcheckAttempts)]);
              outQueue := outQueue + [HealthMsg(runnerId, result), SentinelMsg(runnerId)];
              raised := false;
            }
          }
      }
    }

    /**
     * `is_healthy` under its retry decorator, from the decorator's attempt
     * number on: call the body, and call it again while it raises and fewer
     * than MAX_NUM_ATTEMPTS calls were made.
     */
    method IsHealthy(attemptNumber: nat) returns (raised: bool)
      requires 1 <= attemptNumber <= MAX_NUM_ATTEMPTS
      modifies this`healthcheckAttempts, this`healthRequests, this`outQueue
      ensures var h := IsHealthySpec(aiName, runnerId, healthNet, old(healthcheckAttempts), old(healthRequests),
                                     attemptNumber);
        && healthcheckAttempts == h.attempts && healthRequests == h.requests
        && outQueue == old(outQueue) + h.emitted && raised == h.raised
      decreases MAX_NUM_ATTEMPTS - attemptNumber
    {
      ghost var o;
      raised, o := HealthAttemptOnce();
      IsHealthyUnfold(aiName, runnerId, healthNet, old(healthcheckAttempts), old(healthRequests), attemptNumber, o);
      if raised && attemptNumber < MAX_NUM_ATTEMPTS {
        ghost var q0 := outQueue;
        raised := IsHealthy(attemptNumber + 1);
        AppendAssoc(old(outQueue), o.emitted, outQueue[|q0|..]);
      }
    }

    /** `solve_case` on the next solve-case outcome. */
    method SolveCase(caseJson: Json) returns (r: Result<SolveResult>)
      modifies this`solveRequests
      ensures r == SolveCaseSpec(aiName, caseJson, solveNet(old(solveRequests)))
      ensures solveRequests == old(solveRequests) + 1
    {
      r := SolveCaseSpec(aiName, caseJson, solveNet(solveRequests));
      solveRequests := solveRequests + 1;
    }

    /** One command of `run` other than TERMINATE; false when it raised or was refused. */
    method Serve(cmd: Command) returns (goOn: bool)
      requires cmd != Terminate
      modifies this`healthcheckAttempts, this`healthRequests, this`solveRequests, this`outQueue
      ensures var s := RunStep(aiName, runnerId, healthNet, solveNet, old(State()), cmd);
        State() == s.state && goOn == s.continues
    {
      match cmd {
        case HealthCheck(_) =>
          var raised := IsHealthy(1);
          goOn := !raised;
        case SolveCase(caseJson) =>
          var r := SolveCase(caseJson);
          if r.Ok? {
            outQueue := outQueue + [Message(SolveCaseSignal, runnerId, SolvePayload(r.value)), SentinelMsg(runnerId)];
          }
          goOn := r.Ok?;
        case SentinelCommand =>
          goOn := false;
      }
    }

    /** `run`: serve the commands until TERMINATE, an exception, or the end of the input. */
    method Run(commands: seq<Command>) returns (end: RunEnd)
      modifies this`healthcheckAttempts, this`healthRequests, this`solveRequests, this`outQueue
      ensures (State(), end) == RunFrom(aiName, runnerId, healthNet, solveNet, old(State()), commands, 0)
    {
      var i := 0;
      while i < |commands| && commands[i] != Terminate
        invariant i <= |commands|
        invariant RunFrom(aiName, runnerId, healthNet, solveNet, State(), commands, i)
          == RunFrom(aiName, runnerId, healthNet, solveNet, old(State()), commands, 0)
        decreases |commands| - i
      {
        RunFromUnfold(aiName, runnerId, healthNet, solveNet, State(), commands, i);
        var goOn := Serve(commands[i]);
        if !goOn {
          outQueue := outQueue + [FinalMsg(runnerId, aiName)];
          return Crashed;
        }
        i := i + 1;
      }
      if i == |commands| {
        return AwaitingCommand;
      }
      outQueue := outQueue + [FinalMsg(runnerId, aiName)];
      end := Terminated;
    }
  }
}
