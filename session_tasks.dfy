/**
 * A benchmarking session of the Django back end: the reporter that keeps, for
 * every case and every AI implementation, the state of that AI's answer
 * (PENDING, PROCESSING, then COMPLETED or ERRORED), the classification of
 * each AI's HTTP answer, and the stripping of the stored answers before a
 * session is returned.
 *
 * The HTTP answers and the order in which the concurrent requests complete
 * are parameters; `update_state` is recorded as the sequence of reports it
 * was given.
 */
module BenchmarkingSessions {
  import opened Wrappers
  import opened Dicts
  import opened JsonValues

  datatype StepStatus = Pending | Processing | Completed | Errored

  datatype StepError = Timeout | ServerError | BadResponse

  datatype SessionStatus = Created | Running | Intermediate | Finished

  /** One AI's answer to one case: its status, and its "error" and "value" keys when they were set. */
  datatype StepRecord = StepRecord(status: StepStatus, error: Option<StepError>, value: Option<Json>)

  const PendingRecord := StepRecord(Pending, None, None)
  const ProcessingRecord := StepRecord(Processing, None, None)

  /** `{"caseId": ..., "caseIndex": ..., "responses": {ai id: record}}` */
  datatype CaseEntry = CaseEntry(caseId: string, caseIndex: nat, responses: Dict<string, StepRecord>)

  /** The meta of one `update_state` call. */
  datatype Report = Report(responses: seq<CaseEntry>, currentCaseIndex: nat, totalCaseCount: nat)

  // ---------------------------------------------------------------- the status table

  /** `response_template`: every AI PENDING, keyed by its id. */
  function Template(aiIds: seq<string>): Dict<string, StepRecord>
    decreases |aiIds|
  {
    if aiIds == [] then [] else Put(Template(aiIds[..|aiIds| - 1]), aiIds[|aiIds| - 1], PendingRecord)
  }

  /** The template holds each AI, PENDING, and nothing else. */
  lemma {:induction false} TemplatePending(aiIds: seq<string>)
    ensures forall id :: Get(Template(aiIds), id) == if id in aiIds then Some(PendingRecord) else None
    decreases |aiIds|
  {
    if aiIds != [] {
      var prefix := aiIds[..|aiIds| - 1];
      var last := aiIds[|aiIds| - 1];
      assert aiIds == prefix + [last];
      TemplatePending(prefix);
      PutOthers(Template(prefix), last, PendingRecord);
    }
  }

  /** The template lists the AIs once each, in the order they first come. */
  lemma {:induction false} TemplateKeys(aiIds: seq<string>)
    ensures Keys(Template(aiIds)) == FirstOccurrences(aiIds)
    decreases |aiIds|
  {
    if aiIds != [] {
      var prefix := aiIds[..|aiIds| - 1];
      TemplateKeys(prefix);
    }
  }

  /** The table a reporter starts with: one entry per case, in order, every AI PENDING. */
  function InitialResponses(aiIds: seq<string>, caseIds: seq<string>): (r: seq<CaseEntry>)
    ensures |r| == |caseIds|
    ensures forall c :: 0 <= c < |r| ==> r[c] == CaseEntry(caseIds[c], c, Template(aiIds))
  {
    seq(|caseIds|, c requires 0 <= c < |caseIds| => CaseEntry(caseIds[c], c, Template(aiIds)))
  }

  /** `responses[c]["responses"][aiId] = rec` */
  function SetRecord(responses: seq<CaseEntry>, c: nat, aiId: string, rec: StepRecord): (r: seq<CaseEntry>)
    requires c < |responses|
    ensures |r| == |responses|
    ensures forall i :: 0 <= i < |r| && i != c ==> r[i] == responses[i]
    ensures r[c].caseId == responses[c].caseId && r[c].caseIndex == responses[c].caseIndex
    ensures Get(r[c].responses, aiId) == Some(rec)
    ensures forall id :: id != aiId ==> Get(r[c].responses, id) == Get(responses[c].responses, id)
  {
    PutOthers(responses[c].responses, aiId, rec);
    responses[c := responses[c].(responses := Put(responses[c].responses, aiId, rec))]
  }

  /**
   * `_update_case_status` on the table: the record of `aiId` in the current
   * case gets the new status, and the error only when one is given. With no
   * current case, a case index past the end, or an unknown AI, the lookup
   * raises and nothing changes.
   */
  function UpdatedStatus(responses: seq<CaseEntry>, caseIndex: Option<nat>, aiId: string, status: StepStatus,
                         error: Option<StepError>): (r: Result<seq<CaseEntry>>)
    ensures r.Ok? <==> caseIndex.Some? && caseIndex.value < |responses|
                       && HasKey(responses[caseIndex.value].responses, aiId)
    ensures caseIndex.None? ==> r == Err(TypeError)
    ensures caseIndex.Some? && caseIndex.value >= |responses| ==> r == Err(IndexError)
    ensures r.Ok? ==> |r.value| == |responses| && HasKey(r.value[caseIndex.value].responses, aiId)
    ensures r.Ok? ==> var c := caseIndex.value;
      var before := Get(responses[c].responses, aiId).value;
      var after := Get(r.value[c].responses, aiId).value;
      && r.value == SetRecord(responses, c, aiId, after)
      && after.status == status
      && after.value == before.value
      && after.error == (if error.Some? then error else before.error)
  {
    if caseIndex.None? then Err(TypeError)
    else if caseIndex.value >= |responses| then Err(IndexError)
    else
      var c := caseIndex.value;
      match Get(responses[c].responses, aiId)
      case None => Err(KeyError)
      case Some(rec) =>
        Ok(SetRecord(responses, c, aiId, rec.(status := status, error := if error.Some? then error else rec.error)))
  }

  /** The entry of case c: its id, its index, and a record for every AI. */
  ghost predicate EntryShaped(e: CaseEntry, c: nat, caseId: string, aiIds: seq<string>) {
    && e.caseId == caseId && e.caseIndex == c
    && forall a :: 0 <= a < |aiIds| ==> HasKey(e.responses, aiIds[a])
  }

  /** Replacing a record that exists keeps the entry's shape. */
  lemma SetRecordShaped(responses: seq<CaseEntry>, c: nat, aiId: string, rec: StepRecord, caseId: string,
                        aiIds: seq<string>)
    requires c < |responses| && EntryShaped(responses[c], c, caseId, aiIds)
    ensures EntryShaped(SetRecord(responses, c, aiId, rec)[c], c, caseId, aiIds)
  {
    var r := SetRecord(responses, c, aiId, rec);
    forall a | 0 <= a < |aiIds| ensures HasKey(r[c].responses, aiIds[a]) {
      assert Get(responses[c].responses, aiIds[a]).Some?;
    }
  }

  /** One entry per case, in order, each with that case's id and index and a record for every AI. */
  ghost predicate TableShaped(responses: seq<CaseEntry>, caseIds: seq<string>, aiIds: seq<string>) {
    && |responses| == |caseIds|
    && forall c :: 0 <= c < |responses| ==> EntryShaped(responses[c], c, caseIds[c], aiIds)
  }

  /** Every report counts all n cases. */
  ghost predicate ReportsCount(published: seq<Report>, n: nat) {
    forall i :: 0 <= i < |published| ==> published[i].totalCaseCount == n
  }

  /** Replacing a record that exists keeps the table's shape. */
  lemma SetRecordKeepsTable(responses: seq<CaseEntry>, c: nat, aiId: string, rec: StepRecord, caseIds: seq<string>,
                            aiIds: seq<string>)
    requires TableShaped(responses, caseIds, aiIds) && c < |responses|
    ensures TableShaped(SetRecord(responses, c, aiId, rec), caseIds, aiIds)
  {
    SetRecordShaped(responses, c, aiId, rec, caseIds[c], aiIds);
  }

  /** The reporter of one benchmarking session. */
  class BenchmarkReporter {
    const aiIds: seq<string>       // str(ai_implementation.id), in query order
    const caseIds: seq<string>     // str(case.id), in query order
    var caseIndex: Option<nat>
    var responses: seq<CaseEntry>
    var published: seq<Report>     // what `update_state` was called with, in order

    /** One entry per case with that case's id and index and a record for every AI; every report counts all cases. */
    ghost predicate Valid()
      reads this
    {
      && TableShaped(responses, caseIds, aiIds)
      && ReportsCount(published, |caseIds|)
    }

    constructor (aiIds: seq<string>, caseIds: seq<string>)
      ensures Valid()
      ensures this.aiIds == aiIds && this.caseIds == caseIds
      ensures caseIndex == None && responses == InitialResponses(aiIds, caseIds) && published == []
    {
      this.aiIds, this.caseIds := aiIds, caseIds;
      caseIndex := None;
      published := [];
      new;
      var template := ResponseTemplate();
      responses := seq(|caseIds|, c requires 0 <= c < |caseIds| => CaseEntry(caseIds[c], c, template));
      TemplatePending(aiIds);
      forall c | 0 <= c < |caseIds| ensures EntryShaped(responses[c], c, caseIds[c], aiIds) {
        forall a | 0 <= a < |aiIds| ensures HasKey(template, aiIds[a]) {
          assert Get(template, aiIds[a]).Some?;
        }
      }
    }

    /** `response_template` */
    method ResponseTemplate() returns (template: Dict<string, StepRecord>)
      ensures template == Template(aiIds)
    {
      template := [];
      for i := 0 to |aiIds|
        invariant template == Template(aiIds[..i])
      {
        assert aiIds[..i + 1][..i] == aiIds[..i];
        template := Put(template, aiIds[i], PendingRecord);
      }
      assert aiIds[..|aiIds|] == aiIds;
    }

    /** `mark_begin_case` */
    method MarkBeginCase(c: nat)
      modifies this`caseIndex
      ensures caseIndex == Some(c)
    {
      caseIndex := Some(c);
    }

    /** `_update_case_status`: change the record, then publish the whole table with the cursor. */
    method UpdateCaseStatus(aiId: string, status: StepStatus, error: Option<StepError>) returns (r: Result<()>)
      requires Valid()
      modifies this`responses, this`published
      ensures Valid()
      ensures var u := UpdatedStatus(old(responses), caseIndex, aiId, status, error);
        && (r.Err? <==> u.Err?)
        && (u.Err? ==> r.error == u.error && responses == old(responses) && published == old(published))
        && (u.Ok? ==> responses == u.value
                      && published == old(published) + [Report(u.value, caseIndex.value, |caseIds|)])
    {
      var u := UpdatedStatus(responses, caseIndex, aiId, status, error);
      if u.Err? {
        return Err(u.error);
      }
      var c := caseIndex.value;
      SetRecordKeepsTable(responses, c, aiId, Get(u.value[c].responses, aiId).value, caseIds, aiIds);
      responses := u.value;
      published := published + [Report(responses, c, |caseIds|)];
      return Ok(());
    }

    /** `processing` */
    method MarkProcessing(aiId: string) returns (r: Result<()>)
      requires Valid()
      modifies this`responses, this`published
      ensures Valid()
      ensures var u := UpdatedStatus(old(responses), caseIndex, aiId, Processing, None);
        && (r.Err? <==> u.Err?)
        && (u.Err? ==> responses == old(responses) && published == old(published))
        && (u.Ok? ==> responses == u.value
                      && published == old(published) + [Report(u.value, caseIndex.value, |caseIds|)])
    {
      r := UpdateCaseStatus(aiId, Processing, None);
    }

    /**
     * `completed`: the record becomes COMPLETED and is published, and only
     * then is the answer stored under "value".
     */
    method MarkCompleted(aiId: string, response: Json) returns (r: Result<()>)
      requires Valid()
      modifies this`responses, this`published
      ensures Valid()
      ensures var u := UpdatedStatus(old(responses), caseIndex, aiId, Completed, None);
        && (r.Err? <==> u.Err?)
        && (u.Err? ==> responses == old(responses) && published == old(published))
        && (u.Ok? ==> var c := caseIndex.value;
              && responses == SetRecord(u.value, c, aiId,
                                        Get(u.value[c].responses, aiId).value.(value := Some(response)))
              && published == old(published) + [Report(u.value, c, |caseIds|)])
    {
      ghost var u := UpdatedStatus(responses, caseIndex, aiId, Completed, None);
      ghost var before := published;
      r := UpdateCaseStatus(aiId, Completed, None);
      if r.Ok? {
        var c := caseIndex.value;
        assert responses == u.value && published == before + [Report(u.value, c, |caseIds|)];
        var rec := Get(responses[c].responses, aiId).value;
        SetRecordKeepsTable(responses, c, aiId, rec.(value := Some(response)), caseIds, aiIds);
        responses := SetRecord(responses, c, aiId, rec.(value := Some(response)));
      }
    }

    /** `error` */
    method MarkError(aiId: string, e: StepError) returns (r: Result<()>)
      requires Valid()
      modifies this`responses, this`published
      ensures Valid()
      ensures var u := UpdatedStatus(old(responses), caseIndex, aiId, Errored, Some(e));
        && (r.Err? <==> u.Err?)
        && (u.Err? ==> responses == old(responses) && published == old(published))
        && (u.Ok? ==> responses == u.value
                      && published == old(published) + [Report(u.value, caseIndex.value, |caseIds|)])
    {
      r := UpdateCaseStatus(aiId, Errored, Some(e));
    }
  }

  /** A status update touches one record of one case and nothing else. */
  lemma UpdateTouchesOneRecord(responses: seq<CaseEntry>, caseIndex: Option<nat>, aiId: string, status: StepStatus,
                               error: Option<StepError>, c: nat, id: string)
    requires UpdatedStatus(responses, caseIndex, aiId, status, error).Ok?
    requires c < |responses| && (c != caseIndex.value || id != aiId)
    ensures Get(UpdatedStatus(responses, caseIndex, aiId, status, error).value[c].responses, id)
            == Get(responses[c].responses, id)
  {
  }

  // ---------------------------------------------------------------- classification

  /** What became of one solve-case request. */
  datatype HttpOutcome =
    | ReadTimedOut                      // the future raised ReadTimeout
    | RequestFailed                     // it raised another exception, which `result()` raises again
    | Answered(ok: bool, body: Json)    // a response; `ok` for a status below 400
    | AnsweredNotJson(ok: bool)         // a response whose body does not parse as JSON

  datatype Verdict = Succeeded(response: Json) | Failed(error: StepError)

  const TRIAGE_LEVELS: seq<string> := ["SC", "PC", "EC", "UNCERTAIN"]

  /**
   * The classification of one answer in `run_benchmark`. A timeout is
   * TIMEOUT, a failed status or an answer naming "error" is SERVER_ERROR, an
   * answer whose triage is not a known level is BAD_RESPONSE, and anything
   * else is COMPLETED with the answer. Other request failures, successful
   * answers whose body is not JSON (`response.json()` raises ValueError), and
   * answers that `in` or `.get` cannot be applied to, raise.
   */
  function Classify(o: HttpOutcome): (r: Result<Verdict>)
    ensures o == ReadTimedOut ==> r == Ok(Failed(Timeout))
    ensures o == RequestFailed ==> r == Err(RequestException)
    ensures o.Answered? && !o.ok ==> r == Ok(Failed(ServerError))
    ensures o.AnsweredNotJson? ==> r == if o.ok then Err(ValueError) else Ok(Failed(ServerError))
    ensures o.Answered? && o.ok && o.body.JObj? ==>
      var triage := GetOr(o.body.fields, "triage", JStr(""));
      && (HasKey(o.body.fields, "error") ==> r == Ok(Failed(ServerError)))
      && (!HasKey(o.body.fields, "error") && !(triage.JStr? && triage.s in TRIAGE_LEVELS) ==> r == Ok(Failed(BadResponse)))
      && (!HasKey(o.body.fields, "error") && triage.JStr? && triage.s in TRIAGE_LEVELS ==> r == Ok(Succeeded(o.body)))
    ensures r == Ok(Failed(BadResponse)) || (r.Ok? && r.value.Succeeded?) ==> o.Answered? && o.body.JObj?
    ensures r.Ok? && r.value.Succeeded? ==> r.value.response == o.body
  {
    match o
    case ReadTimedOut => Ok(Failed(Timeout))
    case RequestFailed => Err(RequestException)
    case AnsweredNotJson(ok) => if ok then Err(ValueError) else Ok(Failed(ServerError))
    case Answered(ok, body) =>
      if !ok then Ok(Failed(ServerError))
      else
        match HasMember(body, "error")
        case Err(e) => Err(e)
        case Ok(named) =>
          if named then Ok(Failed(ServerError))
          else
            match GetOrDefault(body, "triage", JStr(""))
            case Err(e) => Err(e)
            case Ok(triage) =>
              if triage.JStr? && triage.s in TRIAGE_LEVELS then Ok(Succeeded(body)) else Ok(Failed(BadResponse))
  }

  /** The record a classified answer leaves behind, once the AI was PROCESSING. */
  function Settled(v: Verdict): StepRecord {
    match v
    case Succeeded(response) => StepRecord(Completed, None, Some(response))
    case Failed(e) => StepRecord(Errored, Some(e), None)
  }

  /** `order` lists each of 0..n-1 once: the completion order of n requests. */
  predicate IsOrderOf(order: seq<nat>, n: nat) {
    && |order| == n
    && (forall i :: 0 <= i < |order| ==> order[i] < n)
    && (forall a :: 0 <= a < n ==> a in order)
    && (forall i, j :: 0 <= i < j < |order| ==> order[i] != order[j])
  }

  predicate DistinctIds(ids: seq<string>) {
    forall i, j :: 0 <= i < j < |ids| ==> ids[i] != ids[j]
  }

  /** Every AI's answer to case c was classified and its record in the entry holds the verdict. */
  ghost predicate CaseSettled(e: CaseEntry, c: nat, aiIds: seq<string>, outcome: (nat, nat) -> HttpOutcome) {
    forall a :: 0 <= a < |aiIds| ==>
      Classify(outcome(c, a)).Ok? && Get(e.responses, aiIds[a]) == Some(Settled(Classify(outcome(c, a)).value))
  }

  predicate AllClassified(n: nat, m: nat, outcome: (nat, nat) -> HttpOutcome) {
    forall c, a :: 0 <= c < n && 0 <= a < m ==> Classify(outcome(c, a)).Ok?
  }

  /** A Django benchmarking session row. */
  class BenchmarkingSession {
    var status: SessionStatus
    var responses: seq<CaseEntry>

    constructor ()
      ensures status == Created && responses == []
    {
      status, responses := Created, [];
    }
  }

  /**
   * `run_benchmark`: the session is RUNNING; for each case, every AI is
   * marked PROCESSING and asked, and each answer is classified as its
   * request completes; finally the table is saved and the session FINISHED.
   * An answer that cannot be classified ends the Celery task with the session still
   * RUNNING, and so does a session with no AI: a futures session with no
   * worker raises ValueError before any case is asked.
   */
  method RunBenchmark(session: BenchmarkingSession, aiIds: seq<string>, caseIds: seq<string>,
                      outcome: (nat, nat) -> HttpOutcome, completion: nat -> seq<nat>)
    returns (r: Result<()>, reporter: BenchmarkReporter)
    requires DistinctIds(aiIds)
    requires forall c :: IsOrderOf(completion(c), |aiIds|)
    modifies session
    ensures fresh(reporter) && reporter.Valid()
    ensures r.Ok? <==> aiIds != [] && AllClassified(|caseIds|, |aiIds|, outcome)
    ensures aiIds == [] ==> r == Err(ValueError)
    ensures r.Err? ==> session.status == Running && session.responses == old(session.responses)
    ensures r.Ok? ==> && session.status == Finished && session.responses == reporter.responses
                      && |reporter.published| == 2 * |aiIds| * |caseIds|
                      && |session.responses| == |caseIds|
                      && forall c :: 0 <= c < |caseIds| ==> CaseSettled(session.responses[c], c, aiIds, outcome)
  {
    session.status := Running;
    reporter := new BenchmarkReporter(aiIds, caseIds);
    if aiIds == [] {
      return Err(ValueError), reporter;
    }
    r := RunCases(reporter, outcome, completion);
    if r.Ok? {
      session.responses := reporter.responses;
      session.status := Finished;
    }
  }

  /** The loop over the cases of `run_benchmark`. */
  method RunCases(reporter: BenchmarkReporter, outcome: (nat, nat) -> HttpOutcome, completion: nat -> seq<nat>)
    returns (r: Result<()>)
    requires reporter.Valid() && reporter.responses == InitialResponses(reporter.aiIds, reporter.caseIds)
    requires reporter.published == []
    requires DistinctIds(reporter.aiIds)
    requires forall c :: IsOrderOf(completion(c), |reporter.aiIds|)
    modifies reporter`caseIndex, reporter`responses, reporter`published
    ensures reporter.Valid()
    ensures r.Ok? <==> AllClassified(|reporter.caseIds|, |reporter.aiIds|, outcome)
    ensures r.Ok? ==> && |reporter.published| == 2 * |reporter.aiIds| * |reporter.caseIds|
                      && CasesDone(reporter.responses, reporter.aiIds, reporter.caseIds, outcome, |reporter.caseIds|)
  {
    var aiIds, caseIds := reporter.aiIds, reporter.caseIds;
    for c := 0 to |caseIds|
      invariant reporter.Valid()
      invariant AllClassified(c, |aiIds|, outcome)
      invariant |reporter.published| == 2 * |aiIds| * c
      invariant CasesDone(reporter.responses, aiIds, caseIds, outcome, c)
    {
      ghost var before := reporter.responses;
      r := RunCase(reporter, c, outcome, completion(c));
      if r.Err? {
        return;
      }
      CasesStep(before, reporter.responses, aiIds, caseIds, outcome, c);
      assert 2 * |aiIds| * c + 2 * |aiIds| == 2 * |aiIds| * (c + 1);
    }
    r := Ok(());
  }

  /** The cases before c are settled, the others as the reporter made them. */
  ghost predicate CasesDone(responses: seq<CaseEntry>, aiIds: seq<string>, caseIds: seq<string>,
                            outcome: (nat, nat) -> HttpOutcome, c: nat)
    requires |responses| == |caseIds|
  {
    && (forall c' :: 0 <= c' < c && c' < |responses| ==> CaseSettled(responses[c'], c', aiIds, outcome))
    && (forall c' :: c <= c' < |responses| ==> responses[c'] == InitialResponses(aiIds, caseIds)[c'])
  }

  lemma CasesStep(before: seq<CaseEntry>, after: seq<CaseEntry>, aiIds: seq<string>, caseIds: seq<string>,
                  outcome: (nat, nat) -> HttpOutcome, c: nat)
    requires |before| == |after| == |caseIds| && c < |caseIds|
    requires CasesDone(before, aiIds, caseIds, outcome, c)
    requires forall c' :: 0 <= c' < |after| && c' != c ==> after[c'] == before[c']
    requires CaseSettled(after[c], c, aiIds, outcome)
    ensures CasesDone(after, aiIds, caseIds, outcome, c + 1)
  {
  }

  /** One case of `run_benchmark`: begin it, mark every AI PROCESSING, then classify the answers. */
  method RunCase(reporter: BenchmarkReporter, c: nat, outcome: (nat, nat) -> HttpOutcome, order: seq<nat>)
    returns (r: Result<()>)
    requires reporter.Valid() && c < |reporter.caseIds|
    requires DistinctIds(reporter.aiIds) && IsOrderOf(order, |reporter.aiIds|)
    requires reporter.responses[c] == InitialResponses(reporter.aiIds, reporter.caseIds)[c]
    modifies reporter`caseIndex, reporter`responses, reporter`published
    ensures reporter.Valid()
    ensures forall c' :: 0 <= c' < |reporter.responses| && c' != c ==> reporter.responses[c'] == old(reporter.responses[c'])
    ensures r.Ok? <==> forall a :: 0 <= a < |reporter.aiIds| ==> Classify(outcome(c, a)).Ok?
    ensures r.Ok? ==> && CaseSettled(reporter.responses[c], c, reporter.aiIds, outcome)
                      && |reporter.published| == |old(reporter.published)| + 2 * |reporter.aiIds|
  {
    reporter.MarkBeginCase(c);
    MarkAllProcessing(reporter, c);
    r := ClassifyCase(reporter, c, outcome, order);
  }

  /** The first k AIs are PROCESSING, the others still PENDING. */
  ghost predicate MarkedUpTo(e: CaseEntry, aiIds: seq<string>, k: nat) {
    && (forall a :: 0 <= a < k && a < |aiIds| ==> Get(e.responses, aiIds[a]) == Some(ProcessingRecord))
    && (forall a :: k <= a < |aiIds| ==> Get(e.responses, aiIds[a]) == Some(PendingRecord))
  }

  lemma InitialMarked(aiIds: seq<string>, caseIds: seq<string>, c: nat)
    requires c < |caseIds|
    ensures MarkedUpTo(InitialResponses(aiIds, caseIds)[c], aiIds, 0)
  {
    TemplatePending(aiIds);
  }

  /** The records of case c after one more AI is marked PROCESSING. */
  lemma ProcessingStep(before: seq<CaseEntry>, after: seq<CaseEntry>, c: nat, aiIds: seq<string>, k: nat)
    requires k < |aiIds| && DistinctIds(aiIds)
    requires UpdatedStatus(before, Some(c), aiIds[k], Processing, None) == Ok(after)
    requires MarkedUpTo(before[c], aiIds, k)
    ensures |after| == |before| && forall c' :: 0 <= c' < |before| && c' != c ==> after[c'] == before[c']
    ensures MarkedUpTo(after[c], aiIds, k + 1)
  {
    var rec := Get(after[c].responses, aiIds[k]).value;
    assert after == SetRecord(before, c, aiIds[k], rec);
    assert Get(before[c].responses, aiIds[k]) == Some(PendingRecord);
    assert rec == ProcessingRecord;
    forall a | 0 <= a < |aiIds| && a != k
      ensures Get(after[c].responses, aiIds[a]) == Get(before[c].responses, aiIds[a])
    {
      assert aiIds[a] != aiIds[k];
    }
  }

  /** The first loop of a case: every AI is marked PROCESSING, in order. */
  method MarkAllProcessing(reporter: BenchmarkReporter, c: nat)
    requires reporter.Valid() && reporter.caseIndex == Some(c) && c < |reporter.caseIds|
    requires DistinctIds(reporter.aiIds)
    requires reporter.responses[c] == InitialResponses(reporter.aiIds, reporter.caseIds)[c]
    modifies reporter`responses, reporter`published
    ensures reporter.Valid()
    ensures |reporter.published| == |old(reporter.published)| + |reporter.aiIds|
    ensures forall c' :: 0 <= c' < |reporter.responses| && c' != c ==> reporter.responses[c'] == old(reporter.responses[c'])
    ensures forall a :: 0 <= a < |reporter.aiIds| ==> Get(reporter.responses[c].responses, reporter.aiIds[a]) == Some(ProcessingRecord)
  {
    var aiIds := reporter.aiIds;
    InitialMarked(aiIds, reporter.caseIds, c);
    for k := 0 to |aiIds|
      invariant reporter.Valid()
      invariant |reporter.published| == |old(reporter.published)| + k
      invariant forall c' :: 0 <= c' < |reporter.responses| && c' != c ==> reporter.responses[c'] == old(reporter.responses[c'])
      invariant MarkedUpTo(reporter.responses[c], aiIds, k)
    {
      ProcessNext(reporter, c, k);
    }
  }

  /** One turn of the first loop: the k-th AI is marked PROCESSING. */
  method ProcessNext(reporter: BenchmarkReporter, c: nat, k: nat)
    requires reporter.Valid() && reporter.caseIndex == Some(c) && c < |reporter.caseIds|
    requires DistinctIds(reporter.aiIds) && k < |reporter.aiIds|
    requires MarkedUpTo(reporter.responses[c], reporter.aiIds, k)
    modifies reporter`responses, reporter`published
    ensures reporter.Valid()
    ensures |reporter.published| == |old(reporter.published)| + 1
    ensures forall c' :: 0 <= c' < |reporter.responses| && c' != c ==> reporter.responses[c'] == old(reporter.responses[c'])
    ensures MarkedUpTo(reporter.responses[c], reporter.aiIds, k + 1)
  {
    ghost var before := reporter.responses;
    assert Get(before[c].responses, reporter.aiIds[k]).Some?;
    var done := reporter.MarkProcessing(reporter.aiIds[k]);
    ProcessingStep(before, reporter.responses, c, reporter.aiIds, k);
  }

  /** A failed answer leaves the record ERRORED with its error and touches no other AI's record. */
  lemma ErrorStep(before: seq<CaseEntry>, after: seq<CaseEntry>, c: nat, aiIds: seq<string>, a: nat, e: StepError)
    requires a < |aiIds| && DistinctIds(aiIds) && c < |before|
    requires Get(before[c].responses, aiIds[a]) == Some(ProcessingRecord)
    requires UpdatedStatus(before, Some(c), aiIds[a], Errored, Some(e)) == Ok(after)
    ensures |after| == |before| && forall c' :: 0 <= c' < |before| && c' != c ==> after[c'] == before[c']
    ensures Get(after[c].responses, aiIds[a]) == Some(Settled(Failed(e)))
    ensures forall b :: 0 <= b < |aiIds| && b != a ==> Get(after[c].responses, aiIds[b]) == Get(before[c].responses, aiIds[b])
  {
    assert Get(after[c].responses, aiIds[a]).value == StepRecord(Errored, Some(e), None);
    forall b | 0 <= b < |aiIds| && b != a
      ensures Get(after[c].responses, aiIds[b]) == Get(before[c].responses, aiIds[b])
    {
      assert aiIds[b] != aiIds[a];
    }
  }

  /** A completed answer leaves the record COMPLETED with the answer and touches no other AI's record. */
  lemma CompletedStep(before: seq<CaseEntry>, mid: seq<CaseEntry>, after: seq<CaseEntry>, c: nat, aiIds: seq<string>,
                      a: nat, response: Json)
    requires a < |aiIds| && DistinctIds(aiIds) && c < |before|
    requires Get(before[c].responses, aiIds[a]) == Some(ProcessingRecord)
    requires UpdatedStatus(before, Some(c), aiIds[a], Completed, None) == Ok(mid)
    requires after == SetRecord(mid, c, aiIds[a], Get(mid[c].responses, aiIds[a]).value.(value := Some(response)))
    ensures |after| == |before| && forall c' :: 0 <= c' < |before| && c' != c ==> after[c'] == before[c']
    ensures Get(after[c].responses, aiIds[a]) == Some(Settled(Succeeded(response)))
    ensures forall b :: 0 <= b < |aiIds| && b != a ==> Get(after[c].responses, aiIds[b]) == Get(before[c].responses, aiIds[b])
  {
    assert Get(mid[c].responses, aiIds[a]).value == StepRecord(Completed, None, None);
    forall b | 0 <= b < |aiIds| && b != a
      ensures Get(after[c].responses, aiIds[b]) == Get(before[c].responses, aiIds[b])
    {
      assert aiIds[b] != aiIds[a];
    }
  }

  /** `reporter.error` or `reporter.completed` for a classified answer of AI `a` in case c. */
  method RecordVerdict(reporter: BenchmarkReporter, c: nat, a: nat, v: Verdict)
    requires reporter.Valid() && reporter.caseIndex == Some(c) && c < |reporter.caseIds|
    requires a < |reporter.aiIds| && DistinctIds(reporter.aiIds)
    requires Get(reporter.responses[c].responses, reporter.aiIds[a]) == Some(ProcessingRecord)
    modifies reporter`responses, reporter`published
    ensures reporter.Valid()
    ensures |reporter.published| == |old(reporter.published)| + 1
    ensures forall c' :: 0 <= c' < |reporter.responses| && c' != c ==> reporter.responses[c'] == old(reporter.responses[c'])
    ensures Get(reporter.responses[c].responses, reporter.aiIds[a]) == Some(Settled(v))
    ensures forall b :: 0 <= b < |reporter.aiIds| && b != a ==>
      Get(reporter.responses[c].responses, reporter.aiIds[b]) == Get(old(reporter.responses[c].responses), reporter.aiIds[b])
  {
    ghost var before := reporter.responses;
    var aiId := reporter.aiIds[a];
    assert HasKey(before[c].responses, aiId);
    var done;
    match v {
      case Failed(e) =>
        done := reporter.MarkError(aiId, e);
        ErrorStep(before, reporter.responses, c, reporter.aiIds, a, e);
      case Succeeded(response) =>
        done := reporter.MarkCompleted(aiId, response);
        CompletedStep(before, UpdatedStatus(before, Some(c), aiId, Completed, None).value, reporter.responses,
                      c, reporter.aiIds, a, response);
    }
  }

  /** The second loop of a case: the answers are classified in the order their requests complete. */
  method ClassifyCase(reporter: BenchmarkReporter, c: nat, outcome: (nat, nat) -> HttpOutcome, order: seq<nat>)
    returns (r: Result<()>)
    requires reporter.Valid() && reporter.caseIndex == Some(c) && c < |reporter.caseIds|
    requires DistinctIds(reporter.aiIds) && IsOrderOf(order, |reporter.aiIds|)
    requires forall a :: 0 <= a < |reporter.aiIds| ==> Get(reporter.responses[c].responses, reporter.aiIds[a]) == Some(ProcessingRecord)
    modifies reporter`responses, reporter`published
    ensures reporter.Valid()
    ensures forall c' :: 0 <= c' < |reporter.responses| && c' != c ==> reporter.responses[c'] == old(reporter.responses[c'])
    ensures r.Ok? <==> forall a :: 0 <= a < |reporter.aiIds| ==> Classify(outcome(c, a)).Ok?
    ensures r.Ok? ==> && CaseSettled(reporter.responses[c], c, reporter.aiIds, outcome)
                      && |reporter.published| == |old(reporter.published)| + |reporter.aiIds|
  {
    var aiIds := reporter.aiIds;
    for k := 0 to |order|
      invariant reporter.Valid()
      invariant |reporter.published| == |old(reporter.published)| + k
      invariant forall c' :: 0 <= c' < |reporter.responses| && c' != c ==> reporter.responses[c'] == old(reporter.responses[c'])
      invariant SettledUpTo(reporter.responses[c], c, aiIds, outcome, order, k)
      invariant WaitingFrom(reporter.responses[c], aiIds, order, k)
    {
      var a := order[k];
      var verdict := Classify(outcome(c, a));
      if verdict.Err? {
        return Err(verdict.error);
      }
      ghost var before := reporter.responses[c];
      WaitingNext(before, aiIds, order, k);
      RecordVerdict(reporter, c, a, verdict.value);
      ClassifyLoopStep(before, reporter.responses[c], c, aiIds, outcome, order, k);
    }
    SettledInOrder(reporter.responses[c], c, aiIds, outcome, order);
    return Ok(());
  }

  /** The answers of the first k requests to complete were classified and their records hold the verdicts. */
  ghost predicate SettledUpTo(e: CaseEntry, c: nat, aiIds: seq<string>, outcome: (nat, nat) -> HttpOutcome,
                              order: seq<nat>, k: nat)
    requires k <= |order| && forall i :: 0 <= i < |order| ==> order[i] < |aiIds|
  {
    forall j :: 0 <= j < k ==>
      && Classify(outcome(c, order[j])).Ok?
      && Get(e.responses, aiIds[order[j]]) == Some(Settled(Classify(outcome(c, order[j])).value))
  }

  /** The AIs whose requests have not completed yet are still PROCESSING. */
  ghost predicate WaitingFrom(e: CaseEntry, aiIds: seq<string>, order: seq<nat>, k: nat)
    requires k <= |order|
  {
    forall a :: 0 <= a < |aiIds| && a !in order[..k] ==> Get(e.responses, aiIds[a]) == Some(ProcessingRecord)
  }

  /** The next request to complete is one that was waiting. */
  lemma WaitingNext(e: CaseEntry, aiIds: seq<string>, order: seq<nat>, k: nat)
    requires IsOrderOf(order, |aiIds|) && k < |order| && WaitingFrom(e, aiIds, order, k)
    ensures Get(e.responses, aiIds[order[k]]) == Some(ProcessingRecord)
  {
    assert order[k] !in order[..k] by {
      assert forall j :: 0 <= j < k ==> order[j] != order[k];
    }
  }

  lemma ClassifyLoopStep(before: CaseEntry, after: CaseEntry, c: nat, aiIds: seq<string>,
                         outcome: (nat, nat) -> HttpOutcome, order: seq<nat>, k: nat)
    requires IsOrderOf(order, |aiIds|) && k < |order|
    requires SettledUpTo(before, c, aiIds, outcome, order, k) && WaitingFrom(before, aiIds, order, k)
    requires Classify(outcome(c, order[k])).Ok?
    requires Get(after.responses, aiIds[order[k]]) == Some(Settled(Classify(outcome(c, order[k])).value))
    requires forall b :: 0 <= b < |aiIds| && b != order[k] ==> Get(after.responses, aiIds[b]) == Get(before.responses, aiIds[b])
    ensures SettledUpTo(after, c, aiIds, outcome, order, k + 1) && WaitingFrom(after, aiIds, order, k + 1)
  {
    assert order[..k + 1] == order[..k] + [order[k]];
    forall j | 0 <= j < k ensures order[j] != order[k] {
    }
  }

  /** Once the answers were settled in a completion order, every AI's answer is settled. */
  lemma SettledInOrder(e: CaseEntry, c: nat, aiIds: seq<string>, outcome: (nat, nat) -> HttpOutcome, order: seq<nat>)
    requires IsOrderOf(order, |aiIds|) && SettledUpTo(e, c, aiIds, outcome, order, |order|)
    ensures CaseSettled(e, c, aiIds, outcome)
  {
    forall a | 0 <= a < |aiIds|
      ensures Classify(outcome(c, a)).Ok? && Get(e.responses, aiIds[a]) == Some(Settled(Classify(outcome(c, a)).value))
    {
      assert a in order;
      var j :| 0 <= j < |order| && order[j] == a;
    }
  }

  // ---------------------------------------------------------------- stripping the answers

  /** An AI's record without its "value" key. */
  function StripRecord(rec: StepRecord): StepRecord {
    rec.(value := None)
  }

  function StripEntry(e: CaseEntry): (r: CaseEntry)
    ensures r.caseId == e.caseId && r.caseIndex == e.caseIndex && Keys(r.responses) == Keys(e.responses)
    ensures forall i :: 0 <= i < |e.responses| ==> r.responses[i] == (e.responses[i].0, StripRecord(e.responses[i].1))
  {
    e.(responses := seq(|e.responses|, i requires 0 <= i < |e.responses| => (e.responses[i].0, StripRecord(e.responses[i].1))))
  }

  function Stripped(responses: seq<CaseEntry>): (r: seq<CaseEntry>)
    ensures |r| == |responses|
    ensures forall c :: 0 <= c < |r| ==> r[c] == StripEntry(responses[c])
  {
    seq(|responses|, c requires 0 <= c < |responses| => StripEntry(responses[c]))
  }

  /** `strip_values_from_responses`: delete "value" from every AI's record of every case, in place. */
  method StripValuesFromResponses(responses: array<CaseEntry>)
    modifies responses
    ensures responses[..] == Stripped(old(responses[..]))
  {
    for c := 0 to responses.Length
      invariant forall c' :: 0 <= c' < c ==> responses[c'] == StripEntry(old(responses[c']))
      invariant forall c' :: c <= c' < responses.Length ==> responses[c'] == old(responses[c'])
    {
      var entry := responses[c];
      var stripped: Dict<string, StepRecord> := [];
      for i := 0 to |entry.responses|
        invariant |stripped| == i
        invariant forall j :: 0 <= j < i ==> stripped[j] == (entry.responses[j].0, StripRecord(entry.responses[j].1))
      {
        var (id, rec) := entry.responses[i];
        if rec.value.Some? {
          rec := rec.(value := None);
        }
        stripped := stripped + [(id, rec)];
      }
      responses[c] := entry.(responses := stripped);
    }
  }

  /** After stripping no record holds a value, and every other key is as it was. */
  lemma StrippedHasNoValues(responses: seq<CaseEntry>, c: nat, id: string)
    requires c < |responses|
    ensures var before := Get(responses[c].responses, id);
      var after := Get(Stripped(responses)[c].responses, id);
      && (after.Some? <==> before.Some?)
      && (after.Some? ==> after.value == StepRecord(before.value.status, before.value.error, None))
  {
    StripGet(responses[c].responses, id);
  }

  lemma {:induction false} StripGet(d: Dict<string, StepRecord>, id: string)
    ensures Get(StripEntry(CaseEntry("", 0, d)).responses, id)
            == match Get(d, id) case None => None case Some(rec) => Some(StripRecord(rec))
  {
    if d != [] {
      var s := StripEntry(CaseEntry("", 0, d)).responses;
      var rest := StripEntry(CaseEntry("", 0, d[1..])).responses;
      assert s[1..] == rest;
      StripGet(d[1..], id);
    }
  }

  /** Stripping twice is stripping once: records without a value are left untouched. */
  lemma StripIdempotent(responses: seq<CaseEntry>)
    ensures Stripped(Stripped(responses)) == Stripped(responses)
  {
    forall c | 0 <= c < |responses|
      ensures StripEntry(StripEntry(responses[c])) == StripEntry(responses[c])
    {
      var e := StripEntry(responses[c]);
      assert StripEntry(e).responses == e.responses;
    }
  }
}
