/**
 * The evaluator's API functions and the module-level state they share: the
 * case-set files under data/, the running benchmark workers
 * (`BENCHMARK_MANAGERS`) and whether each was fully started
 * (`BENCHMARK_MANAGERS_IS_FULLY_RUNNING`).
 *
 * A worker is a process with a command queue and a result queue. Here each
 * worker is the command loop of EvaluatorWorker, stepped when a command is
 * put, together with the replies on its result queue that nobody has taken
 * yet. Whether a reply arrives within a `get`'s timeout, what the case
 * generator answers, and the time the ids are made from are parameters.
 */
module EvaluatorApi {
  import opened Wrappers
  import opened Dicts
  import opened JsonValues
  import opened Text
  import opened BenchmarkProtocol
  import opened EvaluatorWorker

  /** LIMIT_MAX_NUM_RUNNING_BENCHMARKS */
  const LIMIT_MAX_NUM_RUNNING_BENCHMARKS: nat := 10

  /** At most this many cases per generated case set. */
  const MAX_GENERATED_CASES: int := 200

  // ---------------------------------------------------------------- ids

  /** `get_unique_id`: the text of `time.time()` with its point replaced by '_'. */
  function UniqueId(stamp: string): string {
    ReplaceAll(stamp, ".", "_")
  }

  /** Every character of `s.replace(pat, rep)` comes from s or from rep. */
  lemma {:induction false} ReplaceAllChars(s: string, pat: string, rep: string)
    requires |pat| > 0
    ensures forall c :: c in ReplaceAll(s, pat, rep) ==> c in s || c in rep
    decreases |s|
  {
    if |s| >= |pat| {
      if s[..|pat|] == pat {
        ReplaceAllChars(s[|pat|..], pat, rep);
        forall c | c in s[|pat|..] ensures c in s {
          var i :| 0 <= i < |s[|pat|..]| && s[|pat|..][i] == c;
          assert s[|pat| + i] == c;
        }
      } else {
        ReplaceAllChars(s[1..], pat, rep);
        assert forall c :: c in s[1..] ==> c in s;
      }
    }
  }

  /**
   * The text of a time stamp is digits and a point, so the ids made from it
   * pass `parse_validate_caseSetId`: a generated case set can be extracted.
   */
  lemma UniqueIdValid(stamp: string)
    requires forall i :: 0 <= i < |stamp| ==> IsDigit(stamp[i]) || stamp[i] == '.'
    ensures ValidCaseSetId(UniqueId(stamp))
  {
    var id := UniqueId(stamp);
    ReplaceAllChars(stamp, ".", "_");
    forall i | 0 <= i < |id| ensures id[i] in CASE_SET_ID_CHARS {
      assert id[i] in id;
      if id[i] == '_' {
        assert CASE_SET_ID_CHARS[36] == '_';
      } else {
        assert id[i] in stamp;
        var j :| 0 <= j < |stamp| && stamp[j] == id[i];
        DotNotLeft(stamp, i);
        DigitAllowed(id[i]);
      }
    }
  }

  lemma DigitAllowed(c: char)
    requires IsDigit(c)
    ensures c in CASE_SET_ID_CHARS
  {
    assert CASE_SET_ID_CHARS[26 + DigitValue(c)] == c;
  }

  /** Replacing a one-character pattern leaves none of it. */
  lemma {:induction false} ReplaceAllRemoves(s: string, pat: char, rep: char)
    requires pat != rep
    ensures forall i :: 0 <= i < |ReplaceAll(s, [pat], [rep])| ==> ReplaceAll(s, [pat], [rep])[i] != pat
    decreases |s|
  {
    if |s| >= 1 {
      ReplaceAllRemoves(s[1..], pat, rep);
      var tail := ReplaceAll(s[1..], [pat], [rep]);
      if s[..1] == [pat] {
        assert ReplaceAll(s, [pat], [rep]) == [rep] + tail;
      } else {
        assert ReplaceAll(s, [pat], [rep]) == [s[0]] + tail;
        assert s[0] != pat;
      }
    }
  }

  lemma DotNotLeft(stamp: string, i: nat)
    requires i < |UniqueId(stamp)|
    ensures UniqueId(stamp)[i] != '.'
  {
    ReplaceAllRemoves(stamp, '.', '_');
  }

  // ---------------------------------------------------------------- case sets

  /** What one `requests.get` to the case generator gives: it raised, or an answer whose body may not be JSON. */
  datatype CaseResponse =
    | CaseRequestRaised
    | CaseAnswer(status: int, body: Option<Json>)

  /** The answer is a 200 with a JSON body: the one response a case is read from. */
  predicate Delivers(resp: CaseResponse) {
    resp.CaseAnswer? && resp.status == 200 && resp.body.Some?
  }

  /**
   * What reading a case from a response that does not deliver raises: the
   * request's own exception, the status assertion, or `request.json()` on a
   * body that is not JSON.
   */
  function FetchError(resp: CaseResponse): Exception {
    if resp.CaseRequestRaised? then RequestException
    else if resp.status != 200 then AssertionError
    else ValueError
  }

  /** Request j is the first of the requests that does not deliver. */
  predicate FailsFirstAt(net: nat -> CaseResponse, j: nat) {
    !Delivers(net(j)) && forall i :: 0 <= i < j ==> Delivers(net(i))
  }

  /** e is what the first of the first n requests that does not deliver raises. */
  predicate FirstFetchError(net: nat -> CaseResponse, n: nat, e: Exception) {
    exists j :: 0 <= j < n && FailsFirstAt(net, j) && e == FetchError(net(j))
  }

  /** `int(request["numCases"])` */
  function NumCases(request: Json): Result<int> {
    match Index(request, "numCases")
    case Err(e) => Err(e)
    case Ok(v) => PyInt(v)
  }

  /**
   * The cases read from the first n requests, or the error of the first one
   * that does not deliver a case.
   */
  function FetchedCases(net: nat -> CaseResponse, n: nat): (r: Result<seq<Json>>)
    ensures r.Ok? <==> forall i :: 0 <= i < n ==> Delivers(net(i))
    ensures r.Ok? ==> |r.value| == n && forall i :: 0 <= i < n ==> r.value[i] == net(i).body.value
    ensures r.Err? ==> FirstFetchError(net, n, r.error)
  {
    if n == 0 then Ok([])
    else
      match FetchedCases(net, n - 1)
      case Err(e) => Err(e)
      case Ok(cases) =>
        if Delivers(net(n - 1)) then Ok(cases + [net(n - 1).body.value])
        else
          assert FailsFirstAt(net, n - 1);
          Err(FetchError(net(n - 1)))
  }

  /** `generate_case_set` before it writes the file: the number of cases, then every case. */
  function GeneratedCases(request: Json, net: nat -> CaseResponse): (r: Result<seq<Json>>)
    ensures r.Ok? <==> NumCases(request).Ok? && 0 < NumCases(request).value <= MAX_GENERATED_CASES
                       && forall i :: 0 <= i < NumCases(request).value ==> Delivers(net(i))
    ensures r.Ok? ==> |r.value| == NumCases(request).value
    ensures NumCases(request).Err? ==> r == Err(NumCases(request).error)
    ensures NumCases(request).Ok? && !(0 < NumCases(request).value <= MAX_GENERATED_CASES) ==> r == Err(AssertionError)
    ensures NumCases(request).Ok? && 0 < NumCases(request).value <= MAX_GENERATED_CASES && r.Err? ==>
      FirstFetchError(net, NumCases(request).value, r.error)
  {
    match NumCases(request)
    case Err(e) => Err(e)
    case Ok(n) =>
      if !(n > 0 && n <= MAX_GENERATED_CASES) then Err(AssertionError)
      else FetchedCases(net, n)
  }

  /** `extract_case_set` on the case-set files as they are. */
  function ExtractCaseSet(caseFiles: map<string, Json>, caseSetId: Json): (r: Result<Json>)
    ensures r.Ok? ==> CaseSetIdText(caseSetId).Some? && ValidCaseSetId(CaseSetIdText(caseSetId).value)
    ensures CaseSetIdText(caseSetId).Some? && !ValidCaseSetId(CaseSetIdText(caseSetId).value) ==>
      r == Err(AssertionError)
  {
    match CaseSetIdText(caseSetId)
    case None => Err(AssertionError)
    case Some(id) =>
      if !ValidCaseSetId(id) then Err(AssertionError)
      else if id !in caseFiles then Err(FileNotFoundError)
      else Ok(JObj([("cases", caseFiles[id])]))
  }

  /** A case set written under a valid id is extracted with exactly the cases written. */
  lemma GenerateThenExtract(caseFiles: map<string, Json>, id: string, cases: seq<Json>)
    requires ValidCaseSetId(id)
    ensures ExtractCaseSet(caseFiles[id := JArr(cases)], JStr(id)) == Ok(JObj([("cases", JArr(cases))]))
  {
  }

  /** `list_case_sets` on what the glob of the data directory finds: the names that are not the database or burnt cases. */
  function ListedIds(path: string, entries: seq<string>): (ids: seq<string>)
    requires |path| > 0
    ensures |ids| <= |entries|
    decreases |entries|
  {
    if entries == [] then []
    else
      var e := entries[|entries| - 1];
      ListedIds(path, entries[..|entries| - 1])
        + (if !Contains(e, ".db") && !Contains(e, "burnt_cases") then [ReplaceAll(e, path, "")] else [])
  }

  /** The data directory's path with its trailing separator, as the glob is built from it. */
  function DataPath(fileDir: string): string {
    fileDir + "/data/"
  }

  function ListCaseSets(fileDir: string, entries: seq<string>): Json {
    var ids := ListedIds(DataPath(fileDir), entries);
    JObj([("existing_case_sets", JArr(seq(|ids|, i requires 0 <= i < |ids| => JObj([("id", JStr(ids[i]))]))))])
  }

  /**
   * An entry `<data>/<name>` is listed as `name` exactly when neither the
   * database nor the burnt cases are named in it (the name holds no copy of
   * the path).
   */
  lemma {:induction false} ListedIdsExact(path: string, entries: seq<string>, name: string)
    requires |path| > 0 && !Contains(name, path)
    requires path + name in entries
    requires !Contains(path + name, ".db") && !Contains(path + name, "burnt_cases")
    ensures name in ListedIds(path, entries)
    decreases |entries|
  {
    var e := entries[|entries| - 1];
    var rest := entries[..|entries| - 1];
    if e == path + name {
      assert (path + name)[..|path|] == path;
      assert (path + name)[|path|..] == name;
      assert ReplaceAll(path + name, path, "") == name;
    } else {
      assert path + name in rest;
      ListedIdsExact(path, rest, name);
    }
  }

  /** Nothing whose entry names the database or the burnt cases is listed. */
  lemma {:induction false} ListedIdsSkip(path: string, entries: seq<string>, id: string)
    requires |path| > 0
    requires id in ListedIds(path, entries)
    ensures exists e :: e in entries && !Contains(e, ".db") && !Contains(e, "burnt_cases")
                        && ReplaceAll(e, path, "") == id
    decreases |entries|
  {
    var e := entries[|entries| - 1];
    var rest := entries[..|entries| - 1];
    if id in ListedIds(path, rest) {
      ListedIdsSkip(path, rest, id);
      var e' :| e' in rest && !Contains(e', ".db") && !Contains(e', "burnt_cases") && ReplaceAll(e', path, "") == id;
      assert e' in entries;
    } else {
      assert e in entries;
    }
  }

  /** `list_all_ai_implementations`: the configured AIs by name, in configuration order. */
  function ListAllAiImplementations(): Json {
    var names := Keys(AI_TYPES_ENDPOINTS);
    JObj([("ai_implementations", JArr(seq(|names|, i requires 0 <= i < |names| => JObj([("name", JStr(names[i]))]))))])
  }

  /** Every AI the API lists is one a "Start" accepts. */
  lemma ListedAisAccepted()
    ensures var items := ListAllAiImplementations().fields[0].1.items;
      forall i :: 0 <= i < |items| ==>
        Index(items[i], "name").Ok? && CheckAi(Index(items[i], "name").value).Ok?
  {
    var names := Keys(AI_TYPES_ENDPOINTS);
    var items := ListAllAiImplementations().fields[0].1.items;
    forall i | 0 <= i < |items|
      ensures Index(items[i], "name").Ok? && CheckAi(Index(items[i], "name").value).Ok?
    {
      assert items[i] == JObj([("name", JStr(names[i]))]);
      assert Keys(items[i].fields)[0] == "name";
      assert names[i] in names;
    }
  }

  // ---------------------------------------------------------------- workers

  /** A value of `BENCHMARK_MANAGERS`: "PLACEHOLDER", or a worker process with its queues. */
  datatype ManagerEntry =
    | Placeholder
    | Worker(state: WorkerState, pending: seq<Reply>)   // pending: replies on its result queue not yet taken

  datatype CreateReply = CreatedManager(benchmarkManagerId: string) | TooBusy

  /** The case-set files as the worker reads them. */
  function FilesOf(caseFiles: map<string, Json>): string -> Option<Json> {
    id => if id in caseFiles then Some(caseFiles[id]) else None
  }

  /**
   * One entry of `create_benchmark_manager`'s loop: a worker is sent
   * "GetStatus"; when a reply arrives within the timeout, it is taken and
   * counts unless it is IDLE. `counted` says whether it counted.
   */
  function PollEntry(id: string, e: ManagerEntry, arrived: bool, caseFiles: map<string, Json>,
                     observe: string -> nat -> Observation): (r: (ManagerEntry, bool))
    ensures e.Placeholder? ==> r == (e, false)
    ensures r.0.Placeholder? == e.Placeholder?
    // a worker that has no reply waiting counts exactly when its own answer is not IDLE
    ensures e.Worker? && e.pending == [] && arrived ==>
      r.1 == (WorkerStep(e.state, GetStatus, FilesOf(caseFiles), observe(id)).reply != Some(Status(Idle)))
      && r.0.pending == []
  {
    match e
    case Placeholder => (e, false)
    case Worker(st, pending) =>
      var o := WorkerStep(st, GetStatus, FilesOf(caseFiles), observe(id));
      var q := pending + ReplyList(o.reply);
      if arrived && q != [] then (Worker(o.state, q[1..]), q[0] != Status(Idle))
      else (Worker(o.state, q), false)
  }

  /** The entries after the loop. */
  function Polled(d: Dict<string, ManagerEntry>, arrived: string -> bool, caseFiles: map<string, Json>,
                  observe: string -> nat -> Observation): (r: Dict<string, ManagerEntry>)
    ensures Keys(r) == Keys(d)
    ensures forall i :: 0 <= i < |d| ==> r[i].1 == PollEntry(d[i].0, d[i].1, arrived(d[i].0), caseFiles, observe).0
  {
    seq(|d|, i requires 0 <= i < |d| => (d[i].0, PollEntry(d[i].0, d[i].1, arrived(d[i].0), caseFiles, observe).0))
  }

  /** How many of the entries the loop counts as running. */
  function RunningCount(d: Dict<string, ManagerEntry>, arrived: string -> bool, caseFiles: map<string, Json>,
                        observe: string -> nat -> Observation): nat
    decreases |d|
  {
    if d == [] then 0
    else
      var last := d[|d| - 1];
      RunningCount(d[..|d| - 1], arrived, caseFiles, observe)
        + (if PollEntry(last.0, last.1, arrived(last.0), caseFiles, observe).1 then 1 else 0)
  }

  /** How many entries are workers rather than placeholders. */
  function WorkerCount(d: Dict<string, ManagerEntry>): nat
    decreases |d|
  {
    if d == [] then 0 else WorkerCount(d[..|d| - 1]) + (if d[|d| - 1].1.Worker? then 1 else 0)
  }

  /** Placeholders are never counted, so no more entries are running than there are workers. */
  lemma {:induction false} RunningAtMostWorkers(d: Dict<string, ManagerEntry>, arrived: string -> bool,
                                                caseFiles: map<string, Json>, observe: string -> nat -> Observation)
    ensures RunningCount(d, arrived, caseFiles, observe) <= WorkerCount(d)
    decreases |d|
  {
    if d != [] {
      RunningAtMostWorkers(d[..|d| - 1], arrived, caseFiles, observe);
    }
  }

  /** Both registries are real dicts and name the same benchmarks. */
  ghost predicate Registered(managers: Dict<string, ManagerEntry>, fullyRunning: Dict<string, bool>) {
    && DistinctKeys(managers) && DistinctKeys(fullyRunning)
    && forall k :: HasKey(managers, k) <==> HasKey(fullyRunning, k)
  }

  /** Registering a benchmark in both, or replacing its entries, keeps them agreeing. */
  lemma RegisteredPut(managers: Dict<string, ManagerEntry>, fullyRunning: Dict<string, bool>, id: string,
                      e: ManagerEntry, running: bool)
    requires Registered(managers, fullyRunning)
    ensures Registered(Put(managers, id, e), Put(fullyRunning, id, running))
  {
    var m, f := Put(managers, id, e), Put(fullyRunning, id, running);
    PutHasKey(managers, id, e);
    PutHasKey(fullyRunning, id, running);
    forall k ensures HasKey(m, k) <==> HasKey(f, k) {
      assert HasKey(m, k) <==> HasKey(managers, k) || k == id;
      assert HasKey(f, k) <==> HasKey(fullyRunning, k) || k == id;
    }
  }

  /** Replacing a registered benchmark's worker keeps the registries agreeing. */
  lemma RegisteredReplace(managers: Dict<string, ManagerEntry>, fullyRunning: Dict<string, bool>, id: string,
                          e: ManagerEntry)
    requires Registered(managers, fullyRunning) && HasKey(managers, id)
    ensures Registered(Put(managers, id, e), fullyRunning)
  {
    PutHasKey(managers, id, e);
  }

  /** Forgetting a benchmark in both keeps them agreeing. */
  lemma RegisteredRemove(managers: Dict<string, ManagerEntry>, fullyRunning: Dict<string, bool>, id: string)
    requires Registered(managers, fullyRunning)
    ensures Registered(Remove(managers, id), Remove(fullyRunning, id))
  {
    var m, f := Remove(managers, id), Remove(fullyRunning, id);
    forall k ensures HasKey(m, k) <==> HasKey(f, k) {
      assert HasKey(m, k) <==> HasKey(managers, k) && k != id;
      assert HasKey(f, k) <==> HasKey(fullyRunning, k) && k != id;
    }
  }

  /** Polling the workers keeps the benchmarks registered. */
  lemma RegisteredPolled(managers: Dict<string, ManagerEntry>, fullyRunning: Dict<string, bool>,
                         arrived: string -> bool, caseFiles: map<string, Json>, observe: string -> nat -> Observation)
    requires Registered(managers, fullyRunning)
    ensures Registered(Polled(managers, arrived, caseFiles, observe), fullyRunning)
  {
    var p := Polled(managers, arrived, caseFiles, observe);
    assert forall k :: HasKey(p, k) <==> HasKey(managers, k);
    forall i, j | 0 <= i < j < |p| ensures p[i].0 != p[j].0 {
      assert p[i].0 == Keys(p)[i] == managers[i].0;
      assert p[j].0 == Keys(p)[j] == managers[j].0;
    }
  }

  /**
   * A new worker process for benchmark `id` taking its first command,
   * "Start": it answers "Started" exactly when it set the run up, and
   * "Error" otherwise.
   */
  function StartedWorker(request: Json, id: string, caseFiles: map<string, Json>,
                         observe: string -> nat -> Observation): (o: StepOutcome)
    ensures o.reply.Some? && o.continues
    ensures o.reply == Some(Started) <==> o.state.held.SetUp?
    ensures o.reply != Some(Started) ==> o.reply == Some(ErrorReply)
  {
    WorkerStep(WorkerState(NoManager, 0), Start(request, id), FilesOf(caseFiles), observe(id))
  }

  /** The evaluator service's module-level state. */
  class Evaluator {
    const observe: string -> nat -> Observation   // what each benchmark's worker reads of its manager
    var caseFiles: map<string, Json>                // data/<id>/cases.json
    var managers: Dict<string, ManagerEntry>        // BENCHMARK_MANAGERS
    var fullyRunning: Dict<string, bool>            // BENCHMARK_MANAGERS_IS_FULLY_RUNNING

    /** Both registries are real dicts and name the same benchmarks. */
    ghost predicate Valid()
      reads this
    {
      Registered(managers, fullyRunning)
    }

    constructor (observe: string -> nat -> Observation, caseFiles: map<string, Json>)
      ensures Valid()
      ensures this.observe == observe && this.caseFiles == caseFiles && managers == [] && fullyRunning == []
    {
      this.observe := observe;
      this.caseFiles := caseFiles;
      managers, fullyRunning := [], [];
    }

    /** `generate_case_set`: ask for every case, then write them under a fresh id. */
    method GenerateCaseSet(request: Json, net: nat -> CaseResponse, stamp: string) returns (r: Result<Json>)
      modifies this`caseFiles
      ensures r.Ok? <==> GeneratedCases(request, net).Ok?
      ensures r.Ok? ==> && r.value == JObj([("case_set_id", JStr(UniqueId(stamp)))])
                        && caseFiles == old(caseFiles)[UniqueId(stamp) := JArr(GeneratedCases(request, net).value)]
      ensures r.Err? ==> r.error == GeneratedCases(request, net).error && caseFiles == old(caseFiles)
    {
      var n := NumCases(request);
      if n.Err? {
        return Err(n.error);
      }
      if !(n.value > 0 && n.value <= MAX_GENERATED_CASES) {
        return Err(AssertionError);
      }
      var cases: seq<Json> := [];
      for i := 0 to n.value
        invariant FetchedCases(net, i) == Ok(cases)
      {
        var response := net(i);
        if !Delivers(response) {
          // raised by `requests.get`, by the status assertion or by `request.json()`
          FetchStopsAt(net, i, n.value, cases);
          return Err(FetchError(response));
        }
        cases := cases + [response.body.value];
      }
      var id := UniqueId(stamp);
      caseFiles := caseFiles[id := JArr(cases)];
      return Ok(JObj([("case_set_id", JStr(id))]));
    }

    /**
     * `create_benchmark_manager`: ask every worker for its status, count the
     * ones that answer with anything but IDLE, and refuse when more than
     * LIMIT_MAX_NUM_RUNNING_BENCHMARKS are running; otherwise register the new
     * id with a placeholder, not yet fully running.
     */
    method CreateBenchmarkManager(uniqueId: string, arrived: string -> bool) returns (r: CreateReply)
      requires Valid()
      modifies this`managers, this`fullyRunning
      ensures Valid()
      ensures var count := RunningCount(old(managers), arrived, caseFiles, observe);
        && (r == TooBusy <==> count > LIMIT_MAX_NUM_RUNNING_BENCHMARKS)
        && (r == TooBusy ==> managers == Polled(old(managers), arrived, caseFiles, observe)
                              && fullyRunning == old(fullyRunning))
        && (r != TooBusy ==>
              && r == CreatedManager(uniqueId)
              && managers == Put(Polled(old(managers), arrived, caseFiles, observe), uniqueId, Placeholder)
              && fullyRunning == Put(old(fullyRunning), uniqueId, false))
    {
      RegisteredPolled(managers, fullyRunning, arrived, caseFiles, observe);
      var polled, count := PollAll(managers, arrived);
      managers := polled;
      if count > LIMIT_MAX_NUM_RUNNING_BENCHMARKS {
        return TooBusy;
      }
      RegisteredPut(managers, fullyRunning, uniqueId, Placeholder, false);
      managers := Put(managers, uniqueId, Placeholder);
      fullyRunning := Put(fullyRunning, uniqueId, false);
      return CreatedManager(uniqueId);
    }

    /** The loop of `create_benchmark_manager` over the registered benchmarks. */
    method PollAll(d: Dict<string, ManagerEntry>, arrived: string -> bool)
      returns (polled: Dict<string, ManagerEntry>, count: nat)
      ensures polled == Polled(d, arrived, caseFiles, observe)
      ensures count == RunningCount(d, arrived, caseFiles, observe)
    {
      polled, count := [], 0;
      for i := 0 to |d|
        invariant polled == Polled(d[..i], arrived, caseFiles, observe)
        invariant count == RunningCount(d[..i], arrived, caseFiles, observe)
      {
        assert d[..i + 1][..i] == d[..i];
        var entry := PollEntry(d[i].0, d[i].1, arrived(d[i].0), caseFiles, observe);
        polled := polled + [(d[i].0, entry.0)];
        if entry.1 {
          count := count + 1;
        }
      }
      assert d[..|d|] == d;
    }

    /**
     * `run_case_set_against_ais`: start a fresh worker for the benchmark id,
     * send it "Start", wait for its reply, and mark the benchmark fully running.
     */
    method RunCaseSetAgainstAis(request: Json) returns (r: Result<Reply>)
      requires Valid()
      modifies this`managers, this`fullyRunning
      ensures Valid()
      ensures r.Ok? <==> Index(request, "benchmarkManagerId").Ok? && Index(request, "benchmarkManagerId").value.JStr?
      ensures r.Err? ==> managers == old(managers) && fullyRunning == old(fullyRunning)
      ensures r.Ok? ==> var id := Index(request, "benchmarkManagerId").value.s;
        var o := StartedWorker(request, id, caseFiles, observe);
        && Some(r.value) == o.reply
        && managers == Put(old(managers), id, Worker(o.state, []))
        && fullyRunning == Put(old(fullyRunning), id, true)
    {
      var raw := Index(request, "benchmarkManagerId");
      if raw.Err? {
        return Err(raw.error);
      }
      if !raw.value.JStr? {
        return Err(TypeError);
      }
      var id := raw.value.s;
      var o := StartedWorker(request, id, caseFiles, observe);
      Register(id, o.state);
      return Ok(o.reply.value);
    }

    /** The worker for `id`, having taken "Start", is registered; the benchmark is then fully running. */
    method Register(id: string, worker: WorkerState)
      requires Valid()
      modifies this`managers, this`fullyRunning
      ensures Valid()
      ensures managers == Put(old(managers), id, Worker(worker, []))
      ensures fullyRunning == Put(old(fullyRunning), id, true)
    {
      RegisteredPut(managers, fullyRunning, id, Worker(worker, []), true);
      managers := Put(managers, id, Worker(worker, []));
      fullyRunning := Put(fullyRunning, id, true);
    }

    /**
     * `report_update`: send "GetUpdate" to the benchmark's worker and take a
     * reply. Once the reply carries results, the worker is sent None and the
     * benchmark is forgotten.
     */
    method ReportUpdate(request: Json) returns (r: Result<Update>)
      requires Valid()
      modifies this`managers, this`fullyRunning
      ensures Valid()
      ensures (r, managers, fullyRunning) == ReportUpdateSpec(old(managers), old(fullyRunning), request, caseFiles, observe)
    {
      ReportUpdateRegistered(managers, fullyRunning, request, caseFiles, observe);
      var raw := Index(request, "benchmarkId");
      if raw.Err? {
        return Err(raw.error);
      }
      if !raw.value.JStr? {
        return Err(TypeError);
      }
      var id := raw.value.s;
      if !HasKey(fullyRunning, id) || !HasKey(managers, id) {
        return Err(KeyError);
      }
      var entry := Get(managers, id).value;
      if entry.Placeholder? {
        return Err(AttributeError);
      }
      var o := WorkerStep(entry.state, GetUpdate, FilesOf(caseFiles), observe(id));
      var queue := entry.pending + ReplyList(o.reply);
      var reply := queue[0];
      managers := Put(managers, id, Worker(o.state, queue[1..]));
      if !reply.UpdateReply? {
        return Err(TypeError);
      }
      if |reply.update.resultsByAi| > 0 {
        managers := Remove(managers, id);
        fullyRunning := Remove(fullyRunning, id);
      }
      return Ok(reply.update);
    }
  }

  /**
   * `report_update` on the registries: the lookups that raise, the worker's
   * step on "GetUpdate", the reply taken off its queue, and the benchmark
   * forgotten once its results are in.
   */
  function ReportUpdateSpec(managers: Dict<string, ManagerEntry>, fullyRunning: Dict<string, bool>, request: Json,
                            caseFiles: map<string, Json>, observe: string -> nat -> Observation)
    : (Result<Update>, Dict<string, ManagerEntry>, Dict<string, bool>)
    requires Registered(managers, fullyRunning)
  {
    match Index(request, "benchmarkId")
    case Err(e) => (Err(e), managers, fullyRunning)
    case Ok(raw) =>
      if !raw.JStr? then (Err(TypeError), managers, fullyRunning)
      else if !HasKey(fullyRunning, raw.s) || !HasKey(managers, raw.s) then (Err(KeyError), managers, fullyRunning)
      else
        var id := raw.s;
        var entry := Get(managers, id).value;
        if entry.Placeholder? then (Err(AttributeError), managers, fullyRunning)
        else
          var o := WorkerStep(entry.state, GetUpdate, FilesOf(caseFiles), observe(id));
          var queue := entry.pending + ReplyList(o.reply);
          var managers' := Put(managers, id, Worker(o.state, queue[1..]));
          if !queue[0].UpdateReply? then (Err(TypeError), managers', fullyRunning)
          else if |queue[0].update.resultsByAi| > 0 then
            PutHasKey(managers, id, Worker(o.state, queue[1..]));
            (Ok(queue[0].update), Remove(managers', id), Remove(fullyRunning, id))
          else (Ok(queue[0].update), managers', fullyRunning)
  }

  /** `report_update` keeps both registries naming the same benchmarks. */
  lemma ReportUpdateRegistered(managers: Dict<string, ManagerEntry>, fullyRunning: Dict<string, bool>, request: Json,
                               caseFiles: map<string, Json>, observe: string -> nat -> Observation)
    requires Registered(managers, fullyRunning)
    ensures var (_, m, f) := ReportUpdateSpec(managers, fullyRunning, request, caseFiles, observe);
      Registered(m, f)
  {
    var raw := Index(request, "benchmarkId");
    if raw.Ok? && raw.value.JStr? && HasKey(fullyRunning, raw.value.s) {
      var id := raw.value.s;
      var entry := Get(managers, id).value;
      if entry.Worker? {
        var o := WorkerStep(entry.state, GetUpdate, FilesOf(caseFiles), observe(id));
        var queue := entry.pending + ReplyList(o.reply);
        var managers' := Put(managers, id, Worker(o.state, queue[1..]));
        RegisteredReplace(managers, fullyRunning, id, Worker(o.state, queue[1..]));
        if queue[0].UpdateReply? && |queue[0].update.resultsByAi| > 0 {
          RegisteredRemove(managers', fullyRunning, id);
        }
      }
    }
  }

  /**
   * A request without a string id, or for a benchmark that is not
   * registered or not yet started, raises and changes nothing.
   */
  lemma ReportUpdateRefuses(managers: Dict<string, ManagerEntry>, fullyRunning: Dict<string, bool>, request: Json,
                            caseFiles: map<string, Json>, observe: string -> nat -> Observation)
    requires Registered(managers, fullyRunning)
    requires var raw := Index(request, "benchmarkId");
      raw.Err? || !raw.value.JStr? || !HasKey(fullyRunning, raw.value.s)
      || Get(managers, raw.value.s) == Some(Placeholder)
    ensures var (r, m, f) := ReportUpdateSpec(managers, fullyRunning, request, caseFiles, observe);
      r.Err? && m == managers && f == fullyRunning
  {
  }

  /**
   * An update is returned only for a started benchmark, and the benchmark is
   * forgotten exactly when the update carries results.
   */
  lemma ReportUpdateForgets(managers: Dict<string, ManagerEntry>, fullyRunning: Dict<string, bool>, request: Json,
                            caseFiles: map<string, Json>, observe: string -> nat -> Observation)
    requires Registered(managers, fullyRunning)
    ensures var res := ReportUpdateSpec(managers, fullyRunning, request, caseFiles, observe);
      res.0.Ok? ==> var id := Index(request, "benchmarkId").value.s;
        && Get(managers, id).Some? && Get(managers, id).value.Worker?
        && (|res.0.value.resultsByAi| > 0 <==> !HasKey(res.1, id))
        && (|res.0.value.resultsByAi| > 0 <==> !HasKey(res.2, id))
  {
    var raw := Index(request, "benchmarkId");
    if raw.Ok? && raw.value.JStr? && HasKey(fullyRunning, raw.value.s) && HasKey(managers, raw.value.s) {
      var id := raw.value.s;
      var entry := Get(managers, id).value;
      if entry.Worker? {
        var o := WorkerStep(entry.state, GetUpdate, FilesOf(caseFiles), observe(id));
        var queue := entry.pending + ReplyList(o.reply);
        var managers' := Put(managers, id, Worker(o.state, queue[1..]));
        PutHasKey(managers, id, Worker(o.state, queue[1..]));
        assert HasKey(managers', id);
        if queue[0].UpdateReply? {
          var res := ReportUpdateSpec(managers, fullyRunning, request, caseFiles, observe);
          if |queue[0].update.resultsByAi| > 0 {
            assert res.1 == Remove(managers', id) && res.2 == Remove(fullyRunning, id);
          } else {
            assert res.1 == managers' && res.2 == fullyRunning;
          }
        }
      }
    }
  }

  /**
   * When no late reply is waiting on the worker's result queue, the update
   * returned is the one the worker made for this very request.
   */
  lemma ReportUpdateInSync(managers: Dict<string, ManagerEntry>, fullyRunning: Dict<string, bool>, request: Json,
                           caseFiles: map<string, Json>, observe: string -> nat -> Observation)
    requires Registered(managers, fullyRunning)
    ensures var (r, m, f) := ReportUpdateSpec(managers, fullyRunning, request, caseFiles, observe);
      r.Ok? ==> var id := Index(request, "benchmarkId").value.s;
        var e := Get(managers, id).value;
        e.pending == [] ==>
          WorkerStep(e.state, GetUpdate, FilesOf(caseFiles), observe(id)).reply == Some(UpdateReply(r.value))
  {
  }

  /**
   * The generation fails with exactly the error of the first request that
   * does not deliver: RequestException when `requests.get` raised,
   * AssertionError for a status other than 200, and ValueError when the
   * 200 answer's body is not JSON.
   */
  lemma FetchRaisesAtFirstFailure(net: nat -> CaseResponse, j: nat, n: nat)
    requires j < n && FailsFirstAt(net, j)
    ensures FetchedCases(net, n) == Err(FetchError(net(j)))
    ensures net(j).CaseRequestRaised? ==> FetchedCases(net, n) == Err(RequestException)
    ensures net(j) == CaseAnswer(200, None) ==> FetchedCases(net, n) == Err(ValueError)
  {
    FetchStopsAt(net, j, n, FetchedCases(net, j).value);
  }

  /** After i delivered cases, a request that does not deliver gives the generation its error. */
  lemma FetchStopsAt(net: nat -> CaseResponse, i: nat, n: nat, cases: seq<Json>)
    requires i < n && FetchedCases(net, i) == Ok(cases) && !Delivers(net(i))
    ensures FetchedCases(net, n) == Err(FetchError(net(i)))
  {
    assert FetchedCases(net, i + 1) == Err(FetchError(net(i)));
    FetchErrorStands(net, i + 1, n);
  }

  /** Once a request fails to deliver a case, the generation fails with that error whatever follows. */
  lemma {:induction false} FetchErrorStands(net: nat -> CaseResponse, k: nat, n: nat)
    requires k <= n && FetchedCases(net, k).Err?
    ensures FetchedCases(net, n) == FetchedCases(net, k)
    decreases n
  {
    if k < n {
      FetchErrorStands(net, k, n - 1);
    }
  }

  /** With no more workers than the limit, a new benchmark manager is always created. */
  lemma CreateWhenFewWorkers(d: Dict<string, ManagerEntry>, arrived: string -> bool, caseFiles: map<string, Json>,
                             observe: string -> nat -> Observation)
    requires WorkerCount(d) <= LIMIT_MAX_NUM_RUNNING_BENCHMARKS
    ensures RunningCount(d, arrived, caseFiles, observe) <= LIMIT_MAX_NUM_RUNNING_BENCHMARKS
  {
    RunningAtMostWorkers(d, arrived, caseFiles, observe);
  }
}
