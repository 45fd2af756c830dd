/**
 * The benchmark manager's report store: one row per benchmark run (its
 * progress cursor) and one row per (run, AI, case) with the health-check
 * and solve counters. The SQLite tables become two maps keyed by their
 * primary keys, so "at most one row per key" holds by construction.
 */
module Reporter {
  import opened Wrappers
  import opened BenchmarkProtocol

  /** A ManagerReport row. */
  datatype ManagerReport = ManagerReport(
    benchmarkId: string,
    caseSetId: string,
    totalCases: int,
    currentCaseIndex: int,
    currentCaseId: Option<string>)

  /** The composite primary key of an AIReport row: (manager_report, ai_name, case_id). */
  datatype AIKey = AIKey(report: string, aiName: string, caseId: string)

  /** An AIReport row; the two status columns hold CaseStatuses values. */
  datatype AIReport = AIReport(
    healthcheckStatus: int,
    caseStatus: int,
    healthChecks: int,
    errors: int,
    softTimeouts: int,
    hardTimeouts: int)

  type ManagerTable = map<string, ManagerReport>
  type AITable = map<AIKey, AIReport>

  /** Python truthiness of an integer argument. */
  predicate IntTruthy(n: int) { n != 0 }

  /** Python truthiness of an optional string (None and "" are false). */
  predicate TextTruthy(s: Option<string>) { s.Some? && s.value != "" }

  /** The row a fresh manager report starts as: no case started yet. */
  function NewManagerReport(benchmarkId: string, caseSetId: string, totalCases: int): (r: ManagerReport)
    ensures r.benchmarkId == benchmarkId && r.currentCaseIndex == -1 && r.currentCaseId.None?
  {
    ManagerReport(benchmarkId, caseSetId, totalCases, -1, None)
  }

  /**
   * The row `create_manager_report` hands back: the new one, or, when the id
   * is already taken (the IntegrityError path), the row stored under it.
   */
  function CreatedManagerReport(t: ManagerTable, benchmarkId: string, caseSetId: string, totalCases: int)
    : (r: ManagerReport)
    ensures benchmarkId in t ==> r == t[benchmarkId]
    ensures benchmarkId !in t ==> r == NewManagerReport(benchmarkId, caseSetId, totalCases)
  {
    if benchmarkId in t then t[benchmarkId] else NewManagerReport(benchmarkId, caseSetId, totalCases)
  }

  /** The case status `create_ai_report` derives from the health report: ERROR when it counts errors. */
  function InitialCaseStatus(data: HealthReport): (status: int)
    ensures status == CaseError.Value() <==> IntTruthy(data.errors)
    ensures status == CaseRunning.Value() <==> !IntTruthy(data.errors)
  {
    if IntTruthy(data.errors) then CaseError.Value() else CaseRunning.Value()
  }

  /** `update_ai_report` on one row: the case status is always written, the health
      status only when given, and each counter whose flag is truthy goes up by one. */
  function UpdatedAIReport(row: AIReport, caseStatus: int, healthcheckStatus: Option<int>,
                           error: bool, healthChecks: bool, softTimeout: bool, hardTimeout: bool): (r: AIReport)
    ensures r.caseStatus == caseStatus
    ensures healthcheckStatus.None? ==> r.healthcheckStatus == row.healthcheckStatus
    ensures healthcheckStatus.Some? ==> r.healthcheckStatus == healthcheckStatus.value
    ensures r.errors - row.errors == (if error then 1 else 0)
    ensures r.healthChecks - row.healthChecks == (if healthChecks then 1 else 0)
    ensures r.softTimeouts - row.softTimeouts == (if softTimeout then 1 else 0)
    ensures r.hardTimeouts - row.hardTimeouts == (if hardTimeout then 1 else 0)
  {
    AIReport(
      if healthcheckStatus.Some? then healthcheckStatus.value else row.healthcheckStatus,
      caseStatus,
      if healthChecks then row.healthChecks + 1 else row.healthChecks,
      if error then row.errors + 1 else row.errors,
      if softTimeout then row.softTimeouts + 1 else row.softTimeouts,
      if hardTimeout then row.hardTimeouts + 1 else row.hardTimeouts)
  }

  /** The AI table after `update_ai_report`: the UPDATE touches the matching row, if any. */
  function UpdateAITable(t: AITable, key: AIKey, caseStatus: int, healthcheckStatus: Option<int>,
                         error: bool, healthChecks: bool, softTimeout: bool, hardTimeout: bool): (t': AITable)
    ensures t'.Keys == t.Keys
    ensures forall k :: k in t && k != key ==> t'[k] == t[k]
    ensures key in t ==>
      t'[key] == UpdatedAIReport(t[key], caseStatus, healthcheckStatus, error, healthChecks, softTimeout, hardTimeout)
  {
    if key in t then
      t[key := UpdatedAIReport(t[key], caseStatus, healthcheckStatus, error, healthChecks, softTimeout, hardTimeout)]
    else t
  }

  /** The AI table after `create_ai_report`: an INSERT, or on a duplicate key the update fallback. */
  function CreateAITable(t: AITable, key: AIKey, data: HealthReport): (t': AITable)
    ensures t'.Keys == t.Keys + {key}
    ensures forall k :: k in t && k != key ==> t'[k] == t[k]
    ensures key !in t ==> t'[key] == AIReport(data.healthcheckStatus.Value(), InitialCaseStatus(data),
      data.healthChecks, data.errors, data.softTimeouts, data.hardTimeouts)
    ensures key in t ==> t'[key] == UpdatedAIReport(t[key], InitialCaseStatus(data), Some(data.healthcheckStatus.Value()),
      IntTruthy(data.errors), IntTruthy(data.healthChecks), IntTruthy(data.softTimeouts), IntTruthy(data.hardTimeouts))
  {
    var caseStatus := InitialCaseStatus(data);
    if key !in t then
      t[key := AIReport(data.healthcheckStatus.Value(), caseStatus, data.healthChecks, data.errors,
                        data.softTimeouts, data.hardTimeouts)]
    else
      UpdateAITable(t, key, caseStatus, Some(data.healthcheckStatus.Value()), IntTruthy(data.errors),
                    IntTruthy(data.healthChecks), IntTruthy(data.softTimeouts), IntTruthy(data.hardTimeouts))
  }

  /**
   * Reporting the same health result twice for one key does not overwrite the
   * first row: the second create falls back to the update, so health_checks
   * and errors each go up by one (when the report counts them) and the
   * timeouts add up the same way.
   */
  lemma CreateTwiceIncrements(t: AITable, key: AIKey, data: HealthReport)
    requires key !in t
    requires data.healthChecks == 1 && data.softTimeouts == 0 && data.hardTimeouts == 0
    ensures var t2 := CreateAITable(CreateAITable(t, key, data), key, data);
      && t2[key].healthChecks == 2
      && t2[key].errors == data.errors + (if IntTruthy(data.errors) then 1 else 0)
      && t2[key].softTimeouts == 0 && t2[key].hardTimeouts == 0
      && t2[key].caseStatus == InitialCaseStatus(data)
      && t2.Keys == t.Keys + {key}
  {
  }

  /** Updating a key that has no row changes nothing. */
  lemma UpdateMissingKeyIsNoOp(t: AITable, key: AIKey, caseStatus: int, healthcheckStatus: Option<int>,
                               error: bool, healthChecks: bool, softTimeout: bool, hardTimeout: bool)
    requires key !in t
    ensures UpdateAITable(t, key, caseStatus, healthcheckStatus, error, healthChecks, softTimeout, hardTimeout) == t
  {
  }

  /** The counters of a row never go down, whatever is reported. */
  lemma UpdateCountersMonotone(row: AIReport, caseStatus: int, healthcheckStatus: Option<int>,
                               error: bool, healthChecks: bool, softTimeout: bool, hardTimeout: bool)
    ensures var r := UpdatedAIReport(row, caseStatus, healthcheckStatus, error, healthChecks, softTimeout, hardTimeout);
      && row.errors <= r.errors <= row.errors + 1
      && row.healthChecks <= r.healthChecks <= row.healthChecks + 1
      && row.softTimeouts <= r.softTimeouts <= row.softTimeouts + 1
      && row.hardTimeouts <= r.hardTimeouts <= row.hardTimeouts + 1
  {
  }

  /** The manager table after `update_manager_report` writes a cursor to the row with that id, if any. */
  function SetCursor(t: ManagerTable, benchmarkId: string, index: int, caseId: string): (t': ManagerTable)
    ensures t'.Keys == t.Keys
    ensures forall k :: k in t && k != benchmarkId ==> t'[k] == t[k]
    ensures benchmarkId in t ==>
      t'[benchmarkId] == t[benchmarkId].(currentCaseIndex := index, currentCaseId := Some(caseId))
  {
    if benchmarkId in t then t[benchmarkId := t[benchmarkId].(currentCaseIndex := index, currentCaseId := Some(caseId))]
    else t
  }

  /**
   * `delete_manager_report` as the source writes it, on the table: an
   * instance is deleted; an id only runs a SELECT, so the answer is whether
   * a row matched and the table stays as it was.
   */
  function DeleteManagerReportAsWritten(t: ManagerTable, instance: Option<ManagerReport>,
                                        benchmarkId: Option<string>): (r: (bool, ManagerTable))
    ensures instance.Some? ==> r == (true, t - {instance.value.benchmarkId})
    ensures instance.None? ==> r.1 == t
  {
    if instance.Some? then (true, t - {instance.value.benchmarkId})
    else if TextTruthy(benchmarkId) then (benchmarkId.value in t, t)
    else (false, t)
  }

  /** Deleting by id reports success and yet leaves the row in place. */
  lemma DeleteByIdKeepsRow(t: ManagerTable, id: string)
    requires id in t && id != ""
    ensures DeleteManagerReportAsWritten(t, None, Some(id)) == (true, t)
    ensures id in DeleteManagerReportAsWritten(t, None, Some(id)).1
  {
  }

  /** `delete_manager_report` as intended: the row with the given id is gone afterwards. */
  function DeleteManagerReportSpec(t: ManagerTable, instance: Option<ManagerReport>,
                                   benchmarkId: Option<string>): (r: (bool, ManagerTable))
    ensures instance.Some? ==> r == (true, t - {instance.value.benchmarkId})
    ensures instance.None? && TextTruthy(benchmarkId) ==>
      r == (benchmarkId.value in t, t - {benchmarkId.value}) && benchmarkId.value !in r.1
    ensures instance.None? && !TextTruthy(benchmarkId) ==> r == (false, t)
  {
    if instance.Some? then (true, t - {instance.value.benchmarkId})
    else if TextTruthy(benchmarkId) then (benchmarkId.value in t, t - {benchmarkId.value})
    else (false, t)
  }

  /** The report store, `DatabaseClient`. */
  class DatabaseClient {
    var managerReports: ManagerTable
    var aiReports: AITable

    constructor ()
      ensures managerReports == map[] && aiReports == map[]
    {
      managerReports, aiReports := map[], map[];
    }

    /** `select_manager_report`: the row, or None when no row has that id. */
    function SelectManagerReport(benchmarkId: string): (r: Option<ManagerReport>)
      reads this
      ensures r.None? <==> benchmarkId !in managerReports
      ensures r.Some? ==> r.value == managerReports[benchmarkId]
    {
      if benchmarkId in managerReports then Some(managerReports[benchmarkId]) else None
    }

    /** `select_ai_report`: the row for the key, or None. */
    function SelectAIReport(key: AIKey): (r: Option<AIReport>)
      reads this
      ensures r.None? <==> key !in aiReports
      ensures r.Some? ==> r.value == aiReports[key]
    {
      if key in aiReports then Some(aiReports[key]) else None
    }

    /** `create_manager_report`: insert a fresh row, or on a taken id return the stored one. */
    method CreateManagerReport(benchmarkId: string, caseSetId: string, totalCases: int)
      returns (report: ManagerReport)
      modifies this`managerReports
      ensures benchmarkId in old(managerReports) ==>
        managerReports == old(managerReports) && report == old(managerReports)[benchmarkId]
      ensures benchmarkId !in old(managerReports) ==>
        report == NewManagerReport(benchmarkId, caseSetId, totalCases)
        && managerReports == old(managerReports)[benchmarkId := report]
      ensures managerReports[benchmarkId] == report
      ensures report == CreatedManagerReport(old(managerReports), benchmarkId, caseSetId, totalCases)
    {
      if benchmarkId in managerReports {
        var stored := SelectManagerReport(benchmarkId);
        report := stored.value;
      } else {
        report := NewManagerReport(benchmarkId, caseSetId, totalCases);
        managerReports := managerReports[benchmarkId := report];
      }
    }

    /**
     * `update_manager_report`: through an instance, write the cursor on it and
     * save it; through an id, run the UPDATE and select the row again; with
     * neither, return None and change nothing.
     */
    method UpdateManagerReport(index: int, caseId: string, instance: Option<ManagerReport>,
                               benchmarkId: Option<string>) returns (r: Option<ManagerReport>)
      modifies this`managerReports
      ensures instance.Some? ==>
        r == Some(instance.value.(currentCaseIndex := index, currentCaseId := Some(caseId)))
        && managerReports == SetCursor(old(managerReports), instance.value.benchmarkId, index, caseId)
      ensures instance.None? && TextTruthy(benchmarkId) ==>
        managerReports == SetCursor(old(managerReports), benchmarkId.value, index, caseId)
        && r == SelectManagerReport(benchmarkId.value)
      ensures instance.None? && !TextTruthy(benchmarkId) ==> r.None? && managerReports == old(managerReports)
      ensures r.Some? ==> r.value.currentCaseIndex == index && r.value.currentCaseId == Some(caseId)
    {
      if instance.Some? {
        var updated := instance.value.(currentCaseIndex := index, currentCaseId := Some(caseId));
        managerReports := SetCursor(managerReports, updated.benchmarkId, index, caseId);
        r := Some(updated);
      } else if TextTruthy(benchmarkId) {
        managerReports := SetCursor(managerReports, benchmarkId.value, index, caseId);
        r := SelectManagerReport(benchmarkId.value);
      } else {
        r := None;
      }
    }

    /** `delete_manager_report`, with the delete by id doing what its name says. */
    method DeleteManagerReport(instance: Option<ManagerReport>, benchmarkId: Option<string>) returns (deleted: bool)
      modifies this`managerReports
      ensures (deleted, managerReports) == DeleteManagerReportSpec(old(managerReports), instance, benchmarkId)
    {
      if instance.Some? {
        managerReports := managerReports - {instance.value.benchmarkId};
        return true;
      } else if TextTruthy(benchmarkId) {
        deleted := benchmarkId.value in managerReports;
        managerReports := managerReports - {benchmarkId.value};
      } else {
        deleted := false;
      }
    }

    /** `create_ai_report` */
    method CreateAIReport(report: string, aiName: string, caseId: string, data: HealthReport)
      modifies this`aiReports
      ensures aiReports == CreateAITable(old(aiReports), AIKey(report, aiName, caseId), data)
    {
      var key := AIKey(report, aiName, caseId);
      var caseStatus := InitialCaseStatus(data);
      if key !in aiReports {
        aiReports := aiReports[key := AIReport(data.healthcheckStatus.Value(), caseStatus, data.healthChecks,
                                               data.errors, data.softTimeouts, data.hardTimeouts)];
      } else {
        UpdateAIReport(report, aiName, caseId, caseStatus, Some(data.healthcheckStatus.Value()),
                       IntTruthy(data.errors), IntTruthy(data.healthChecks), IntTruthy(data.softTimeouts),
                       IntTruthy(data.hardTimeouts));
      }
    }

    /** `update_ai_report`; each flag is the truthiness of the argument the caller passes. */
    method UpdateAIReport(report: string, aiName: string, caseId: string, caseStatus: int,
                          healthcheckStatus: Option<int>, error: bool, healthChecks: bool,
                          softTimeout: bool, hardTimeout: bool)
      modifies this`aiReports
      ensures aiReports == UpdateAITable(old(aiReports), AIKey(report, aiName, caseId), caseStatus,
                                         healthcheckStatus, error, healthChecks, softTimeout, hardTimeout)
    {
      var key := AIKey(report, aiName, caseId);
      if key in aiReports {
        var row := aiReports[key];
        aiReports := aiReports[key := UpdatedAIReport(row, caseStatus, healthcheckStatus, error, healthChecks,
                                                      softTimeout, hardTimeout)];
      }
    }
  }
}
