/**
 * submitMeasurements as the unit tests and the controller expect it, next to the
 * implementation modelled in InstrumentRunService: an empty map and a null value
 * are rejected, every entry is validated before any row is written, the run's
 * details are returned, and the run id is handed to the worker only once the
 * transaction has committed.
 */
module SubmitAsTested {
  import opened Wrappers
  import opened Domain
  import opened Catalogs
  import opened Persistence
  import RunEntity
  import Service = InstrumentRunService

  /** Every entry has a value and a code the instrument defines. */
  predicate Acceptable(entries: map<string, Option<Decimal>>, byCode: map<string, MeasurementDefinition>) {
    forall code :: code in entries ==> entries[code].Some? && code in byCode
  }

  /** An error validation may report: an entry with no value, or a valued entry whose code is unknown. */
  predicate Rejects(entries: map<string, Option<Decimal>>, byCode: map<string, MeasurementDefinition>, e: Service.Error) {
    || (e.MeasurementValueRequired? && e.code in entries && entries[e.code].None?)
    || (e.UnknownMeasurementCode? && e.code in entries && entries[e.code].Some? && e.code !in byCode)
  }

  /**
   * The validation pass over the entries, before anything is written: the first
   * entry met with a null value or an unknown code is reported.
   */
  method ValidateAll(entries: map<string, Option<Decimal>>, byCode: map<string, MeasurementDefinition>)
    returns (failure: Option<Service.Error>)
    ensures failure.None? <==> Acceptable(entries, byCode)
    ensures failure.Some? ==> Rejects(entries, byCode, failure.value)
  {
    var remaining := entries.Keys;
    while remaining != {}
      invariant remaining <= entries.Keys
      invariant forall code :: code in entries && code !in remaining ==> entries[code].Some? && code in byCode
      decreases remaining
    {
      var code :| code in remaining;
      if entries[code].None? {
        return Some(Service.MeasurementValueRequired(code));
      }
      if code !in byCode {
        return Some(Service.UnknownMeasurementCode(code));
      }
      remaining := remaining - {code};
    }
    return None;
  }

  /** The values of a map none of whose values is null. */
  function Values(entries: map<string, Option<Decimal>>): (values: map<string, Decimal>)
    requires forall code :: code in entries ==> entries[code].Some?
    ensures values.Keys == entries.Keys
    ensures forall code :: code in values ==> entries[code] == Some(values[code])
  {
    map code | code in entries :: entries[code].value
  }

  /**
   * The writes of a validated submission, committed: one row per entry, then the run
   * marked MEASUREMENTS_SUBMITTED and its event.
   */
  method WriteAndCommit(store: Store, run: RunEntity.InstrumentRun, runId: nat, values: map<string, Decimal>,
                        byCode: map<string, MeasurementDefinition>, submittedBy: ClientId, now: Timestamp)
    requires store.Valid() && runId in store.runs && store.runs[runId].status == Status.Created
    requires run.Fields() == RunEntity.LoadedFields(store.runs[runId])
    requires KeyedByCode(byCode) && values.Keys <= byCode.Keys
    modifies store, run`status, run`measurementsSubmittedAt, run`measurementsSubmittedByClientId
    ensures store.Valid()
    ensures store.runs == old(store.runs)[runId := old(store.runs)[runId].(
              status := Status.MeasurementsSubmitted,
              measurementsSubmittedAt := Some(now),
              measurementsSubmittedByClientId := Some(submittedBy),
              updatedAt := now)]
    ensures store.events == old(store.events) + [Event(runId, EventType.MeasurementsSubmitted, None)]
    ensures |old(store.measurements)| <= |store.measurements|
    ensures store.measurements[..|old(store.measurements)|] == old(store.measurements)
    ensures Service.RowsFor(runId, values, byCode, store.measurements[|old(store.measurements)|..])
    ensures store.nextId == old(store.nextId)
  {
    var pending, unknown := Service.WriteMeasurements(runId, values, byCode);
    assert unknown.None?;
    Service.CommitSubmission(store, run, runId, pending, submittedBy, now);
    assert store.measurements[|old(store.measurements)|..] == pending;
    assert store.measurements[..|old(store.measurements)|] == old(store.measurements);
  }

  /**
   * The expected submitMeasurements. `commitFails` says whether the commit itself
   * fails; `dispatched` is the run id the after-commit hook hands to processRunAsync.
   */
  method SubmitMeasurements(store: Store, catalog: Catalog, runId: nat, entries: map<string, Option<Decimal>>,
                            submittedBy: ClientId, now: Timestamp, commitFails: bool)
    returns (r: Result<Service.InstrumentRunDetails, Service.Error>, dispatched: Option<nat>)
    requires store.Valid() && catalog.Valid()
    modifies store
    ensures store.Valid()
    ensures dispatched == (if r.Success? then Some(runId) else None)
    ensures runId !in old(store.runs) ==> r == Failure(Service.RunNotFound(runId))
    ensures runId in old(store.runs) && old(store.runs)[runId].status != Status.Created ==>
      r == Failure(Service.MeasurementsAlreadySubmitted(runId))
    ensures runId in old(store.runs) && old(store.runs)[runId].status == Status.Created && entries == map[] ==>
      r == Failure(Service.NoMeasurementsSubmitted(runId))
    ensures runId in old(store.runs) && old(store.runs)[runId].status == Status.Created && entries != map[] ==>
      var byCode := catalog.DefinitionsByCode(old(store.runs)[runId].instrument.id);
      && (r.Success? <==> Acceptable(entries, byCode) && !commitFails)
      && (r.Failure? && !Acceptable(entries, byCode) ==> Rejects(entries, byCode, r.error))
      && (r.Failure? && Acceptable(entries, byCode) ==> r.error == Service.RolledBack)
      && (r.Success? ==> |old(store.measurements)| <= |store.measurements| &&
                         Service.RowsFor(runId, Values(entries), byCode, store.measurements[|old(store.measurements)|..]))
    ensures r.Failure? ==>
      && store.runs == old(store.runs) && store.events == old(store.events)
      && store.measurements == old(store.measurements) && store.nextId == old(store.nextId)
    ensures r.Success? ==>
      && runId in old(store.runs)
      && store.runs == old(store.runs)[runId := old(store.runs)[runId].(
           status := Status.MeasurementsSubmitted,
           measurementsSubmittedAt := Some(now),
           measurementsSubmittedByClientId := Some(submittedBy),
           updatedAt := now)]
      && store.events == old(store.events) + [Event(runId, EventType.MeasurementsSubmitted, None)]
      && |store.measurements| == |old(store.measurements)| + |entries|
      && store.measurements[..|old(store.measurements)|] == old(store.measurements)
      && store.nextId == old(store.nextId)
      && UniquePerRun(store.measurements)
      && r == Service.GetRunById(store.runs, store.measurements, catalog, runId)
  {
    var run := store.FindById(runId);
    if run == null {
      return Failure(Service.RunNotFound(runId)), None;
    }
    if run.status != Status.Created {
      return Failure(Service.MeasurementsAlreadySubmitted(runId)), None;
    }
    if entries == map[] {
      return Failure(Service.NoMeasurementsSubmitted(runId)), None;
    }
    var byCode := catalog.DefinitionsByCode(run.instrument.value.id);
    var invalid := ValidateAll(entries, byCode);
    if invalid.Some? {
      return Failure(invalid.value), None;
    }
    if commitFails {
      return Failure(Service.RolledBack), None;
    }
    WriteAndCommit(store, run, runId, Values(entries), byCode, submittedBy, now);
    r := Service.GetRunById(store.runs, store.measurements, catalog, runId);
    dispatched := Some(runId);
  }
}
