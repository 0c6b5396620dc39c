/**
 * InstrumentRunServiceImpl: creating a run, submitting its measurements inside one
 * transaction, and reading a run back with its required measurements.
 */
module InstrumentRunService {
  import opened Wrappers
  import opened Domain
  import opened RunEntity
  import opened Catalogs
  import opened Persistence

  /** The exceptions the services throw, with what they carry. */
  datatype Error =
    | InstrumentNotFound(instrumentCode: string)
    | RunNotFound(runId: nat)
    | MeasurementsAlreadySubmitted(runId: nat)
    | UnknownMeasurementCode(code: string)
    // The three below are thrown only by the behaviour the unit tests expect (module SubmitAsTested).
    | NoMeasurementsSubmitted(runId: nat)
    | MeasurementValueRequired(code: string)
    | RolledBack

  /** What createRun returns. */
  datatype InstrumentRunCreated = InstrumentRunCreated(runId: nat, instrumentCode: string, status: Status, createdAt: Timestamp)

  /** What submitMeasurements returns. */
  datatype MeasurementsSubmitted = MeasurementsSubmitted(instrumentRunId: nat, measurementCount: nat, submittedAt: Timestamp)

  /** One required measurement of a run's instrument, with the value submitted for it, if any. */
  datatype RequiredMeasurement =
    RequiredMeasurement(code: string, name: string, unit: string, displayOrder: int, submittedValue: Option<Decimal>)

  /** What getRunById returns. */
  datatype InstrumentRunDetails = InstrumentRunDetails(
    id: nat,
    instrumentCode: string,
    instrumentName: string,
    createdByClientId: ClientId,
    externalReference: Option<string>,
    status: Status,
    measurementsSubmittedAt: Option<Timestamp>,
    measurementsSubmittedByClientId: Option<ClientId>,
    processingStartedAt: Option<Timestamp>,
    processingCompletedAt: Option<Timestamp>,
    errorCode: Option<string>,
    errorMessage: Option<string>,
    processResult: Option<string>,
    createdAt: Timestamp,
    updatedAt: Timestamp,
    requiredMeasurements: seq<RequiredMeasurement>)

  // ---------------------------------------------------------------- createRun

  /**
   * createRun: an unknown instrument code throws and writes nothing; otherwise one
   * CREATED run is inserted under a fresh id and one CREATED event is appended for it.
   */
  method CreateRun(store: Store, catalog: Catalog, instrumentCode: string, createdBy: ClientId,
                   externalReference: Option<string>, now: Timestamp)
    returns (r: Result<InstrumentRunCreated, Error>)
    requires store.Valid() && catalog.Valid()
    modifies store
    ensures store.Valid()
    ensures instrumentCode !in catalog.instruments <==> r.Failure?
    ensures r.Failure? ==>
      && r.error == InstrumentNotFound(instrumentCode)
      && store.runs == old(store.runs) && store.events == old(store.events)
      && store.measurements == old(store.measurements) && store.nextId == old(store.nextId)
    ensures r.Success? ==>
      var instrument := catalog.instruments[instrumentCode];
      var id := r.value.runId;
      && id == old(store.nextId) && id !in old(store.runs)
      && store.runs == old(store.runs)[id := RunRecord(id, instrument, createdBy, externalReference, Status.Created,
                                                       None, None, None, None, None, None, None, now, now)]
      && store.events == old(store.events) + [Event(id, EventType.Created, None)]
      && store.measurements == old(store.measurements)
      && r.value == InstrumentRunCreated(id, instrument.code, Status.Created, now)
      && r.value.instrumentCode == instrumentCode
  {
    var found := catalog.FindInstrumentByCode(instrumentCode);
    if found.None? {
      return Failure(InstrumentNotFound(instrumentCode));
    }
    var instrument := found.value;
    var run := new InstrumentRun();
    run.SetInstrument(instrument);
    run.SetCreatedByClientId(createdBy);
    run.SetExternalReference(externalReference);
    run.SetStatus(Status.Created);
    var id := store.Insert(run, now);
    store.AppendEvent(Event(id, EventType.Created, None));
    r := Success(InstrumentRunCreated(id, instrument.code, run.status, run.createdAt.value));
  }

  // ------------------------------------------------------- submitMeasurements

  /** The codes the rows carry. */
  function CodesOf(rows: seq<Measurement>): set<string> {
    set i | 0 <= i < |rows| :: rows[i].definition.code
  }

  lemma CodesOfAppend(rows: seq<Measurement>, row: Measurement)
    ensures CodesOf(rows + [row]) == CodesOf(rows) + {row.definition.code}
  {
    var extended := rows + [row];
    assert forall i :: 0 <= i < |rows| ==> extended[i] == rows[i];
    assert extended[|rows|] == row;
  }

  /** Writing the row for one more entry keeps the rows one per entry done so far. */
  lemma ExtendRows(runId: nat, entries: map<string, Decimal>, byCode: map<string, MeasurementDefinition>,
                   written: seq<Measurement>, done: set<string>, code: string)
    requires KeyedByCode(byCode) && code in entries && code in byCode && code !in done
    requires CodesOf(written) == done && |written| == |done| && DistinctCodes(written)
    requires forall i :: 0 <= i < |written| ==> RowFor(runId, entries, byCode, written[i])
    ensures var extended := written + [Measurement(runId, byCode[code], entries[code])];
      && CodesOf(extended) == done + {code} && |extended| == |done + {code}| && DistinctCodes(extended)
      && forall i :: 0 <= i < |extended| ==> RowFor(runId, entries, byCode, extended[i])
  {
    var row := Measurement(runId, byCode[code], entries[code]);
    CodesOfAppend(written, row);
    assert forall i :: 0 <= i < |written| ==> written[i].definition.code in CodesOf(written);
  }

  /** No two rows carry the same code. */
  predicate DistinctCodes(rows: seq<Measurement>) {
    forall i, j :: 0 <= i < j < |rows| ==> rows[i].definition.code != rows[j].definition.code
  }

  /** A row written for the run from one map entry: its value and the definition found for its code. */
  predicate RowFor(runId: nat, entries: map<string, Decimal>, byCode: map<string, MeasurementDefinition>, row: Measurement) {
    var code := row.definition.code;
    && row.runId == runId
    && code in entries && code in byCode
    && row.definition == byCode[code] && row.value == entries[code]
  }

  /** Exactly one row per map entry, each built from its entry. */
  predicate RowsFor(runId: nat, entries: map<string, Decimal>, byCode: map<string, MeasurementDefinition>, rows: seq<Measurement>) {
    && |rows| == |entries|
    && CodesOf(rows) == entries.Keys
    && DistinctCodes(rows)
    && forall i :: 0 <= i < |rows| ==> RowFor(runId, entries, byCode, rows[i])
  }

  /**
   * The loop of submitMeasurements over measurementsByCode.entrySet(), in the map's
   * own (unspecified) order: each entry's code is looked up and its row written, and
   * the first unknown code throws. The rows returned are those the transaction wrote
   * before it finished or threw; the caller commits them only when nothing was thrown.
   */
  method WriteMeasurements(runId: nat, entries: map<string, Decimal>, byCode: map<string, MeasurementDefinition>)
    returns (written: seq<Measurement>, failure: Option<Error>)
    requires KeyedByCode(byCode)
    ensures failure.None? <==> entries.Keys <= byCode.Keys
    ensures failure.Some? ==>
      failure.value.UnknownMeasurementCode? && failure.value.code in entries && failure.value.code !in byCode
    ensures failure.None? ==> RowsFor(runId, entries, byCode, written)
    ensures forall i :: 0 <= i < |written| ==> RowFor(runId, entries, byCode, written[i])
  {
    written := [];
    ghost var done: set<string> := {};
    var remaining := entries.Keys;
    while remaining != {}
      invariant done + remaining == entries.Keys && done !! remaining
      invariant done <= byCode.Keys
      invariant CodesOf(written) == done && |written| == |done|
      invariant DistinctCodes(written)
      invariant forall i :: 0 <= i < |written| ==> RowFor(runId, entries, byCode, written[i])
      decreases remaining
    {
      var code :| code in remaining;
      if code !in byCode {
        return written, Some(UnknownMeasurementCode(code));
      }
      var row := Measurement(runId, byCode[code], entries[code]);
      ExtendRows(runId, entries, byCode, written, done, code);
      written := written + [row];
      done := done + {code};
      remaining := remaining - {code};
    }
    assert done == entries.Keys;
    assert |written| == |entries|;
    failure := None;
  }

  /**
   * The end of a successful submission, flushed at commit: the loaded CREATED run is
   * marked MEASUREMENTS_SUBMITTED by the given client at the given time, the rows the
   * transaction wrote are stored, and one MEASUREMENTS_SUBMITTED event is appended.
   */
  method CommitSubmission(store: Store, run: InstrumentRun, runId: nat, pending: seq<Measurement>,
                          submittedBy: ClientId, now: Timestamp)
    requires store.Valid() && runId in store.runs && store.runs[runId].status == Status.Created
    requires run.Fields() == LoadedFields(store.runs[runId])
    requires forall i :: 0 <= i < |pending| ==> pending[i].runId == runId
    requires DistinctCodes(pending)
    modifies store, run`status, run`measurementsSubmittedAt, run`measurementsSubmittedByClientId
    ensures store.Valid()
    ensures store.runs == old(store.runs)[runId := old(store.runs)[runId].(
              status := Status.MeasurementsSubmitted,
              measurementsSubmittedAt := Some(now),
              measurementsSubmittedByClientId := Some(submittedBy),
              updatedAt := now)]
    ensures store.events == old(store.events) + [Event(runId, EventType.MeasurementsSubmitted, None)]
    ensures store.measurements == old(store.measurements) + pending
    ensures store.nextId == old(store.nextId)
  {
    ghost var row := store.runs[runId];
    assert !HasRowsFor(store.measurements, runId);
    run.SetStatus(Status.MeasurementsSubmitted);
    run.SetMeasurementsSubmittedAt(Some(now));
    run.SetMeasurementsSubmittedByClientId(Some(submittedBy));
    store.Update(run, now);
    assert store.runs[runId] == row.(status := Status.MeasurementsSubmitted, measurementsSubmittedAt := Some(now),
                                     measurementsSubmittedByClientId := Some(submittedBy), updatedAt := now);
    assert UniquePerRun(pending) by {
      assert DistinctCodes(pending);
    }
    store.AppendMeasurements(runId, pending);
    store.AppendEvent(Event(runId, EventType.MeasurementsSubmitted, None));
  }

  /**
   * submitMeasurements, as written: it loads the run, refuses any status but CREATED,
   * writes one row per entry (throwing at the first code the instrument does not
   * define), then marks the run MEASUREMENTS_SUBMITTED and appends one event. The
   * method is @Transactional: the rows and the run change are committed together,
   * and a thrown exception leaves every store as it was.
   */
  method SubmitMeasurements(store: Store, catalog: Catalog, runId: nat, entries: map<string, Decimal>,
                            submittedBy: ClientId, now: Timestamp)
    returns (r: Result<MeasurementsSubmitted, Error>)
    requires store.Valid() && catalog.Valid()
    modifies store
    ensures store.Valid()
    ensures runId !in old(store.runs) ==> r == Failure(RunNotFound(runId))
    ensures runId in old(store.runs) && old(store.runs)[runId].status != Status.Created ==>
      r == Failure(MeasurementsAlreadySubmitted(runId))
    ensures runId in old(store.runs) && old(store.runs)[runId].status == Status.Created ==>
      var byCode := catalog.DefinitionsByCode(old(store.runs)[runId].instrument.id);
      && (r.Success? <==> entries.Keys <= byCode.Keys)
      && (r.Failure? ==> r.error.UnknownMeasurementCode? && r.error.code in entries && r.error.code !in byCode)
      && (r.Success? ==> |old(store.measurements)| <= |store.measurements| &&
                         RowsFor(runId, entries, byCode, store.measurements[|old(store.measurements)|..]))
    ensures r.Failure? ==>
      && store.runs == old(store.runs) && store.events == old(store.events)
      && store.measurements == old(store.measurements) && store.nextId == old(store.nextId)
    ensures r.Success? ==>
      && runId in old(store.runs)
      && store.runs == old(store.runs)[runId := old(store.runs)[runId].(
           status := Status.MeasurementsSubmitted,
           measurementsSubmittedAt := Some(now),
           measurementsSubmittedByClientId := Some(submittedBy),
           updatedAt := now)]
      && store.events == old(store.events) + [Event(runId, EventType.MeasurementsSubmitted, None)]
      && |store.measurements| == |old(store.measurements)| + |entries|
      && store.measurements[..|old(store.measurements)|] == old(store.measurements)
      && store.nextId == old(store.nextId)
      && r.value == MeasurementsSubmitted.MeasurementsSubmitted(runId, |entries|, now)
    ensures entries == map[] && runId in old(store.runs) && old(store.runs)[runId].status == Status.Created ==>
      r.Success? && store.measurements == old(store.measurements)
  {
    var run := store.FindById(runId);
    if run == null {
      return Failure(RunNotFound(runId));
    }
    if run.status != Status.Created {
      return Failure(MeasurementsAlreadySubmitted(runId));
    }
    var byCode := catalog.DefinitionsByCode(run.instrument.value.id);
    // The transaction's own writes; discarded when it rolls back.
    var pending, failure := WriteMeasurements(runId, entries, byCode);
    if failure.Some? {
      return Failure(failure.value);
    }
    CommitSubmission(store, run, runId, pending, submittedBy, now);
    assert store.measurements[|old(store.measurements)|..] == pending;
    r := Success(MeasurementsSubmitted.MeasurementsSubmitted(runId, |entries|, now));
  }

  // -------------------------------------------------------------- getRunById

  /**
   * The submitted values of one run by code (findByInstrumentRunId followed by
   * Collectors.toMap): a code is present exactly when the run has a row for it,
   * with that row's value.
   */
  function SubmittedValues(rows: seq<Measurement>, runId: nat): (values: map<string, Decimal>)
    requires UniquePerRun(rows)
    ensures forall i :: 0 <= i < |rows| && rows[i].runId == runId ==>
      rows[i].definition.code in values && values[rows[i].definition.code] == rows[i].value
    ensures forall code :: code in values ==>
      exists i :: 0 <= i < |rows| && rows[i].runId == runId && rows[i].definition.code == code
  {
    if rows == [] then map[]
    else
      var earlier := SubmittedValues(rows[..|rows| - 1], runId);
      var last := rows[|rows| - 1];
      if last.runId == runId then earlier[last.definition.code := last.value] else earlier
  }

  /**
   * The required-measurement list of getRunById: the catalog entries in their own
   * order, each with the value submitted under its code, or null.
   */
  function RequiredMeasurements(required: seq<InstrumentMeasurement>, values: map<string, Decimal>)
    : (merged: seq<RequiredMeasurement>)
    ensures |merged| == |required|
    ensures forall i :: 0 <= i < |required| ==>
      var d := required[i].definition;
      && merged[i].code == d.code && merged[i].name == d.name && merged[i].unit == d.unit
      && merged[i].displayOrder == required[i].displayOrder
      && merged[i].submittedValue == (if d.code in values then Some(values[d.code]) else None)
  {
    if required == [] then []
    else
      var d := required[0].definition;
      var head := RequiredMeasurement(d.code, d.name, d.unit, required[0].displayOrder,
                                      if d.code in values then Some(values[d.code]) else None);
      [head] + RequiredMeasurements(required[1..], values)
  }

  /**
   * getRunById: a missing run throws (and nothing else is looked up); otherwise the
   * run's columns, its instrument's code and name, and the instrument's required
   * measurements, in catalog order (display order ascending), merged with the values
   * submitted for the run.
   */
  function GetRunById(runs: map<nat, RunRecord>, rows: seq<Measurement>, catalog: Catalog, runId: nat)
    : (r: Result<InstrumentRunDetails, Error>)
    requires catalog.Valid() && UniquePerRun(rows)
    ensures runId !in runs <==> r.Failure?
    ensures r.Failure? ==> r.error == RunNotFound(runId)
    ensures r.Success? ==>
      var run := runs[runId];
      var required := catalog.RequiredOf(run.instrument.id);
      var got := r.value.requiredMeasurements;
      && r.value.id == run.id && r.value.status == run.status
      && r.value.instrumentCode == run.instrument.code && r.value.instrumentName == run.instrument.name
      && r.value.createdByClientId == run.createdByClientId && r.value.externalReference == run.externalReference
      && r.value.errorCode == run.errorCode && r.value.errorMessage == run.errorMessage
      && r.value.processResult == run.processResult
      && r.value.measurementsSubmittedAt == run.measurementsSubmittedAt
      && r.value.measurementsSubmittedByClientId == run.measurementsSubmittedByClientId
      && r.value.processingStartedAt == run.processingStartedAt
      && r.value.processingCompletedAt == run.processingCompletedAt
      && r.value.createdAt == run.createdAt && r.value.updatedAt == run.updatedAt
      && |got| == |required|
      && StrictlyAscendingOrder(got)
      && (forall i :: 0 <= i < |got| ==>
            && got[i].code == required[i].definition.code
            && got[i].name == required[i].definition.name && got[i].unit == required[i].definition.unit
            && got[i].displayOrder == required[i].displayOrder
            && (got[i].submittedValue.Some? <==>
                  exists j :: 0 <= j < |rows| && rows[j].runId == runId && rows[j].definition.code == got[i].code))
      && (forall i, j ::
            0 <= i < |got| && 0 <= j < |rows| && rows[j].runId == runId && rows[j].definition.code == got[i].code ==>
              got[i].submittedValue == Some(rows[j].value))
  {
    if runId !in runs then Failure(RunNotFound(runId))
    else
      var run := runs[runId];
      var values := SubmittedValues(rows, runId);
      var required := RequiredMeasurements(catalog.RequiredOf(run.instrument.id), values);
      Success(InstrumentRunDetails(
        run.id, run.instrument.code, run.instrument.name, run.createdByClientId, run.externalReference,
        run.status, run.measurementsSubmittedAt, run.measurementsSubmittedByClientId,
        run.processingStartedAt, run.processingCompletedAt, run.errorCode, run.errorMessage,
        run.processResult, run.createdAt, run.updatedAt, required))
  }

  /** Display orders strictly increase along the list. */
  predicate StrictlyAscendingOrder(merged: seq<RequiredMeasurement>) {
    forall i, j :: 0 <= i < j < |merged| ==> merged[i].displayOrder < merged[j].displayOrder
  }
}
