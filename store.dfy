/**
 * The three repositories the lifecycle writes: run rows by id, the append-only
 * event log and the measurement table. Rows are values; an InstrumentRun object
 * is hydrated from a row by FindById and written back by Insert or Update,
 * as JPA's findById and save do.
 */
module Persistence {
  import opened Wrappers
  import opened Domain
  import opened RunEntity

  /** Some measurement row belongs to the run. */
  predicate HasRowsFor(rows: seq<Measurement>, runId: nat) {
    exists i :: 0 <= i < |rows| && rows[i].runId == runId
  }

  /** No run has two measurement rows with the same code, so the Collectors.toMap of getRunById cannot fail. */
  predicate UniquePerRun(rows: seq<Measurement>) {
    forall i, j :: 0 <= i < j < |rows| && rows[i].runId == rows[j].runId ==>
      rows[i].definition.code != rows[j].definition.code
  }

  /** The row an INSERT of a new entity writes: the IDENTITY id and both Hibernate timestamps are assigned. */
  function InsertedRow(id: nat, f: RunFields, now: Timestamp): RunRecord
    requires f.instrument.Some? && f.createdByClientId.Some?
  {
    RunRecord(id, f.instrument.value, f.createdByClientId.value, f.externalReference, f.status,
              f.measurementsSubmittedAt, f.measurementsSubmittedByClientId,
              f.processingStartedAt, f.processingCompletedAt,
              f.errorCode, f.errorMessage, f.processResult, now, now)
  }

  /**
   * The row an UPDATE of a loaded entity leaves: instrument, createdByClientId and
   * createdAt are updatable = false, so they keep their stored values whatever the
   * object holds; updatedAt is stamped; every other column takes the object's value.
   */
  function MergedRow(row: RunRecord, f: RunFields, now: Timestamp): (merged: RunRecord)
    ensures merged.id == row.id && merged.instrument == row.instrument
    ensures merged.createdByClientId == row.createdByClientId && merged.createdAt == row.createdAt
    ensures merged.updatedAt == now
    ensures merged.status == f.status && merged.errorCode == f.errorCode && merged.errorMessage == f.errorMessage
  {
    RunRecord(row.id, row.instrument, row.createdByClientId, f.externalReference, f.status,
              f.measurementsSubmittedAt, f.measurementsSubmittedByClientId,
              f.processingStartedAt, f.processingCompletedAt,
              f.errorCode, f.errorMessage, f.processResult, row.createdAt, now)
  }

  class Store {
    var runs: map<nat, RunRecord>
    var events: seq<Event>
    var measurements: seq<Measurement>
    /** The next IDENTITY value of instrument_run.id. */
    var nextId: nat

    /**
     * Every run is stored under its own id, below the next identity value; every
     * event and measurement row references a stored run (foreign keys); a run still
     * in CREATED has no measurement rows; and no run has two rows with one code.
     */
    ghost predicate Valid()
      reads this
    {
      && (forall id :: id in runs ==> id < nextId && runs[id].id == id)
      && (forall i :: 0 <= i < |events| ==> events[i].runId in runs)
      && (forall i :: 0 <= i < |measurements| ==>
            measurements[i].runId in runs && runs[measurements[i].runId].status != Status.Created)
      && UniquePerRun(measurements)
    }

    constructor ()
      ensures Valid()
      ensures runs == map[] && events == [] && measurements == [] && nextId == 0
    {
      runs, events, measurements, nextId := map[], [], [], 0;
    }

    /** InstrumentRunRepository.findById: a fresh object holding the row, or null. */
    method FindById(id: nat) returns (run: InstrumentRun?)
      ensures run == null <==> id !in runs
      ensures run != null ==> fresh(run) && run.Fields() == LoadedFields(runs[id])
    {
      if id in runs {
        run := new InstrumentRun.Load(runs[id]);
      } else {
        run := null;
      }
    }

    /** InstrumentRunRepository.save of a new entity. */
    method Insert(run: InstrumentRun, now: Timestamp) returns (id: nat)
      requires Valid()
      requires run.id.None? && run.instrument.Some? && run.createdByClientId.Some?
      modifies this`runs, this`nextId, run`id, run`createdAt, run`updatedAt
      ensures Valid()
      ensures id == old(nextId) && id !in old(runs) && nextId == id + 1
      ensures runs == old(runs)[id := InsertedRow(id, old(run.Fields()), now)]
      ensures run.Fields() == old(run.Fields()).(id := Some(id), createdAt := Some(now), updatedAt := Some(now))
    {
      id := nextId;
      runs := runs[id := InsertedRow(id, run.Fields(), now)];
      nextId := nextId + 1;
      run.id, run.createdAt, run.updatedAt := Some(id), Some(now), Some(now);
    }

    /** InstrumentRunRepository.save of an entity loaded from a stored row. */
    method Update(run: InstrumentRun, now: Timestamp)
      requires Valid()
      requires run.id.Some? && run.id.value in runs
      requires run.status == Status.Created ==> !HasRowsFor(measurements, run.id.value)
      modifies this`runs
      ensures Valid()
      ensures runs == old(runs)[run.id.value := MergedRow(old(runs)[run.id.value], run.Fields(), now)]
    {
      var id := run.id.value;
      runs := runs[id := MergedRow(runs[id], run.Fields(), now)];
    }

    /** InstrumentRunEventRepository.save: the event log only grows at its end. */
    method AppendEvent(event: Event)
      requires Valid() && event.runId in runs
      modifies this`events
      ensures Valid()
      ensures events == old(events) + [event]
    {
      events := events + [event];
    }

    /** MeasurementRepository.save of the rows one run's submission wrote. */
    method AppendMeasurements(runId: nat, rows: seq<Measurement>)
      requires Valid()
      requires runId in runs && runs[runId].status != Status.Created && !HasRowsFor(measurements, runId)
      requires forall i :: 0 <= i < |rows| ==> rows[i].runId == runId
      requires UniquePerRun(rows)
      modifies this`measurements
      ensures Valid()
      ensures measurements == old(measurements) + rows
    {
      measurements := measurements + rows;
    }
  }
}
