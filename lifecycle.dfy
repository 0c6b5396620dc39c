/**
 * The run lifecycle end to end: a run is created, its measurements are submitted
 * with the behaviour the unit tests expect (the run id is handed to the worker
 * after commit), and the worker processes it. The event log then holds, for that
 * run and in order, CREATED, MEASUREMENTS_SUBMITTED, PROCESSING_STARTED and one of
 * PROCESSING_COMPLETED or PROCESSING_FAILED.
 */
module Lifecycle {
  import opened Wrappers
  import opened Domain
  import opened Catalogs
  import opened Persistence
  import opened ProcessingService
  import Service = InstrumentRunService
  import SubmitAsTested

  /** The types of the events logged for one run, in log order (findByInstrumentRunIdOrderByCreatedAtAsc). */
  function EventsOf(events: seq<Event>, runId: nat): seq<EventType> {
    if events == [] then []
    else
      var last := events[|events| - 1];
      EventsOf(events[..|events| - 1], runId) + (if last.runId == runId then [last.eventType] else [])
  }

  /** Appending to the log appends the run's own events to its history, and nothing else. */
  lemma {:induction false} EventsOfAppend(earlier: seq<Event>, later: seq<Event>, runId: nat)
    ensures EventsOf(earlier + later, runId) == EventsOf(earlier, runId) + EventsOf(later, runId)
    decreases |later|
  {
    if later == [] {
      assert earlier + later == earlier;
    } else {
      var all := earlier + later;
      var front := later[..|later| - 1];
      assert all[..|all| - 1] == earlier + front;
      assert all[|all| - 1] == later[|later| - 1];
      EventsOfAppend(earlier, front, runId);
    }
  }

  /** A log with no event for the run gives it an empty history. */
  lemma {:induction false} EventsOfAbsent(events: seq<Event>, runId: nat)
    requires forall i :: 0 <= i < |events| ==> events[i].runId != runId
    ensures EventsOf(events, runId) == []
  {
    if events != [] {
      EventsOfAbsent(events[..|events| - 1], runId);
    }
  }

  /** The history a log of events all for the run gives it: their types, in order. */
  lemma {:induction false} EventsOfOwn(events: seq<Event>, runId: nat)
    requires forall i :: 0 <= i < |events| ==> events[i].runId == runId
    ensures |EventsOf(events, runId)| == |events|
    ensures forall i :: 0 <= i < |events| ==> EventsOf(events, runId)[i] == events[i].eventType
  {
    if events != [] {
      EventsOfOwn(events[..|events| - 1], runId);
    }
  }

  /** Logging one event for the run adds its type at the end of the run's history. */
  lemma HistoryGrows(before: seq<Event>, event: Event, runId: nat)
    requires event.runId == runId
    ensures EventsOf(before + [event], runId) == EventsOf(before, runId) + [event.eventType]
  {
    EventsOfOwn([event], runId);
    EventsOfAppend(before, [event], runId);
  }

  /**
   * A submitted run's history followed by processing's two events. Kept as a lemma so
   * that the sequence reasoning stays out of the caller's proof.
   */
  lemma FullHistory(history: seq<EventType>, first: EventType, second: EventType)
    requires history == [EventType.Created, EventType.MeasurementsSubmitted]
    ensures history + [first, second] == [EventType.Created, EventType.MeasurementsSubmitted, first, second]
  {
  }

  /** The final status the worker leaves when no save fails. */
  function ProcessedStatus(workload: Workload): Status {
    if workload.Completes? then Status.Succeeded else Status.Failed
  }

  /** The last event type the worker appends when no save fails. */
  function ProcessedEvent(workload: Workload): EventType {
    if workload.Completes? then EventType.ProcessingCompleted else EventType.ProcessingFailed
  }

  /** createRun, with the new run's history: its CREATED event alone. */
  method CreateTracked(store: Store, catalog: Catalog, instrumentCode: string, createdBy: ClientId,
                       createdAt: Timestamp)
    returns (created: Result<Service.InstrumentRunCreated, Service.Error>)
    requires store.Valid() && catalog.Valid()
    modifies store
    ensures store.Valid()
    ensures store.measurements == old(store.measurements)
    ensures instrumentCode !in catalog.instruments <==> created.Failure?
    ensures created.Failure? ==>
      && created.error == Service.InstrumentNotFound(instrumentCode)
      && store.runs == old(store.runs) && store.events == old(store.events)
    ensures created.Success? ==>
      var id := created.value.runId;
      && id !in old(store.runs) && id in store.runs
      && store.runs[id].status == Status.Created
      && store.runs[id].instrument == catalog.instruments[instrumentCode]
      && EventsOf(store.events, id) == [EventType.Created]
  {
    created := Service.CreateRun(store, catalog, instrumentCode, createdBy, None, createdAt);
    if created.Success? {
      var id := created.value.runId;
      EventsOfAbsent(old(store.events), id);
      HistoryGrows(old(store.events), Event(id, EventType.Created, None), id);
    }
  }

  /**
   * The expected submitMeasurements on a CREATED run, committed, with the run's
   * history: it grows by MEASUREMENTS_SUBMITTED exactly when the run id is dispatched.
   */
  method SubmitTracked(store: Store, catalog: Catalog, id: nat, entries: map<string, Option<Decimal>>,
                       submittedBy: ClientId, now: Timestamp)
    returns (result: Result<Service.InstrumentRunDetails, Service.Error>, dispatched: Option<nat>)
    requires store.Valid() && catalog.Valid()
    requires id in store.runs && store.runs[id].status == Status.Created
    modifies store
    ensures store.Valid()
    ensures id in store.runs
    ensures var byCode := catalog.DefinitionsByCode(old(store.runs)[id].instrument.id);
      && (result.Success? <==> entries != map[] && SubmitAsTested.Acceptable(entries, byCode))
      && (result.Success? ==> |store.measurements| == |old(store.measurements)| + |entries|)
    ensures dispatched == (if result.Success? then Some(id) else None)
    ensures result.Failure? ==>
      && store.runs == old(store.runs) && store.events == old(store.events)
      && store.measurements == old(store.measurements)
    ensures result.Success? ==>
      && result.value.status == Status.MeasurementsSubmitted
      && EventsOf(store.events, id) == EventsOf(old(store.events), id) + [EventType.MeasurementsSubmitted]
  {
    result, dispatched := SubmitAsTested.SubmitMeasurements(store, catalog, id, entries, submittedBy, now, false);
    if result.Success? {
      HistoryGrows(old(store.events), Event(id, EventType.MeasurementsSubmitted, None), id);
    }
  }

  /**
   * processRunAsync on a dispatched run, with no storage failure: the run ends in
   * the workload's terminal status and its history grows by PROCESSING_STARTED and
   * the matching last event.
   */
  method ProcessDispatched(store: Store, id: nat, workload: Workload, startedAt: Timestamp, doneAt: Timestamp)
    returns (exit: Outcome)
    requires store.Valid() && id in store.runs
    modifies store
    ensures store.Valid()
    ensures exit == Normal
    ensures id in store.runs && store.runs[id].status == ProcessedStatus(workload)
    ensures store.measurements == old(store.measurements)
    ensures EventsOf(store.events, id) ==
      EventsOf(old(store.events), id) + [EventType.ProcessingStarted, ProcessedEvent(workload)]
  {
    ghost var row := store.runs[id];
    var restored;
    exit, restored := ProcessRunAsync(store, id, workload, map[], startedAt, doneAt);
    ghost var w := Worker(row, workload, map[], startedAt, doneAt);
    EndsTerminalUnlessFailureEscapes(row, workload, map[], startedAt, doneAt);
    match workload {
      case Completes => ProcessingSucceeds(row, startedAt, doneAt);
      case Interrupted => ProcessingInterrupted(row, startedAt, doneAt);
      case Throws(m) => ProcessingThrows(row, m, startedAt, doneAt);
    }
    EventsOfOwn(w.effect.appended, id);
    EventsOfAppend(old(store.events), w.effect.appended, id);
  }

  /**
   * Submit and process a CREATED run whose history is its CREATED event. A rejected
   * submission changes nothing and dispatches nothing; an accepted one ends with
   * the run in its terminal status and the four lifecycle events in order.
   */
  method SubmitAndProcess(store: Store, catalog: Catalog, id: nat, submittedBy: ClientId,
                          entries: map<string, Option<Decimal>>, workload: Workload,
                          submittedAt: Timestamp, startedAt: Timestamp, doneAt: Timestamp)
    returns (submitted: Result<Service.InstrumentRunDetails, Service.Error>, exit: Outcome)
    requires store.Valid() && catalog.Valid()
    requires id in store.runs && store.runs[id].status == Status.Created
    requires EventsOf(store.events, id) == [EventType.Created]
    modifies store
    ensures store.Valid()
    ensures exit == Normal
    ensures id in store.runs
    ensures var byCode := catalog.DefinitionsByCode(old(store.runs)[id].instrument.id);
      && (submitted.Success? <==> entries != map[] && SubmitAsTested.Acceptable(entries, byCode))
      && (submitted.Success? ==> |store.measurements| == |old(store.measurements)| + |entries|)
    ensures submitted.Failure? ==>
      && store.runs == old(store.runs) && store.events == old(store.events)
      && store.measurements == old(store.measurements)
    ensures submitted.Success? ==>
      && submitted.value.status == Status.MeasurementsSubmitted
      && store.runs[id].status == ProcessedStatus(workload)
      && EventsOf(store.events, id) ==
           [EventType.Created, EventType.MeasurementsSubmitted, EventType.ProcessingStarted, ProcessedEvent(workload)]
  {
    var dispatched;
    submitted, dispatched := SubmitTracked(store, catalog, id, entries, submittedBy, submittedAt);
    if dispatched.None? {
      return submitted, Normal;
    }
    ghost var measurementsSubmitted := store.measurements;
    ghost var submittedHistory := EventsOf(store.events, id);
    assert submittedHistory == [EventType.Created, EventType.MeasurementsSubmitted];
    exit := ProcessDispatched(store, id, workload, startedAt, doneAt);
    FullHistory(submittedHistory, EventType.ProcessingStarted, ProcessedEvent(workload));
    assert store.measurements == measurementsSubmitted;
  }

  /**
   * Create, submit and process one run, with no storage failure. An unknown
   * instrument stops at creation; a rejected submission leaves the run CREATED with
   * its CREATED event only and dispatches nothing; an accepted one ends with the
   * run in its terminal status and the four lifecycle events in order.
   */
  method CreateSubmitAndProcess(store: Store, catalog: Catalog, instrumentCode: string, createdBy: ClientId,
                                entries: map<string, Option<Decimal>>, workload: Workload,
                                createdAt: Timestamp, submittedAt: Timestamp, startedAt: Timestamp, doneAt: Timestamp)
    returns (created: Result<Service.InstrumentRunCreated, Service.Error>,
             submitted: Option<Result<Service.InstrumentRunDetails, Service.Error>>, exit: Outcome)
    requires store.Valid() && catalog.Valid()
    modifies store
    ensures store.Valid()
    ensures exit == Normal
    ensures instrumentCode !in catalog.instruments ==>
      && created == Failure(Service.InstrumentNotFound(instrumentCode)) && submitted.None?
      && store.runs == old(store.runs) && store.events == old(store.events)
      && store.measurements == old(store.measurements)
    ensures instrumentCode in catalog.instruments ==>
      && created.Success? && submitted.Some?
      && var id := created.value.runId;
      && id !in old(store.runs) && id in store.runs
      && var byCode := catalog.DefinitionsByCode(catalog.instruments[instrumentCode].id);
      && (submitted.value.Success? <==> entries != map[] && SubmitAsTested.Acceptable(entries, byCode))
      && (submitted.value.Failure? ==>
            && store.runs[id].status == Status.Created
            && EventsOf(store.events, id) == [EventType.Created]
            && store.measurements == old(store.measurements))
      && (submitted.value.Success? ==>
            && submitted.value.value.status == Status.MeasurementsSubmitted
            && store.runs[id].status == ProcessedStatus(workload)
            && EventsOf(store.events, id) ==
                 [EventType.Created, EventType.MeasurementsSubmitted, EventType.ProcessingStarted,
                  ProcessedEvent(workload)]
            && |store.measurements| == |old(store.measurements)| + |entries|)
  {
    created := CreateTracked(store, catalog, instrumentCode, createdBy, createdAt);
    if created.Failure? {
      return created, None, Normal;
    }
    var result;
    result, exit := SubmitAndProcess(store, catalog, created.value.runId, createdBy, entries, workload,
                                     submittedAt, startedAt, doneAt);
    submitted := Some(result);
  }
}
