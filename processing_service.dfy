/**
 * ProcessingServiceImpl: the worker that takes a run id, marks the run PROCESSING,
 * runs the workload and ends the run in SUCCEEDED or FAILED, appending an event at
 * each step. The workload (the sleep) is an injected outcome, and any repository
 * call of the worker may be made to throw, so that every path of its try/catch is
 * reachable. processRunAsync is not transactional: each save stands on its own.
 */
module ProcessingService {
  import opened Wrappers
  import opened Domain
  import opened RunEntity
  import opened Persistence

  const StubResult: string := "stub-result"
  const InterruptedCode: string := "INTERRUPTED"
  const InterruptedMessage: string := "Processing thread interrupted"
  const UnexpectedErrorCode: string := "UNEXPECTED_ERROR"

  /** How Thread.sleep(processingDelayMs) ends this time. */
  datatype Workload =
    | Completes
    | Interrupted                       // InterruptedException
    | Throws(message: Option<string>)   // any other exception, with its (nullable) message

  /** The worker's repository calls, each of which may throw a RuntimeException. */
  datatype SaveSite =
    | StartSave      // saving the PROCESSING run, before the try
    | StartEvent     // appending PROCESSING_STARTED, before the try
    | CompleteSave   // saving the SUCCEEDED run, inside the try
    | CompleteEvent  // appending PROCESSING_COMPLETED, inside the try
    | FailSave       // saving the FAILED run, in markFailed
    | FailEvent      // appending PROCESSING_FAILED, in markFailed

  /** The calls that throw, each with the message of its exception. */
  type Faults = map<SaveSite, Option<string>>

  /** How a call ends: normally, or by an exception propagating out of it. */
  datatype Outcome = Normal | Threw(message: Option<string>)

  // ------------------------------------------------------ the worker, as values

  /** The fields the worker sets before the workload: PROCESSING, started now, completion and error cleared. */
  function BeginProcessing(f: RunFields, startedAt: Timestamp): RunFields {
    f.(status := Status.Processing, processingStartedAt := Some(startedAt),
       processingCompletedAt := None, errorCode := None, errorMessage := None)
  }

  /** The fields the worker sets when the workload completes. */
  function CompleteSuccess(f: RunFields, doneAt: Timestamp): RunFields {
    f.(status := Status.Succeeded, processingCompletedAt := Some(doneAt),
       processResult := Some(StubResult), errorCode := None, errorMessage := None)
  }

  /** The fields markFailed sets; processResult and processingStartedAt are left alone. */
  function MarkFailedFields(f: RunFields, errorCode: string, errorMessage: Option<string>, doneAt: Timestamp): RunFields {
    f.(status := Status.Failed, processingCompletedAt := Some(doneAt),
       errorCode := Some(errorCode), errorMessage := errorMessage)
  }

  /** What a stretch of the worker leaves behind: the run row it last saved, the events it appended, how it ended. */
  datatype Effect = Effect(saved: Option<RunRecord>, appended: seq<Event>, outcome: Outcome)

  /** One stretch after another (the second runs only when the first ended normally). */
  function Then(first: Effect, second: Effect): Effect {
    Effect(if second.saved.Some? then second.saved else first.saved,
           first.appended + second.appended, second.outcome)
  }

  /** markFailed on an object holding `f`, for the run stored as `row`. */
  function MarkFailedEffect(row: RunRecord, f: RunFields, errorCode: string, errorMessage: Option<string>,
                            faults: Faults, doneAt: Timestamp): Effect
  {
    var failed := MergedRow(row, MarkFailedFields(f, errorCode, errorMessage, doneAt), doneAt);
    if FailSave in faults then Effect(None, [], Threw(faults[FailSave]))
    else if FailEvent in faults then Effect(Some(failed), [], Threw(faults[FailEvent]))
    else Effect(Some(failed), [Event(row.id, EventType.ProcessingFailed, Some(FailureDetails(errorCode, errorMessage)))], Normal)
  }

  /** The worker's whole effect on an existing run, and whether it re-set the thread's interrupt flag. */
  datatype WorkerRun = WorkerRun(effect: Effect, interruptRestored: bool)

  /**
   * The try block of processRunAsync and its two catch clauses, entered with the
   * object holding `f` and the run stored as `stored`.
   */
  function Attempt(stored: RunRecord, f: RunFields, workload: Workload, faults: Faults, doneAt: Timestamp): WorkerRun {
    match workload
    case Interrupted =>
      WorkerRun(MarkFailedEffect(stored, f, InterruptedCode, Some(InterruptedMessage), faults, doneAt), true)
    case Throws(message) =>
      WorkerRun(MarkFailedEffect(stored, f, UnexpectedErrorCode, message, faults, doneAt), false)
    case Completes =>
      var succeeded := CompleteSuccess(f, doneAt);
      if CompleteSave in faults then
        WorkerRun(MarkFailedEffect(stored, succeeded, UnexpectedErrorCode, faults[CompleteSave], faults, doneAt), false)
      else
        var saved := Effect(Some(MergedRow(stored, succeeded, doneAt)), [], Normal);
        if CompleteEvent in faults then
          WorkerRun(Then(saved, MarkFailedEffect(stored, succeeded, UnexpectedErrorCode, faults[CompleteEvent], faults, doneAt)), false)
        else
          WorkerRun(Then(saved, Effect(None, [Event(stored.id, EventType.ProcessingCompleted, None)], Normal)), false)
  }

  /** processRunAsync on the stored row `row`, as a value. */
  function Worker(row: RunRecord, workload: Workload, faults: Faults, startedAt: Timestamp, doneAt: Timestamp): WorkerRun {
    var f := BeginProcessing(LoadedFields(row), startedAt);
    var processing := MergedRow(row, f, startedAt);
    if StartSave in faults then WorkerRun(Effect(None, [], Threw(faults[StartSave])), false)
    else if StartEvent in faults then WorkerRun(Effect(Some(processing), [], Threw(faults[StartEvent])), false)
    else
      var started := Effect(Some(processing), [Event(row.id, EventType.ProcessingStarted, None)], Normal);
      var attempt := Attempt(processing, f, workload, faults, doneAt);
      WorkerRun(Then(started, attempt.effect), attempt.interruptRestored)
  }

  // -------------------------------------------------- the worker, as methods

  /** instrumentRunRepository.save(run) at `site`: throws the injected exception, or updates the row. */
  method SaveRun(store: Store, run: InstrumentRun, site: SaveSite, faults: Faults, now: Timestamp)
    returns (outcome: Outcome)
    requires store.Valid() && run.id.Some? && run.id.value in store.runs && run.status != Status.Created
    modifies store`runs
    ensures store.Valid()
    ensures outcome == (if site in faults then Threw(faults[site]) else Normal)
    ensures store.runs == if site in faults then old(store.runs)
                          else old(store.runs)[run.id.value := MergedRow(old(store.runs)[run.id.value], run.Fields(), now)]
  {
    if site in faults {
      return Threw(faults[site]);
    }
    store.Update(run, now);
    outcome := Normal;
  }

  /** saveEvent: an event of the given type and details for the run, appended at `site` unless that call throws. */
  method SaveEvent(store: Store, run: InstrumentRun, eventType: EventType, details: Option<FailureDetails>,
                   site: SaveSite, faults: Faults)
    returns (outcome: Outcome)
    requires store.Valid() && run.id.Some? && run.id.value in store.runs
    modifies store`events
    ensures store.Valid()
    ensures outcome == (if site in faults then Threw(faults[site]) else Normal)
    ensures store.events == old(store.events) + (if site in faults then [] else [Event(run.id.value, eventType, details)])
  {
    if site in faults {
      return Threw(faults[site]);
    }
    store.AppendEvent(Event(run.id.value, eventType, details));
    outcome := Normal;
  }

  /**
   * markFailed: FAILED, completed now, with the error code and message (and nothing
   * else) set on the object; the run saved; one PROCESSING_FAILED event whose
   * details are that code and message. A throwing call ends it early.
   */
  method MarkFailed(store: Store, run: InstrumentRun, errorCode: string, errorMessage: Option<string>,
                    faults: Faults, doneAt: Timestamp)
    returns (outcome: Outcome)
    requires store.Valid() && run.id.Some? && run.id.value in store.runs
    modifies store`runs, store`events, run`status, run`processingCompletedAt, run`errorCode, run`errorMessage
    ensures store.Valid()
    ensures run.Fields() == old(run.Fields()).(status := Status.Failed, processingCompletedAt := Some(doneAt),
                                               errorCode := Some(errorCode), errorMessage := errorMessage)
    ensures var e := MarkFailedEffect(old(store.runs)[run.id.value], old(run.Fields()), errorCode, errorMessage, faults, doneAt);
      && store.runs == (if e.saved.Some? then old(store.runs)[run.id.value := e.saved.value] else old(store.runs))
      && store.events == old(store.events) + e.appended
      && outcome == e.outcome
  {
    run.SetStatus(Status.Failed);
    run.SetProcessingCompletedAt(Some(doneAt));
    run.SetErrorCode(Some(errorCode));
    run.SetErrorMessage(errorMessage);
    outcome := SaveRun(store, run, FailSave, faults, doneAt);
    if outcome.Threw? {
      return;
    }
    outcome := SaveEvent(store, run, EventType.ProcessingFailed, Some(FailureDetails(errorCode, errorMessage)), FailEvent, faults);
  }

  /**
   * processRunAsync: a missing run is left alone; otherwise the run is forced to
   * PROCESSING whatever its status, and then ends as the Worker function says.
   * `exit` is how the call ends (an exception from outside the try propagates),
   * `interruptRestored` whether it re-set the thread's interrupt flag.
   */
  method ProcessRunAsync(store: Store, runId: nat, workload: Workload, faults: Faults,
                         startedAt: Timestamp, doneAt: Timestamp)
    returns (exit: Outcome, interruptRestored: bool)
    requires store.Valid()
    modifies store
    ensures store.Valid()
    ensures store.measurements == old(store.measurements) && store.nextId == old(store.nextId)
    ensures runId !in old(store.runs) ==>
      exit == Normal && !interruptRestored && store.runs == old(store.runs) && store.events == old(store.events)
    ensures runId in old(store.runs) ==>
      var w := Worker(old(store.runs)[runId], workload, faults, startedAt, doneAt);
      && store.runs == (if w.effect.saved.Some? then old(store.runs)[runId := w.effect.saved.value] else old(store.runs))
      && store.events == old(store.events) + w.effect.appended
      && exit == w.effect.outcome
      && interruptRestored == w.interruptRestored
  {
    var run := store.FindById(runId);
    if run == null {
      return Normal, false;
    }
    ghost var row := store.runs[runId];
    ghost var f := BeginProcessing(LoadedFields(row), startedAt);
    var outcome := StartProcessing(store, run, faults, startedAt);
    if outcome.Threw? {
      return outcome, false;
    }
    ghost var runsBefore, eventsBefore := store.runs, store.events;
    exit, interruptRestored := TryProcessing(store, run, workload, faults, doneAt);
    ghost var attempt := Attempt(MergedRow(row, f, startedAt), f, workload, faults, doneAt);
    assert store.events == eventsBefore + attempt.effect.appended;
  }

  /**
   * The steps before the try: PROCESSING, started now, completion and errors
   * cleared on the object; the run saved; one PROCESSING_STARTED event without details.
   */
  method StartProcessing(store: Store, run: InstrumentRun, faults: Faults, startedAt: Timestamp)
    returns (outcome: Outcome)
    requires store.Valid() && run.id.Some? && run.id.value in store.runs
    modifies store`runs, store`events
    modifies run`status, run`processingStartedAt, run`processingCompletedAt, run`errorCode, run`errorMessage
    ensures store.Valid()
    ensures run.Fields() == BeginProcessing(old(run.Fields()), startedAt)
    ensures var processing := MergedRow(old(store.runs)[run.id.value], run.Fields(), startedAt);
      && outcome == (if StartSave in faults then Threw(faults[StartSave])
                     else if StartEvent in faults then Threw(faults[StartEvent]) else Normal)
      && store.runs == (if StartSave in faults then old(store.runs) else old(store.runs)[run.id.value := processing])
      && store.events == old(store.events) +
           (if StartSave in faults || StartEvent in faults then [] else [Event(run.id.value, EventType.ProcessingStarted, None)])
  {
    run.SetStatus(Status.Processing);
    run.SetProcessingStartedAt(Some(startedAt));
    run.SetProcessingCompletedAt(None);
    run.SetErrorCode(None);
    run.SetErrorMessage(None);
    outcome := SaveRun(store, run, StartSave, faults, startedAt);
    if outcome.Threw? {
      return;
    }
    outcome := SaveEvent(store, run, EventType.ProcessingStarted, None, StartEvent, faults);
  }

  /** The try block of processRunAsync with its catch clauses; see Attempt. */
  method TryProcessing(store: Store, run: InstrumentRun, workload: Workload, faults: Faults, doneAt: Timestamp)
    returns (exit: Outcome, interruptRestored: bool)
    requires store.Valid() && run.id.Some? && run.id.value in store.runs
    modifies store`runs, store`events
    modifies run`status, run`processingCompletedAt, run`processResult, run`errorCode, run`errorMessage
    ensures store.Valid()
    ensures var w := Attempt(old(store.runs)[run.id.value], old(run.Fields()), workload, faults, doneAt);
      && store.runs == (if w.effect.saved.Some? then old(store.runs)[run.id.value := w.effect.saved.value] else old(store.runs))
      && store.events == old(store.events) + w.effect.appended
      && exit == w.effect.outcome
      && interruptRestored == w.interruptRestored
  {
    ghost var stored := store.runs[run.id.value];
    ghost var f := run.Fields();
    match workload {
      case Interrupted =>
        interruptRestored := true;
        exit := MarkFailed(store, run, InterruptedCode, Some(InterruptedMessage), faults, doneAt);
      case Throws(message) =>
        interruptRestored := false;
        exit := MarkFailed(store, run, UnexpectedErrorCode, message, faults, doneAt);
      case Completes =>
        interruptRestored := false;
        run.SetStatus(Status.Succeeded);
        run.SetProcessingCompletedAt(Some(doneAt));
        run.SetProcessResult(Some(StubResult));
        run.SetErrorCode(None);
        run.SetErrorMessage(None);
        assert run.Fields() == CompleteSuccess(f, doneAt);
        var outcome := SaveRun(store, run, CompleteSave, faults, doneAt);
        if outcome.Normal? {
          outcome := SaveEvent(store, run, EventType.ProcessingCompleted, None, CompleteEvent, faults);
        }
        if outcome.Threw? {
          exit := MarkFailed(store, run, UnexpectedErrorCode, outcome.message, faults, doneAt);
        } else {
          exit := Normal;
        }
    }
  }

  // ------------------------------------------------------------- properties

  /**
   * Normal completion, whatever the stored status was: SUCCEEDED, started and
   * completed stamped, the stub result stored, no error; events STARTED then
   * COMPLETED, both without details.
   */
  lemma ProcessingSucceeds(row: RunRecord, startedAt: Timestamp, doneAt: Timestamp)
    ensures Worker(row, Completes, map[], startedAt, doneAt) == WorkerRun(Effect(
      Some(row.(status := Status.Succeeded, processingStartedAt := Some(startedAt),
                processingCompletedAt := Some(doneAt), processResult := Some(StubResult),
                errorCode := None, errorMessage := None, updatedAt := doneAt)),
      [Event(row.id, EventType.ProcessingStarted, None), Event(row.id, EventType.ProcessingCompleted, None)],
      Normal), false)
  {
  }

  /**
   * An interrupted workload: FAILED with INTERRUPTED and its fixed message, the
   * interrupt flag re-set, events STARTED then FAILED with the same code and message.
   */
  lemma ProcessingInterrupted(row: RunRecord, startedAt: Timestamp, doneAt: Timestamp)
    ensures Worker(row, Interrupted, map[], startedAt, doneAt) == WorkerRun(Effect(
      Some(row.(status := Status.Failed, processingStartedAt := Some(startedAt),
                processingCompletedAt := Some(doneAt), errorCode := Some(InterruptedCode),
                errorMessage := Some(InterruptedMessage), updatedAt := doneAt)),
      [Event(row.id, EventType.ProcessingStarted, None),
       Event(row.id, EventType.ProcessingFailed, Some(FailureDetails(InterruptedCode, Some(InterruptedMessage))))],
      Normal), true)
  {
  }

  /** Any other exception from the workload: FAILED with UNEXPECTED_ERROR and the exception's message. */
  lemma ProcessingThrows(row: RunRecord, message: Option<string>, startedAt: Timestamp, doneAt: Timestamp)
    ensures Worker(row, Throws(message), map[], startedAt, doneAt) == WorkerRun(Effect(
      Some(row.(status := Status.Failed, processingStartedAt := Some(startedAt),
                processingCompletedAt := Some(doneAt), errorCode := Some(UnexpectedErrorCode),
                errorMessage := message, updatedAt := doneAt)),
      [Event(row.id, EventType.ProcessingStarted, None),
       Event(row.id, EventType.ProcessingFailed, Some(FailureDetails(UnexpectedErrorCode, message)))],
      Normal), false)
  {
  }

  /**
   * A failing save of the SUCCEEDED run or of its COMPLETED event is caught like any
   * other exception: the run ends FAILED with UNEXPECTED_ERROR and that message, no
   * COMPLETED event is kept, and the stub result set before the failure stays on the
   * FAILED run, because markFailed does not clear it.
   */
  lemma CompletionFailureIsCaught(row: RunRecord, faults: Faults, startedAt: Timestamp, doneAt: Timestamp)
    requires StartSave !in faults && StartEvent !in faults && FailSave !in faults && FailEvent !in faults
    requires CompleteSave in faults || CompleteEvent in faults
    ensures var message := if CompleteSave in faults then faults[CompleteSave] else faults[CompleteEvent];
      Worker(row, Completes, faults, startedAt, doneAt) == WorkerRun(Effect(
        Some(row.(status := Status.Failed, processingStartedAt := Some(startedAt),
                  processingCompletedAt := Some(doneAt), processResult := Some(StubResult),
                  errorCode := Some(UnexpectedErrorCode), errorMessage := message, updatedAt := doneAt)),
        [Event(row.id, EventType.ProcessingStarted, None),
         Event(row.id, EventType.ProcessingFailed, Some(FailureDetails(UnexpectedErrorCode, message)))],
        Normal), false)
  {
  }

  /**
   * A failure in the save or the event before the try is not turned into FAILED: it
   * propagates, no event is kept, and when only the event failed the run stays PROCESSING.
   */
  lemma FailureBeforeTryPropagates(row: RunRecord, workload: Workload, faults: Faults, startedAt: Timestamp, doneAt: Timestamp)
    requires StartSave in faults || StartEvent in faults
    ensures var w := Worker(row, workload, faults, startedAt, doneAt);
      && w.effect.outcome == Threw(if StartSave in faults then faults[StartSave] else faults[StartEvent])
      && w.effect.appended == []
      && !w.interruptRestored
      && w.effect.saved == (if StartSave in faults then None
                            else Some(row.(status := Status.Processing, processingStartedAt := Some(startedAt),
                                           processingCompletedAt := None, errorCode := None, errorMessage := None,
                                           updatedAt := startedAt)))
  {
  }

  /**
   * A failure inside markFailed propagates too, and no FAILED event is kept. When
   * its save is the call that fails, the run keeps the last status saved: PROCESSING,
   * or SUCCEEDED when only the COMPLETED event had failed.
   */
  lemma FailureInMarkFailedPropagates(row: RunRecord, workload: Workload, faults: Faults,
                                      startedAt: Timestamp, doneAt: Timestamp)
    requires StartSave !in faults && StartEvent !in faults
    requires !workload.Completes? || CompleteSave in faults || CompleteEvent in faults
    requires FailSave in faults || FailEvent in faults
    ensures var w := Worker(row, workload, faults, startedAt, doneAt);
      && w.effect.outcome == Threw(if FailSave in faults then faults[FailSave] else faults[FailEvent])
      && w.effect.appended == [Event(row.id, EventType.ProcessingStarted, None)]
      && w.effect.saved.Some?
      && w.effect.saved.value.status ==
           (if FailEvent in faults && FailSave !in faults then Status.Failed
            else if workload.Completes? && CompleteSave !in faults then Status.Succeeded
            else Status.Processing)
  {
  }

  /**
   * With no failure outside the try, the worker always returns normally and leaves
   * the run in a terminal status, with exactly two events: STARTED, then COMPLETED
   * when it succeeded or FAILED when it failed.
   */
  lemma EndsTerminalUnlessFailureEscapes(row: RunRecord, workload: Workload, faults: Faults,
                                         startedAt: Timestamp, doneAt: Timestamp)
    requires faults.Keys <= {CompleteSave, CompleteEvent}
    ensures var w := Worker(row, workload, faults, startedAt, doneAt);
      && w.effect.outcome == Normal
      && w.effect.saved.Some? && w.effect.saved.value.status.IsTerminal()
      && |w.effect.appended| == 2
      && w.effect.appended[0] == Event(row.id, EventType.ProcessingStarted, None)
      && w.effect.appended[1].runId == row.id
      && w.effect.appended[1].eventType ==
           (if w.effect.saved.value.status == Status.Succeeded then EventType.ProcessingCompleted
            else EventType.ProcessingFailed)
  {
  }

  /**
   * On every path the events appended are a prefix of STARTED followed by one of
   * COMPLETED or FAILED, all for the run; a FAILED event's details are exactly the
   * error code and message of the saved FAILED run; a COMPLETED event means the run
   * was saved SUCCEEDED with no error.
   */
  lemma WorkerEventsAgreeWithRun(row: RunRecord, workload: Workload, faults: Faults,
                                 startedAt: Timestamp, doneAt: Timestamp)
    ensures var w := Worker(row, workload, faults, startedAt, doneAt);
      var events := w.effect.appended;
      && |events| <= 2
      && (forall i :: 0 <= i < |events| ==> events[i].runId == row.id)
      && (|events| >= 1 ==> events[0] == Event(row.id, EventType.ProcessingStarted, None))
      && (|events| == 2 ==> events[1].eventType in {EventType.ProcessingCompleted, EventType.ProcessingFailed})
      && (|events| == 2 && events[1].eventType == EventType.ProcessingFailed ==>
            && w.effect.saved.Some? && w.effect.saved.value.status == Status.Failed
            && w.effect.saved.value.errorCode.Some?
            && events[1].details == Some(FailureDetails(w.effect.saved.value.errorCode.value,
                                                         w.effect.saved.value.errorMessage)))
      && (|events| == 2 && events[1].eventType == EventType.ProcessingCompleted ==>
            && w.effect.saved.Some? && w.effect.saved.value.status == Status.Succeeded
            && w.effect.saved.value.errorCode.None? && w.effect.saved.value.errorMessage.None?
            && events[1].details.None?)
  {
  }

  /** There is no guard on the stored status: a run already SUCCEEDED or FAILED is processed again. */
  lemma TerminalRunIsReprocessed(row: RunRecord, workload: Workload, startedAt: Timestamp, doneAt: Timestamp)
    requires row.status.IsTerminal()
    ensures var w := Worker(row, workload, map[], startedAt, doneAt);
      && w.effect.appended[0] == Event(row.id, EventType.ProcessingStarted, None)
      && w.effect.saved.Some? && w.effect.saved.value.processingStartedAt == Some(startedAt)
  {
  }
}
