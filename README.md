# Instrument run lifecycle, modelled in Dafny

This project models the core of the instrument-results service. The service
records an instrument run and its measurements, and processes the run
asynchronously. A run goes through these statuses:

CREATED → MEASUREMENTS_SUBMITTED → PROCESSING → SUCCEEDED or FAILED

Each step writes an audit event.

The model covers these parts of the service:

- **`InstrumentRun` entity** (`instrument_run.dfy`, module `RunEntity`): a class with the entity's fields and setters.
- **Persistence** (`store.dfy`, module `Persistence`): a `Store` class holding the tables the core writes.
  - `runs`: the run rows, by id.
  - `events`: the append-only event log.
  - `measurements`: the measurement rows.
  - `FindById` loads a fresh entity object from a row. `Insert` and `Update` write one back.
  - `Update` follows the column mapping. `instrument`, `createdByClientId` and `createdAt` are `updatable = false`, and `updatedAt` is stamped on every update.
- **Reference data** (`catalog.dfy`, module `Catalogs`): the read-only catalog of instruments, measurement definitions and required measurements.
- **`InstrumentRunServiceImpl`** (`instrument_run_service.dfy`, module `InstrumentRunService`): `createRun`, `submitMeasurements` and `getRunById`.
  - These follow the implementation as written.
  - `submitMeasurements` is `@Transactional`. The rows it writes are kept pending and committed only when the call returns normally, so an exception leaves every table unchanged.
- **`ProcessingServiceImpl`** (`processing_service.dfy`, module `ProcessingService`): `processRunAsync`, `markFailed` and `saveEvent`.
  - These are methods over the store.
  - They are proved equal to a pure specification, `Worker`, which the property lemmas are about.
  - Two things are inputs, so that every path of the try/catch can be reached:
    - how the workload (the sleep) ends;
    - which repository call, if any, throws.
- **Behaviour the unit tests expect** (`submit_as_tested.dfy`, module `SubmitAsTested`). The implementation does not do this, so it is a separate module:
  - it rejects an empty map and null values;
  - it validates every entry before writing anything;
  - it returns the run's details;
  - it hands the run id to the worker only after the commit succeeds.
- **The end-to-end lifecycle** (`lifecycle.dfy`, module `Lifecycle`): create, submit with the expected behaviour, then process. The lemmas here are about each run's event history.

Where the implementation and its tests disagree, the main model follows the implementation:

- `submitMeasurements` returns a count rather than the run's details.
- An empty map is accepted: no rows are written and the status still advances.
- A null value is not checked.
- Codes are checked inside the write loop, and the transaction's rollback undoes any partial writes.
- Nothing dispatches the run to the worker.

The tests' expectations are modelled only in `SubmitAsTested`.

Other behaviour that the model states as written:

- The worker never checks the stored status. A run that is already SUCCEEDED or FAILED is processed again.
- If the save of the SUCCEEDED run fails, or its COMPLETED event fails, the run ends FAILED but keeps the stub result that was set before the failure.
- A failure outside the try block, or inside `markFailed`, propagates out of the worker. It can leave the run in PROCESSING.

## Model

Source paths are relative to the repository root.

| member | source | states |
|---|---|---|
| RunEntity.InstrumentRun.constructor | src/main/java/com/robert/instrumentresultsservice/domain/InstrumentRun.java:56-103 | A new entity has status CREATED and every other field null |
| RunEntity.InstrumentRun.Load | src/main/java/com/robert/instrumentresultsservice/domain/InstrumentRun.java:33-99 | An entity loaded from a row holds exactly that row's columns |
| RunEntity.InstrumentRun.SetInstrument | src/main/java/com/robert/instrumentresultsservice/domain/InstrumentRun.java:110 | Sets the instrument and changes no other field |
| RunEntity.InstrumentRun.SetCreatedByClientId | src/main/java/com/robert/instrumentresultsservice/domain/InstrumentRun.java:113-115 | Sets the creator and changes no other field |
| RunEntity.InstrumentRun.SetExternalReference | src/main/java/com/robert/instrumentresultsservice/domain/InstrumentRun.java:118-120 | Sets the external reference and changes no other field |
| RunEntity.InstrumentRun.SetStatus | src/main/java/com/robert/instrumentresultsservice/domain/InstrumentRun.java:123 | Sets the status and changes no other field |
| RunEntity.InstrumentRun.SetMeasurementsSubmittedAt | src/main/java/com/robert/instrumentresultsservice/domain/InstrumentRun.java:126-128 | Sets the submission time and changes no other field |
| RunEntity.InstrumentRun.SetMeasurementsSubmittedByClientId | src/main/java/com/robert/instrumentresultsservice/domain/InstrumentRun.java:134-136 | Sets the submitter and changes no other field |
| RunEntity.InstrumentRun.SetProcessingStartedAt | src/main/java/com/robert/instrumentresultsservice/domain/InstrumentRun.java:139-141 | Sets the processing start and changes no other field |
| RunEntity.InstrumentRun.SetProcessingCompletedAt | src/main/java/com/robert/instrumentresultsservice/domain/InstrumentRun.java:144-146 | Sets the processing completion and changes no other field |
| RunEntity.InstrumentRun.SetErrorCode | src/main/java/com/robert/instrumentresultsservice/domain/InstrumentRun.java:149 | Sets the error code and changes no other field |
| RunEntity.InstrumentRun.SetErrorMessage | src/main/java/com/robert/instrumentresultsservice/domain/InstrumentRun.java:152 | Sets the error message and changes no other field |
| RunEntity.InstrumentRun.SetProcessResult | src/main/java/com/robert/instrumentresultsservice/domain/InstrumentRun.java:155 | Sets the process result and changes no other field |
| Catalogs.IndexByCode | src/main/java/com/robert/instrumentresultsservice/service/InstrumentRunServiceImpl.java:111-118 | Over definitions with unique codes, the map holds every definition under its own code and nothing else. It has as many entries as there are definitions |
| Catalogs.Catalog.FindInstrumentByCode | src/main/java/com/robert/instrumentresultsservice/service/InstrumentRunServiceImpl.java:55-61 | Finds an instrument exactly when the catalog holds one under the code asked for. What it returns carries exactly that code, and when nothing is found no instrument in the catalog has that code |
| Catalogs.Catalog.RequiredOf | src/main/java/com/robert/instrumentresultsservice/service/InstrumentRunServiceImpl.java:181-184 | The required measurements come in strictly ascending display order |
| Catalogs.Catalog.DefinitionsByCode | src/main/java/com/robert/instrumentresultsservice/service/InstrumentRunServiceImpl.java:110-118 | The keys are exactly the codes the instrument defines, and each maps to its own definition |
| Persistence.MergedRow | src/main/java/com/robert/instrumentresultsservice/domain/InstrumentRun.java:40-99 | An update keeps id, instrument, creator and creation time. It stamps updatedAt, and status and error fields come from the object |
| Persistence.Store.FindById | src/main/java/com/robert/instrumentresultsservice/service/InstrumentRunServiceImpl.java:96-101 | Returns null exactly when no row has the id; otherwise a fresh object holding the row |
| Persistence.Store.Insert | src/main/java/com/robert/instrumentresultsservice/service/InstrumentRunServiceImpl.java:70 | Stores the object under the next identity value, which was unused. It stamps both timestamps, writes them back to the object, and keeps the store's invariant |
| Persistence.Store.Update | src/main/java/com/robert/instrumentresultsservice/service/ProcessingServiceImpl.java:60 | Replaces exactly the run's row with the merged row, and keeps the store's invariant |
| Persistence.Store.AppendEvent | src/main/java/com/robert/instrumentresultsservice/service/InstrumentRunServiceImpl.java:77 | Appends one event at the end of the log |
| Persistence.Store.AppendMeasurements | src/main/java/com/robert/instrumentresultsservice/service/InstrumentRunServiceImpl.java:135 | Appends the run's rows at the end of the measurement table |
| InstrumentRunService.CreateRun | src/main/java/com/robert/instrumentresultsservice/service/InstrumentRunServiceImpl.java:47-86 | Fails with "Instrument not found" exactly when the code is unknown, and then changes nothing. Otherwise it inserts one CREATED run under a fresh id, appends one CREATED event for it, and returns the id, status, creation time and the instrument code, which is the code asked for |
| InstrumentRunService.WriteMeasurements | src/main/java/com/robert/instrumentresultsservice/service/InstrumentRunServiceImpl.java:120-136 | Fails exactly when some key is not a defined code, naming such a key. Otherwise it writes exactly one row per entry, with that entry's value and definition. Every row written before a failure is also correct |
| InstrumentRunService.CommitSubmission | src/main/java/com/robert/instrumentresultsservice/service/InstrumentRunServiceImpl.java:138-149 | The run becomes MEASUREMENTS_SUBMITTED with the submitter and time. The pending rows are stored, one MEASUREMENTS_SUBMITTED event is appended, and nothing else changes |
| InstrumentRunService.SubmitMeasurements | src/main/java/com/robert/instrumentresultsservice/service/InstrumentRunServiceImpl.java:88-156 | A missing run gives "run not found"; any status but CREATED gives "already submitted". From CREATED, it succeeds exactly when every code is known, and then the run row, one row per entry, one event and the count are as described. Any failure leaves every table unchanged. An empty map still succeeds |
| InstrumentRunService.SubmittedValues | src/main/java/com/robert/instrumentresultsservice/service/InstrumentRunServiceImpl.java:172-179 | A code is present exactly when the run has a row for it, with that row's value |
| InstrumentRunService.RequiredMeasurements | src/main/java/com/robert/instrumentresultsservice/service/InstrumentRunServiceImpl.java:181-193 | One entry per required measurement, in catalog order. Each has that definition's code, name, unit and display order, and the submitted value for its code or null |
| InstrumentRunService.GetRunById | src/main/java/com/robert/instrumentresultsservice/service/InstrumentRunServiceImpl.java:158-214 | Fails with "run not found" exactly when the run is missing. Otherwise it returns every column of the run (id, status, creator, external reference, submission time and client, processing start and completion, error code and message, process result, created and updated times) and its instrument's code and name. The required list follows the catalog's required measurements entry by entry (code, name, unit, display order), is in strictly ascending display order, and has a value exactly for the codes the run submitted, equal to the submitted value |
| ProcessingService.SaveRun | src/main/java/com/robert/instrumentresultsservice/service/ProcessingServiceImpl.java:60 | Either the injected exception propagates and nothing is written, or the run's row is updated from the object |
| ProcessingService.SaveEvent | src/main/java/com/robert/instrumentresultsservice/service/ProcessingServiceImpl.java:104-114 | Either the injected exception propagates and nothing is appended, or one event of the given type and details is appended for the run |
| ProcessingService.MarkFailed | src/main/java/com/robert/instrumentresultsservice/service/ProcessingServiceImpl.java:87-102 | Sets FAILED, the completion time, the code and the message on the object. It saves the run, then appends a FAILED event whose details are that same code and message; either step may throw |
| ProcessingService.StartProcessing | src/main/java/com/robert/instrumentresultsservice/service/ProcessingServiceImpl.java:53-61 | Marks the object PROCESSING, started now, with completion and error cleared. It saves the run and appends PROCESSING_STARTED; either step may throw |
| ProcessingService.TryProcessing | src/main/java/com/robert/instrumentresultsservice/service/ProcessingServiceImpl.java:63-84 | The try block and both catch clauses have exactly the effect `Attempt` specifies |
| ProcessingService.ProcessRunAsync | src/main/java/com/robert/instrumentresultsservice/service/ProcessingServiceImpl.java:42-85 | A missing run changes nothing. Otherwise the saved row, the appended events, how the call ends and the interrupt flag are exactly those of `Worker` on the stored row |
| ProcessingService.ProcessingSucceeds | src/main/java/com/robert/instrumentresultsservice/service/ProcessingServiceImpl.java:53-76 | A completed workload leaves SUCCEEDED, both timestamps, the stub result and no error. The events are STARTED then COMPLETED |
| ProcessingService.ProcessingInterrupted | src/main/java/com/robert/instrumentresultsservice/service/ProcessingServiceImpl.java:77-80 | An interruption leaves FAILED with INTERRUPTED and "Processing thread interrupted" and re-sets the interrupt flag. The events are STARTED then FAILED with those details |
| ProcessingService.ProcessingThrows | src/main/java/com/robert/instrumentresultsservice/service/ProcessingServiceImpl.java:81-84 | Any other exception leaves FAILED with UNEXPECTED_ERROR and the exception's (nullable) message. The events are STARTED then FAILED with those details |
| ProcessingService.CompletionFailureIsCaught | src/main/java/com/robert/instrumentresultsservice/service/ProcessingServiceImpl.java:67-84 | A failing save of the SUCCEEDED run or of its COMPLETED event ends FAILED with UNEXPECTED_ERROR. No COMPLETED event is kept, and the stub result stays on the FAILED run |
| ProcessingService.FailureBeforeTryPropagates | src/main/java/com/robert/instrumentresultsservice/service/ProcessingServiceImpl.java:53-62 | A failure at line 60 or 61 propagates and no event is kept. When only the event failed, the run stays PROCESSING |
| ProcessingService.FailureInMarkFailedPropagates | src/main/java/com/robert/instrumentresultsservice/service/ProcessingServiceImpl.java:87-102 | A failure inside markFailed propagates and only STARTED is kept. When its save failed, the run keeps PROCESSING, or SUCCEEDED if only the COMPLETED event had failed |
| ProcessingService.EndsTerminalUnlessFailureEscapes | src/main/java/com/robert/instrumentresultsservice/service/ProcessingServiceImpl.java:63-85 | With no failure outside the try, the worker returns normally and the run is terminal. The events are STARTED then COMPLETED exactly when the run SUCCEEDED, else FAILED |
| ProcessingService.WorkerEventsAgreeWithRun | src/main/java/com/robert/instrumentresultsservice/service/ProcessingServiceImpl.java:97-101 | On every path, at most STARTED then COMPLETED or FAILED are appended, all for the run. A FAILED event's details equal the saved run's error code and message, and COMPLETED means the run was saved SUCCEEDED with no error |
| ProcessingService.TerminalRunIsReprocessed | src/main/java/com/robert/instrumentresultsservice/service/ProcessingServiceImpl.java:47-61 | A SUCCEEDED or FAILED run is processed again: a new STARTED event and a new start time |
| SubmitAsTested.ValidateAll | src/test/java/com/robert/instrumentresultsservice/service/InstrumentRunServiceImplSubmitMeasurementsTest.java:162-271 | Reports nothing exactly when every entry has a value and a known code. Otherwise it names an entry whose value is null, or a valued entry whose code is unknown |
| SubmitAsTested.WriteAndCommit | src/test/java/com/robert/instrumentresultsservice/service/InstrumentRunServiceImplSubmitMeasurementsTest.java:93-108 | After validation, one row per entry, the run MEASUREMENTS_SUBMITTED and one event, committed together |
| SubmitAsTested.SubmitMeasurements | src/test/java/com/robert/instrumentresultsservice/service/InstrumentRunServiceImplSubmitMeasurementsTest.java:58-121 | Failures, in order: not found, already submitted, empty map, a null value or unknown code, and commit failure. Each failure changes nothing and dispatches nothing. On success the run and rows are written and the result is `GetRunById` of the new state. The run id is dispatched exactly on success |
| Lifecycle.EventsOfAppend | src/main/java/com/robert/instrumentresultsservice/repository/InstrumentRunEventRepository.java:10 | A run's history (its events in log order) over a log with more appended is its history so far followed by the run's own appended events |
| Lifecycle.CreateTracked | src/main/java/com/robert/instrumentresultsservice/service/InstrumentRunServiceImpl.java:47-86 | After createRun, the new run's history is exactly [CREATED] |
| Lifecycle.SubmitTracked | src/test/java/com/robert/instrumentresultsservice/service/InstrumentRunServiceImplSubmitMeasurementsTest.java:58-121 | An accepted submission adds MEASUREMENTS_SUBMITTED to the history and dispatches the run; a rejected one changes nothing |
| Lifecycle.ProcessDispatched | src/test/java/com/robert/instrumentresultsservice/service/ProcessingServiceImplIT.java:30-81 | With no storage failure, processing adds STARTED then COMPLETED or FAILED to the history and leaves the matching terminal status |
| Lifecycle.SubmitAndProcess | src/test/java/com/robert/instrumentresultsservice/service/InstrumentRunServiceImplSubmitMeasurementsTest.java:114-120 | From CREATED, an accepted submission followed by its dispatched processing gives the history CREATED, MEASUREMENTS_SUBMITTED, STARTED, then COMPLETED or FAILED |
| Lifecycle.CreateSubmitAndProcess | src/test/java/com/robert/instrumentresultsservice/service/InstrumentRunServiceImplSubmitMeasurementsTest.java:58-121 | createRun as implemented, then the submission the unit tests expect (which rejects an empty map and dispatches the run on commit), then processing. An unknown instrument changes nothing. A rejected submission leaves the run CREATED with history [CREATED]. Otherwise the run is terminal with the four lifecycle events in order and one row per entry |

## Left out

- **Web layer**: the controllers, the DTOs and the exception-to-HTTP mapping are not part of this model.
- **Threads and the executor**: `@Async` and the executor are not modelled. A call to `ProcessRunAsync` is one complete run of the worker.
  - Concurrent workers are not modelled.
  - The check-then-act race between two `submitMeasurements` calls is not modelled.
  - `Thread.sleep` becomes the injected `Workload`. Restoring the interrupt flag is reported as a boolean.
- **Clock**: `OffsetDateTime.now()` becomes timestamp parameters.
  - In `ProcessRunAsync`, one completion time `doneAt` serves both line 66 and line 88. The source reads the clock twice.
  - Timestamps are integers with no ordering assumed, so "started before completed" is not stated.
- **Hibernate-generated values**: the ids and timestamps of events and measurement rows are not modelled. The event log's order stands for creation order.
- **ObjectNode details**: the JSON `ObjectNode` of a FAILED event is the pair (error code, error message) that it holds.
- **ProcessResult**: `InstrumentRun.setProcessResult` takes a `String`, but `ProcessingServiceImpl.java:69` passes a `ProcessResult` record. The model stores the string "stub-result". ProcessResult.java and InstrumentRunStatus.java are not part of this model; the statuses come from their uses.
- **Null values in `InstrumentRunService.SubmitMeasurements`**: the implementation's map values are non-null `Decimal`s. A null value there would be rejected by the `nullable = false` column when the transaction flushes, and that database failure is not modelled. The variant the unit tests expect models null values as `Option`.
- **Duplicate codes**: `Collectors.toMap` throws on a duplicate key. The catalog's unique constraint on codes rules that out for definitions (`Catalog.Valid`). For measurement rows, the store invariant (`UniquePerRun`) rules it out, and `GetRunById` requires it.
- **Storage faults in createRun and submitMeasurements**: a repository that throws is modelled only in the worker. In the variant, the failure of the commit itself is modelled as `commitFails`.
- **Exception classes and messages**: an `Error` carries the code or run id its message names. Which exceptions are `IllegalStateException` rather than `IllegalArgumentException`, and the message texts (such as "Instrument not found: " followed by the code), are not modelled.
- InstrumentRunService.WriteMeasurements: reports some unknown code of the map, not necessarily the first one in the `entrySet()` order the loop at `InstrumentRunServiceImpl.java:121` follows, because a `Map`'s iteration order is not specified.
- **Hibernate timestamps**: a new run's `createdAt` and `updatedAt`, and the `updatedAt` of an update, take the operation's own `now` parameter rather than a separate clock reading by Hibernate.
- **Decimal arithmetic**: `BigDecimal` values are (unscaled, scale) pairs. They are only stored and compared, never computed with.
- **Query services and listing runs**: `InstrumentRunQueryServiceImpl`, `InstrumentQueryServiceImpl` and the listing endpoints are not part of this model.
- **Lifecycle.CreateSubmitAndProcess**: states the number of rows written, not their contents. The row contents are stated by `SubmitAsTested.SubmitMeasurements`.
