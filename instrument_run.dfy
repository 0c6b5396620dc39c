/**
 * The InstrumentRun entity: the mutable record that both services change through
 * its setters. A field the database may hold as NULL is an Option here; id,
 * createdAt and updatedAt have no setter and are assigned only by persistence.
 */
module RunEntity {
  import opened Wrappers
  import opened Domain

  /** Every field of an InstrumentRun object at one moment. */
  datatype RunFields = RunFields(
    id: Option<nat>,
    instrument: Option<Instrument>,
    createdByClientId: Option<ClientId>,
    externalReference: Option<string>,
    status: Status,
    measurementsSubmittedAt: Option<Timestamp>,
    measurementsSubmittedByClientId: Option<ClientId>,
    processingStartedAt: Option<Timestamp>,
    processingCompletedAt: Option<Timestamp>,
    errorCode: Option<string>,
    errorMessage: Option<string>,
    processResult: Option<string>,
    createdAt: Option<Timestamp>,
    updatedAt: Option<Timestamp>)

  /** The fields of a freshly constructed run: status CREATED, every other field null. */
  const FreshFields: RunFields :=
    RunFields(None, None, None, None, Status.Created, None, None, None, None, None, None, None, None, None)

  /** The object state JPA hydrates from a row: every column, with id and both timestamps present. */
  function LoadedFields(row: RunRecord): RunFields {
    RunFields(
      Some(row.id), Some(row.instrument), Some(row.createdByClientId), row.externalReference, row.status,
      row.measurementsSubmittedAt, row.measurementsSubmittedByClientId,
      row.processingStartedAt, row.processingCompletedAt,
      row.errorCode, row.errorMessage, row.processResult, Some(row.createdAt), Some(row.updatedAt))
  }

  class InstrumentRun {
    var id: Option<nat>
    var instrument: Option<Instrument>
    var createdByClientId: Option<ClientId>
    var externalReference: Option<string>
    var status: Status
    var measurementsSubmittedAt: Option<Timestamp>
    var measurementsSubmittedByClientId: Option<ClientId>
    var processingStartedAt: Option<Timestamp>
    var processingCompletedAt: Option<Timestamp>
    var errorCode: Option<string>
    var errorMessage: Option<string>
    var processResult: Option<string>
    var createdAt: Option<Timestamp>
    var updatedAt: Option<Timestamp>

    /** The object's current state as one value. */
    function Fields(): RunFields
      reads this
    {
      RunFields(id, instrument, createdByClientId, externalReference, status,
                measurementsSubmittedAt, measurementsSubmittedByClientId,
                processingStartedAt, processingCompletedAt,
                errorCode, errorMessage, processResult, createdAt, updatedAt)
    }

    /** The JPA no-argument constructor: the status column defaults to CREATED, everything else is null. */
    constructor ()
      ensures Fields() == FreshFields
    {
      id, instrument, createdByClientId, externalReference := None, None, None, None;
      status := Status.Created;
      measurementsSubmittedAt, measurementsSubmittedByClientId := None, None;
      processingStartedAt, processingCompletedAt := None, None;
      errorCode, errorMessage, processResult := None, None, None;
      createdAt, updatedAt := None, None;
    }

    /** Hydration of a loaded row: the object holds exactly the row's columns. */
    constructor Load(row: RunRecord)
      ensures Fields() == LoadedFields(row)
    {
      id, instrument, createdByClientId := Some(row.id), Some(row.instrument), Some(row.createdByClientId);
      externalReference, status := row.externalReference, row.status;
      measurementsSubmittedAt, measurementsSubmittedByClientId := row.measurementsSubmittedAt, row.measurementsSubmittedByClientId;
      processingStartedAt, processingCompletedAt := row.processingStartedAt, row.processingCompletedAt;
      errorCode, errorMessage, processResult := row.errorCode, row.errorMessage, row.processResult;
      createdAt, updatedAt := Some(row.createdAt), Some(row.updatedAt);
    }

    method SetInstrument(value: Instrument)
      modifies this`instrument
      ensures Fields() == old(Fields()).(instrument := Some(value))
    {
      instrument := Some(value);
    }

    method SetCreatedByClientId(value: ClientId)
      modifies this`createdByClientId
      ensures Fields() == old(Fields()).(createdByClientId := Some(value))
    {
      createdByClientId := Some(value);
    }

    method SetExternalReference(value: Option<string>)
      modifies this`externalReference
      ensures Fields() == old(Fields()).(externalReference := value)
    {
      externalReference := value;
    }

    /** The status is an enum value, never null. */
    method SetStatus(value: Status)
      modifies this`status
      ensures Fields() == old(Fields()).(status := value)
    {
      status := value;
    }

    method SetMeasurementsSubmittedAt(value: Option<Timestamp>)
      modifies this`measurementsSubmittedAt
      ensures Fields() == old(Fields()).(measurementsSubmittedAt := value)
    {
      measurementsSubmittedAt := value;
    }

    method SetMeasurementsSubmittedByClientId(value: Option<ClientId>)
      modifies this`measurementsSubmittedByClientId
      ensures Fields() == old(Fields()).(measurementsSubmittedByClientId := value)
    {
      measurementsSubmittedByClientId := value;
    }

    method SetProcessingStartedAt(value: Option<Timestamp>)
      modifies this`processingStartedAt
      ensures Fields() == old(Fields()).(processingStartedAt := value)
    {
      processingStartedAt := value;
    }

    method SetProcessingCompletedAt(value: Option<Timestamp>)
      modifies this`processingCompletedAt
      ensures Fields() == old(Fields()).(processingCompletedAt := value)
    {
      processingCompletedAt := value;
    }

    method SetErrorCode(value: Option<string>)
      modifies this`errorCode
      ensures Fields() == old(Fields()).(errorCode := value)
    {
      errorCode := value;
    }

    method SetErrorMessage(value: Option<string>)
      modifies this`errorMessage
      ensures Fields() == old(Fields()).(errorMessage := value)
    {
      errorMessage := value;
    }

    method SetProcessResult(value: Option<string>)
      modifies this`processResult
      ensures Fields() == old(Fields()).(processResult := value)
    {
      processResult := value;
    }
  }
}
