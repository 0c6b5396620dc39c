/**
 * Value types shared by the run lifecycle: statuses, audit events, measurement rows,
 * reference data and the persisted form of an instrument run.
 */
module Domain {
  import opened Wrappers

  /** A reading of the wall clock (OffsetDateTime); only compared for equality. */
  type Timestamp = int

  /** A client identity (UUID); only compared for equality. */
  type ClientId = nat

  /** A BigDecimal value: unscaled digits and a scale. No arithmetic is done on it. */
  datatype Decimal = Decimal(unscaled: int, scale: int)

  /** The lifecycle states of a run (InstrumentRunStatus). */
  datatype Status = Created | MeasurementsSubmitted | Processing | Succeeded | Failed
  {
    predicate IsTerminal() { this == Succeeded || this == Failed }
  }

  /** The kinds of audit event (InstrumentRunEventType). */
  datatype EventType =
    | Created
    | MeasurementsSubmitted
    | ProcessingStarted
    | ProcessingCompleted
    | ProcessingFailed

  /** The JSON details of a PROCESSING_FAILED event: {errorCode, errorMessage}. */
  datatype FailureDetails = FailureDetails(errorCode: string, errorMessage: Option<string>)

  /** One audit event row, owned by the run it names. */
  datatype Event = Event(runId: nat, eventType: EventType, details: Option<FailureDetails>)

  /** Reference data: an instrument model. */
  datatype Instrument = Instrument(id: nat, code: string, name: string)

  /** Reference data: what a measurement code means. */
  datatype MeasurementDefinition = MeasurementDefinition(id: nat, code: string, name: string, unit: string)

  /** Reference data: one measurement an instrument is expected to produce, and where it is displayed. */
  datatype InstrumentMeasurement = InstrumentMeasurement(definition: MeasurementDefinition, displayOrder: int)

  /** One submitted measurement row; immutable once written. */
  datatype Measurement = Measurement(runId: nat, definition: MeasurementDefinition, value: Decimal)

  /**
   * The persisted row of an instrument run. The non-null columns (instrument,
   * creator, status, the creation and update timestamps) are plain values, the
   * nullable ones are options.
   */
  datatype RunRecord = RunRecord(
    id: nat,
    instrument: Instrument,
    createdByClientId: ClientId,
    externalReference: Option<string>,
    status: Status,
    measurementsSubmittedAt: Option<Timestamp>,
    measurementsSubmittedByClientId: Option<ClientId>,
    processingStartedAt: Option<Timestamp>,
    processingCompletedAt: Option<Timestamp>,
    errorCode: Option<string>,
    errorMessage: Option<string>,
    processResult: Option<string>,
    createdAt: Timestamp,
    updatedAt: Timestamp)
}
