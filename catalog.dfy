/**
 * The read-only reference data the services consult: instruments by code, the
 * measurement definitions of each instrument, and each instrument's required
 * measurements in display order. Absent keys read as empty lists, as the
 * repositories return them.
 */
module Catalogs {
  import opened Wrappers
  import opened Domain

  /** No two definitions share a code (the unique constraint on measurement_definition.code). */
  predicate UniqueCodes(defs: seq<MeasurementDefinition>) {
    forall i, j :: 0 <= i < j < |defs| ==> defs[i].code != defs[j].code
  }

  /** The codes the definitions carry. */
  function DefinedCodes(defs: seq<MeasurementDefinition>): set<string> {
    set i | 0 <= i < |defs| :: defs[i].code
  }

  /** Display orders strictly increase (the query orders by displayOrder; a pair (instrument, displayOrder) is unique). */
  predicate StrictlyAscending(required: seq<InstrumentMeasurement>) {
    forall i, j :: 0 <= i < j < |required| ==> required[i].displayOrder < required[j].displayOrder
  }

  /** A definitions map as Collectors.toMap(getCode, d -> d) builds it: every definition under its own code. */
  predicate KeyedByCode(byCode: map<string, MeasurementDefinition>) {
    forall c :: c in byCode ==> byCode[c].code == c
  }

  /**
   * Collectors.toMap(MeasurementDefinition::getCode, d -> d) over a list whose
   * codes are unique: each definition is found under its code, and nothing else is there.
   */
  function IndexByCode(defs: seq<MeasurementDefinition>): (byCode: map<string, MeasurementDefinition>)
    requires UniqueCodes(defs)
    ensures KeyedByCode(byCode)
    ensures forall i :: 0 <= i < |defs| ==> defs[i].code in byCode && byCode[defs[i].code] == defs[i]
    ensures forall c :: c in byCode ==> exists i :: 0 <= i < |defs| && defs[i] == byCode[c]
    ensures |byCode| == |defs|
  {
    if defs == [] then map[]
    else
      var rest := IndexByCode(defs[1..]);
      assert defs[0].code !in rest;
      rest[defs[0].code := defs[0]]
  }

  /** The keys of an index by code are exactly the codes of the definitions indexed. */
  lemma IndexedCodes(defs: seq<MeasurementDefinition>, byCode: map<string, MeasurementDefinition>)
    requires forall i :: 0 <= i < |defs| ==> defs[i].code in byCode
    requires forall c :: c in byCode ==> exists i :: 0 <= i < |defs| && defs[i] == byCode[c]
    requires KeyedByCode(byCode)
    ensures byCode.Keys == DefinedCodes(defs)
  {
    forall c | c in byCode ensures c in DefinedCodes(defs) {
      var i :| 0 <= i < |defs| && defs[i] == byCode[c];
    }
  }

  datatype Catalog = Catalog(
    instruments: map<string, Instrument>,
    definitions: map<nat, seq<MeasurementDefinition>>,
    required: map<nat, seq<InstrumentMeasurement>>)
  {
    /** What the database constraints guarantee of the reference data. */
    ghost predicate Valid() {
      && (forall c :: c in instruments ==> instruments[c].code == c)
      && (forall id :: id in definitions ==> UniqueCodes(definitions[id]))
      && (forall id :: id in required ==> StrictlyAscending(required[id]))
    }

    /** InstrumentRepository.findByCode: the catalog's instrument with exactly that code, if there is one. */
    function FindInstrumentByCode(code: string): (found: Option<Instrument>)
      requires Valid()
      ensures found.Some? <==> code in instruments
      ensures found.Some? ==> found.value.code == code && found.value == instruments[code]
      ensures found.None? ==> forall c :: c in instruments ==> instruments[c].code != code
    {
      if code in instruments then Some(instruments[code]) else None
    }

    /** The definitions of an instrument (empty when it has none). */
    function DefinitionsOf(instrumentId: nat): seq<MeasurementDefinition> {
      if instrumentId in definitions then definitions[instrumentId] else []
    }

    /** InstrumentMeasurementRepository.findRequiredByInstrumentId: ordered by displayOrder ascending. */
    function RequiredOf(instrumentId: nat): (required: seq<InstrumentMeasurement>)
      requires Valid()
      ensures StrictlyAscending(required)
    {
      if instrumentId in this.required then this.required[instrumentId] else []
    }

    /** The code-to-definition map the submission builds for an instrument: each of its definitions under its code, and nothing else. */
    function DefinitionsByCode(instrumentId: nat): (byCode: map<string, MeasurementDefinition>)
      requires Valid()
      ensures KeyedByCode(byCode)
      ensures byCode.Keys == DefinedCodes(DefinitionsOf(instrumentId))
      ensures forall i :: 0 <= i < |DefinitionsOf(instrumentId)| ==>
        byCode[DefinitionsOf(instrumentId)[i].code] == DefinitionsOf(instrumentId)[i]
    {
      var defs := DefinitionsOf(instrumentId);
      var byCode := IndexByCode(defs);
      IndexedCodes(defs, byCode);
      byCode
    }
  }
}
