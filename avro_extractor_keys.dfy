/**
 * The extraction state of an Avro extractor: the base extraction state plus
 * the record cursor, the declared total, the page number, the output schema,
 * its validity flag and a sample record. The base state is held by
 * composition: `extractorKeys` is the part the source inherits.
 */
module Avro {
  import opened Wrappers
  import opened JavaLang
  import opened Extraction
  import Configuration

  /** An Avro `DataFileStream` of records; its contents are not modelled. */
  class DataFileStream { }
  /** An Avro `Schema`; its contents are not modelled. */
  class Schema { }
  /** An Avro `GenericRecord`; its contents are not modelled. */
  class GenericRecord { }

  /** The values of the fields an `AvroExtractorKeys` object adds. */
  datatype AvroState = AvroState(
    avroRecordIterator: DataFileStream?,
    totalCount: int64,
    currentPageNumber: int64,
    avroOutputSchema: Schema?,
    isValidOutputSchema: Option<bool>,
    sampleData: GenericRecord?)

  /** The added fields of a fresh object: no cursor, schema or sample, page 0,
      total 0, and the output schema deemed valid. */
  function InitialAvroState(): AvroState
  {
    AvroState(null, 0, 0, null, Some(true), null)
  }

  class AvroExtractorKeys {
    /** The inherited `ExtractorKeys` fields. */
    const extractorKeys: ExtractorKeys
    var avroRecordIterator: DataFileStream?
    var totalCount: int64
    var currentPageNumber: int64
    var avroOutputSchema: Schema?
    var isValidOutputSchema: Option<bool>
    var sampleData: GenericRecord?

    function AvroFields(): AvroState
      reads this
    {
      AvroState(avroRecordIterator, totalCount, currentPageNumber, avroOutputSchema,
        isValidOutputSchema, sampleData)
    }

    /** A fresh object; `now` is the clock reading at creation. */
    constructor (now: int64)
      ensures fresh(extractorKeys)
      ensures extractorKeys.State() == InitialState(now)
      ensures AvroFields() == InitialAvroState()
    {
      extractorKeys := new ExtractorKeys(now);
      avroRecordIterator := null;
      totalCount := 0;
      currentPageNumber := 0;
      avroOutputSchema := null;
      isValidOutputSchema := Some(true);
      sampleData := null;
    }

    /** One more page fetched; no other field changes, inherited ones included. */
    method IncrCurrentPageNumber()
      modifies this
      ensures currentPageNumber == Incr64(old(currentPageNumber))
      ensures AvroFields() == old(AvroFields()).(currentPageNumber := currentPageNumber)
      ensures extractorKeys.State() == old(extractorKeys.State())
    {
      currentPageNumber := Incr64(currentPageNumber);
    }

    /** Debug logging of the inherited and added fields: changes nothing. */
    method LogDebugAll(workUnit: WorkUnit?)
      ensures AvroFields() == old(AvroFields())
      ensures extractorKeys.State() == old(extractorKeys.State())
    {
      extractorKeys.LogDebugAll(workUnit);
    }

    /** Logging of the essential properties' values in `state`: changes nothing. */
    method LogUsage(state: Configuration.State)
      ensures AvroFields() == old(AvroFields())
      ensures extractorKeys.State() == old(extractorKeys.State())
    {
      extractorKeys.LogUsage(state);
    }

    function GetAvroRecordIterator(): DataFileStream? reads this { avroRecordIterator }
    function GetTotalCount(): int64 reads this { totalCount }
    function GetCurrentPageNumber(): int64 reads this { currentPageNumber }
    function GetAvroOutputSchema(): Schema? reads this { avroOutputSchema }
    function GetIsValidOutputSchema(): Option<bool> reads this { isValidOutputSchema }
    function GetSampleData(): GenericRecord? reads this { sampleData }

    method SetAvroRecordIterator(v: DataFileStream?)
      modifies this
      ensures GetAvroRecordIterator() == v
      ensures AvroFields() == old(AvroFields()).(avroRecordIterator := v)
      ensures extractorKeys.State() == old(extractorKeys.State())
    {
      avroRecordIterator := v;
    }

    method SetTotalCount(v: int64)
      modifies this
      ensures GetTotalCount() == v
      ensures AvroFields() == old(AvroFields()).(totalCount := v)
      ensures extractorKeys.State() == old(extractorKeys.State())
    {
      totalCount := v;
    }

    method SetCurrentPageNumber(v: int64)
      modifies this
      ensures GetCurrentPageNumber() == v
      ensures AvroFields() == old(AvroFields()).(currentPageNumber := v)
      ensures extractorKeys.State() == old(extractorKeys.State())
    {
      currentPageNumber := v;
    }

    method SetAvroOutputSchema(v: Schema?)
      modifies this
      ensures GetAvroOutputSchema() == v
      ensures AvroFields() == old(AvroFields()).(avroOutputSchema := v)
      ensures extractorKeys.State() == old(extractorKeys.State())
    {
      avroOutputSchema := v;
    }

    method SetIsValidOutputSchema(v: Option<bool>)
      modifies this
      ensures GetIsValidOutputSchema() == v
      ensures AvroFields() == old(AvroFields()).(isValidOutputSchema := v)
      ensures extractorKeys.State() == old(extractorKeys.State())
    {
      isValidOutputSchema := v;
    }

    method SetSampleData(v: GenericRecord?)
      modifies this
      ensures GetSampleData() == v
      ensures AvroFields() == old(AvroFields()).(sampleData := v)
      ensures extractorKeys.State() == old(extractorKeys.State())
    {
      sampleData := v;
    }
  }
}
