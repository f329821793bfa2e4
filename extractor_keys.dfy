/**
 * The extraction state of one run: the bookkeeping a connector's extractor
 * fills in as it pages through a source (activation and dynamic parameters,
 * timing, the run's signature, the inferred schema, the session token, the
 * stream preprocessors, the end-of-data flag, buffered payloads and the count
 * of records processed).
 */
module Extraction {
  import opened Wrappers
  import opened JavaLang
  import Configuration

  /** A Gson JSON element, as a value. */
  datatype Json =
    | Null
    | Primitive(text: string)
    | Array(elements: seq<Json>)
    | Object(members: map<string, Json>)

  /** A Gson `JsonObject`: its members by name. */
  type JsonObject = map<string, Json>
  /** A Gson `JsonArray`: its elements in order. */
  type JsonArray = seq<Json>

  /** A stream preprocessor; what it does to a stream is not modelled. */
  class StreamProcessor { }

  /** A work unit of the job framework, read only for a label in debug logs. */
  class WorkUnit { }

  /** The values of every field of an `ExtractorKeys` object. */
  datatype ExtractorState = ExtractorState(
    activationParameters: JsonObject,
    startTime: int64,
    delayStartTime: int64,
    signature: Option<string>,
    inferredSchema: Option<JsonArray>,
    sessionKeyValue: Option<string>,
    preprocessors: seq<StreamProcessor>,
    dynamicParameters: JsonObject,
    explictEof: Option<bool>,
    payloads: JsonArray,
    processedCount: int64)

  /**
   * The state of a fresh object created when the clock read `now`: empty
   * activation and dynamic parameters, payloads and preprocessors; no
   * signature, session token or inferred schema; the end-of-data flag unset;
   * nothing processed; no delay recorded.
   */
  function InitialState(now: int64): ExtractorState
  {
    ExtractorState(map[], now, 0, None, None, None, [], map[], None, [], 0)
  }

  class ExtractorKeys {
    var activationParameters: JsonObject
    var startTime: int64
    var delayStartTime: int64
    var signature: Option<string>
    var inferredSchema: Option<JsonArray>
    var sessionKeyValue: Option<string>
    var preprocessors: seq<StreamProcessor>
    var dynamicParameters: JsonObject
    /** Unset (`None`) until a connector sets it; `Some(true)` when the source
        signalled the end of its data itself. */
    var explictEof: Option<bool>
    var payloads: JsonArray
    var processedCount: int64

    function State(): ExtractorState
      reads this
    {
      ExtractorState(activationParameters, startTime, delayStartTime, signature, inferredSchema,
        sessionKeyValue, preprocessors, dynamicParameters, explictEof, payloads, processedCount)
    }

    /** A fresh object; `now` is the clock reading at creation. */
    constructor (now: int64)
      ensures State() == InitialState(now)
    {
      activationParameters := map[];
      startTime := now;
      delayStartTime := 0;
      signature := None;
      inferredSchema := None;
      sessionKeyValue := None;
      preprocessors := [];
      dynamicParameters := map[];
      explictEof := None;
      payloads := [];
      processedCount := 0;
    }

    /** One more record processed; no other field changes. */
    method IncrProcessedCount()
      modifies this
      ensures processedCount == Incr64(old(processedCount))
      ensures State() == old(State()).(processedCount := processedCount)
    {
      processedCount := Incr64(processedCount);
    }

    /** Debug logging of the fields: changes nothing. */
    method LogDebugAll(workUnit: WorkUnit?)
      ensures State() == old(State())
    {
    }

    /** Logging of the essential properties' values in `state`: changes nothing. */
    method LogUsage(state: Configuration.State)
      ensures State() == old(State())
    {
    }

    function GetActivationParameters(): JsonObject reads this { activationParameters }
    function GetStartTime(): int64 reads this { startTime }
    function GetDelayStartTime(): int64 reads this { delayStartTime }
    function GetSignature(): Option<string> reads this { signature }
    function GetInferredSchema(): Option<JsonArray> reads this { inferredSchema }
    function GetSessionKeyValue(): Option<string> reads this { sessionKeyValue }
    function GetPreprocessors(): seq<StreamProcessor> reads this { preprocessors }
    function GetDynamicParameters(): JsonObject reads this { dynamicParameters }
    function GetExplictEof(): Option<bool> reads this { explictEof }
    function GetPayloads(): JsonArray reads this { payloads }
    function GetProcessedCount(): int64 reads this { processedCount }

    method SetActivationParameters(v: JsonObject)
      modifies this
      ensures GetActivationParameters() == v
      ensures State() == old(State()).(activationParameters := v)
    {
      activationParameters := v;
    }

    method SetStartTime(v: int64)
      modifies this
      ensures GetStartTime() == v
      ensures State() == old(State()).(startTime := v)
    {
      startTime := v;
    }

    method SetDelayStartTime(v: int64)
      modifies this
      ensures GetDelayStartTime() == v
      ensures State() == old(State()).(delayStartTime := v)
    {
      delayStartTime := v;
    }

    method SetSignature(v: Option<string>)
      modifies this
      ensures GetSignature() == v
      ensures State() == old(State()).(signature := v)
    {
      signature := v;
    }

    method SetInferredSchema(v: Option<JsonArray>)
      modifies this
      ensures GetInferredSchema() == v
      ensures State() == old(State()).(inferredSchema := v)
    {
      inferredSchema := v;
    }

    method SetSessionKeyValue(v: Option<string>)
      modifies this
      ensures GetSessionKeyValue() == v
      ensures State() == old(State()).(sessionKeyValue := v)
    {
      sessionKeyValue := v;
    }

    method SetPreprocessors(v: seq<StreamProcessor>)
      modifies this
      ensures GetPreprocessors() == v
      ensures State() == old(State()).(preprocessors := v)
    {
      preprocessors := v;
    }

    method SetDynamicParameters(v: JsonObject)
      modifies this
      ensures GetDynamicParameters() == v
      ensures State() == old(State()).(dynamicParameters := v)
    {
      dynamicParameters := v;
    }

    method SetExplictEof(v: Option<bool>)
      modifies this
      ensures GetExplictEof() == v
      ensures State() == old(State()).(explictEof := v)
    {
      explictEof := v;
    }

    method SetPayloads(v: JsonArray)
      modifies this
      ensures GetPayloads() == v
      ensures State() == old(State()).(payloads := v)
    {
      payloads := v;
    }

    /** Assigns any value: the counter grows only across increments. */
    method SetProcessedCount(v: int64)
      modifies this
      ensures GetProcessedCount() == v
      ensures State() == old(State()).(processedCount := v)
    {
      processedCount := v;
    }
  }
}
