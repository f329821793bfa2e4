/**
 * The job-level settings of a JDBC source: the statement, the initial values
 * of the dynamic parameters, the CSV dialect (separator, quote and escape
 * characters) and the schema refactoring function. The fields of the parent
 * job-level key set are not part of this model.
 */
module Jdbc {
  import opened Wrappers
  import opened Extraction
  import Configuration

  /** The default values of the catalog's descriptors for the CSV separator,
      quote character, escape character and JDBC schema refactoring function. */
  datatype CatalogDefaults = CatalogDefaults(
    csvSeparator: string,
    csvQuoteCharacter: string,
    csvEscapeCharacter: string,
    jdbcSchemaRefactor: string)

  /** The values of the fields a `JdbcKeys` object adds; `None` is Java's null. */
  datatype JdbcState = JdbcState(
    jdbcStatement: Option<string>,
    initialParameterValues: JsonObject,
    separator: Option<string>,
    quoteCharacter: Option<string>,
    escapeCharacter: Option<string>,
    schemaRefactorFunction: Option<string>)

  /** A fresh object: no statement, no initial parameter values, and the
      dialect and refactoring function at the catalog's defaults. */
  function InitialJdbcState(catalog: CatalogDefaults): JdbcState
  {
    JdbcState(None, map[], Some(catalog.csvSeparator), Some(catalog.csvQuoteCharacter),
      Some(catalog.csvEscapeCharacter), Some(catalog.jdbcSchemaRefactor))
  }

  class JdbcKeys {
    var jdbcStatement: Option<string>
    var initialParameterValues: JsonObject
    var separator: Option<string>
    var quoteCharacter: Option<string>
    var escapeCharacter: Option<string>
    var schemaRefactorFunction: Option<string>

    function Fields(): JdbcState
      reads this
    {
      JdbcState(jdbcStatement, initialParameterValues, separator, quoteCharacter,
        escapeCharacter, schemaRefactorFunction)
    }

    constructor (catalog: CatalogDefaults)
      ensures Fields() == InitialJdbcState(catalog)
    {
      jdbcStatement := None;
      initialParameterValues := map[];
      separator := Some(catalog.csvSeparator);
      quoteCharacter := Some(catalog.csvQuoteCharacter);
      escapeCharacter := Some(catalog.csvEscapeCharacter);
      schemaRefactorFunction := Some(catalog.jdbcSchemaRefactor);
    }

    /** Debug logging of the statement and initial values: changes nothing. */
    method LogDebugAll()
      ensures Fields() == old(Fields())
    {
    }

    /** Logging of the essential properties' values in `state`: changes nothing. */
    method LogUsage(state: Configuration.State)
      ensures Fields() == old(Fields())
    {
    }

    function GetJdbcStatement(): Option<string> reads this { jdbcStatement }
    function GetInitialParameterValues(): JsonObject reads this { initialParameterValues }
    function GetSeparator(): Option<string> reads this { separator }
    function GetQuoteCharacter(): Option<string> reads this { quoteCharacter }
    function GetEscapeCharacter(): Option<string> reads this { escapeCharacter }
    function GetSchemaRefactorFunction(): Option<string> reads this { schemaRefactorFunction }

    method SetJdbcStatement(v: Option<string>)
      modifies this
      ensures GetJdbcStatement() == v
      ensures Fields() == old(Fields()).(jdbcStatement := v)
    {
      jdbcStatement := v;
    }

    method SetInitialParameterValues(v: JsonObject)
      modifies this
      ensures GetInitialParameterValues() == v
      ensures Fields() == old(Fields()).(initialParameterValues := v)
    {
      initialParameterValues := v;
    }

    method SetSeparator(v: Option<string>)
      modifies this
      ensures GetSeparator() == v
      ensures Fields() == old(Fields()).(separator := v)
    {
      separator := v;
    }

    method SetQuoteCharacter(v: Option<string>)
      modifies this
      ensures GetQuoteCharacter() == v
      ensures Fields() == old(Fields()).(quoteCharacter := v)
    {
      quoteCharacter := v;
    }

    method SetEscapeCharacter(v: Option<string>)
      modifies this
      ensures GetEscapeCharacter() == v
      ensures Fields() == old(Fields()).(escapeCharacter := v)
    {
      escapeCharacter := v;
    }

    method SetSchemaRefactorFunction(v: Option<string>)
      modifies this
      ensures GetSchemaRefactorFunction() == v
      ensures Fields() == old(Fields()).(schemaRefactorFunction := v)
    {
      schemaRefactorFunction := v;
    }
  }
}
