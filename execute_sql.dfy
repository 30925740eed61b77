/**
 * The `execute_sql` tool's executor (App\Tool\ExecuteSQL\ExecuteSQLExecutor):
 * it logs the query, runs it, logs the row count and returns the rows as
 * JSON; any fault along the way becomes an error result instead of an
 * exception.
 */
module ExecuteSQL {
  import opened Wrappers
  import opened PhpString

  /** ExecuteSQLMetadata::NAME, the tool's identifier. */
  const NAME: string := "execute_sql"

  /** ExecuteSQLMetadata::getName. */
  function MetadataName(): (n: string)
    ensures n == NAME
  {
    NAME
  }

  /** A result row: column name to value, NULL as None. */
  type Row = map<string, Option<string>>

  /** What `fetchAllAssociative` does with the argument it gets: rows, or a throwable's message. */
  datatype QueryOutcome = Rows(rows: seq<Row>) | Fault(message: string)

  /**
   * The database connection, as far as the executor sees it. The argument
   * is `None` when the call had no `sql` argument and PHP passed null.
   */
  datatype Connection = Connection(fetchAllAssociative: Option<string> -> QueryOutcome)

  datatype ToolCall = ToolCall(name: string, arguments: map<string, string>)

  /**
   * The two ways the executor builds a ToolCallResult: with only the content
   * (the SDK's defaults for the rest), or with every field given.
   */
  datatype ToolCallResult =
    | WithDefaults(content: string)
    | Explicit(content: string, contentType: string, mimeType: string, isError: bool)

  /** The message PHP's Error carries when `info` is called on a null logger. */
  const NULL_LOGGER_MESSAGE: string := "Call to a member function info() on null"

  /** What the executor reads from the tool call: `arguments['sql']`, null when absent. */
  function SqlArgument(input: ToolCall): (sql: Option<string>)
    ensures sql.Some? <==> "sql" in input.arguments
    ensures sql.Some? ==> sql.value == input.arguments["sql"]
  {
    if "sql" in input.arguments then Some(input.arguments["sql"]) else None
  }

  /** The text `'Executing SQL: ' . $sql` yields (null concatenates as ""). */
  function ExecutingMessage(sql: Option<string>): string
  {
    "Executing SQL: " + (if sql.Some? then sql.value else "")
  }

  function CountMessage(rows: seq<Row>): string
  {
    "SQL executed. Results count: " + IntToString(|rows|)
  }

  /** The result a caught throwable becomes: its message as plain text, flagged as an error. */
  function ErrorResult(message: string): (r: ToolCallResult)
    ensures r.Explicit? && r.isError
    ensures r.content == message && r.contentType == "text" && r.mimeType == "text/plain"
  {
    Explicit(message, "text", "text/plain", true)
  }

  /** The logger, as far as the executor sees it: `refusal(m)` is the message of what `info(m)` throws. */
  datatype LoggerModel = NoLogger | LoggerWith(refusal: string -> Option<string>)

  function InfoThrows(logger: LoggerModel, message: string): Option<string>
  {
    match logger
    case NoLogger => Some(NULL_LOGGER_MESSAGE)
    case LoggerWith(refusal) => refusal(message)
  }

  /** What one `call` returns and which info messages reach the logger. */
  datatype CallOutcome = CallOutcome(result: ToolCallResult, logged: seq<string>)

  /**
   * `call` as a decision: each step of the `try` block either completes or
   * throws, a throw ends in the error result, and success ends in the
   * encoded rows, or `[]` when `json_encode` fails.
   */
  function CallSpec(input: ToolCall, logger: LoggerModel, connection: Connection,
                    encode: seq<Row> -> Option<string>): (o: CallOutcome)
    ensures o.result.Explicit? ==>
      o.result.contentType == "text" && o.result.mimeType == "text/plain" && o.result.isError
    ensures |o.logged| <= 2
    ensures |o.logged| > 0 ==> o.logged[0] == ExecutingMessage(SqlArgument(input))
    ensures o.result.WithDefaults? <==> |o.logged| == 2
    ensures o.result.WithDefaults? ==>
      exists rows :: connection.fetchAllAssociative(SqlArgument(input)) == Rows(rows)
        && o.logged == [ExecutingMessage(SqlArgument(input)), CountMessage(rows)]
        && o.result.content == (if encode(rows).Some? then encode(rows).value else "[]")
    ensures forall rows ::
      (&& connection.fetchAllAssociative(SqlArgument(input)) == Rows(rows)
       && InfoThrows(logger, ExecutingMessage(SqlArgument(input))).None?
       && InfoThrows(logger, CountMessage(rows)).None?) ==>
      o == CallOutcome(WithDefaults(if encode(rows).Some? then encode(rows).value else "[]"),
                       [ExecutingMessage(SqlArgument(input)), CountMessage(rows)])
  {
    var sql := SqlArgument(input);
    var first := ExecutingMessage(sql);
    match InfoThrows(logger, first)
    case Some(e) => CallOutcome(ErrorResult(e), [])
    case None =>
      match connection.fetchAllAssociative(sql)
      case Fault(e) => CallOutcome(ErrorResult(e), [first])
      case Rows(rows) =>
        var second := CountMessage(rows);
        match InfoThrows(logger, second)
        case Some(e) => CallOutcome(ErrorResult(e), [first])
        case None =>
          var json := encode(rows);
          CallOutcome(WithDefaults(if json.Some? then json.value else "[]"), [first, second])
  }

  /**
   * An error result carries the message of the step that threw: the first
   * `info`, the query, or the second `info`.
   */
  lemma CallFaults(input: ToolCall, logger: LoggerModel, connection: Connection,
                   encode: seq<Row> -> Option<string>)
    ensures var o := CallSpec(input, logger, connection, encode);
      var sql := SqlArgument(input);
      && (InfoThrows(logger, ExecutingMessage(sql)).Some? ==>
            o == CallOutcome(ErrorResult(InfoThrows(logger, ExecutingMessage(sql)).value), []))
      && (InfoThrows(logger, ExecutingMessage(sql)).None? && connection.fetchAllAssociative(sql).Fault? ==>
            o == CallOutcome(ErrorResult(connection.fetchAllAssociative(sql).message), [ExecutingMessage(sql)]))
      && (forall rows ::
            (&& InfoThrows(logger, ExecutingMessage(sql)).None?
             && connection.fetchAllAssociative(sql) == Rows(rows)
             && InfoThrows(logger, CountMessage(rows)).Some?) ==>
            o == CallOutcome(ErrorResult(InfoThrows(logger, CountMessage(rows)).value), [ExecutingMessage(sql)]))
  {
  }

  /** Only `arguments['sql']` of the tool call matters. */
  lemma CallReadsOnlySql(a: ToolCall, b: ToolCall, logger: LoggerModel, connection: Connection,
                         encode: seq<Row> -> Option<string>)
    requires SqlArgument(a) == SqlArgument(b)
    ensures CallSpec(a, logger, connection, encode) == CallSpec(b, logger, connection, encode)
  {
  }

  /**
   * The PSR-3 logger bound to the executor, restricted to `info`. The tool
   * chain hands it over; its `setLogger` side is `Capability.Logger`.
   */
  class InfoLogger {
    const refusal: string -> Option<string>
    var infos: seq<string>

    constructor (refusal: string -> Option<string>)
      ensures this.refusal == refusal && infos == []
    {
      this.refusal := refusal;
      infos := [];
    }

    /** Records the message, or throws with the message `refusal` gives. */
    method Info(message: string) returns (thrown: Option<string>)
      modifies this
      ensures thrown == refusal(message)
      ensures infos == old(infos) + (if thrown.None? then [message] else [])
    {
      thrown := refusal(message);
      if thrown.None? {
        infos := infos + [message];
      }
    }
  }

  function ModelOf(logger: InfoLogger?): LoggerModel
    reads logger
  {
    if logger == null then NoLogger else LoggerWith(logger.refusal)
  }

  class ExecuteSQLExecutor {
    const connection: Connection
    /** LoggerAwareTrait's logger, null until the tool chain binds one. */
    var logger: InfoLogger?

    constructor (connection: Connection)
      ensures this.connection == connection && logger == null
    {
      this.connection := connection;
      logger := null;
    }

    /** LoggerAwareTrait::setLogger, as `Capability.Item.SetLogger` models it for any chain item. */
    method SetLogger(l: InfoLogger)
      modifies this
      ensures logger == l
    {
      logger := l;
    }

    /** The executor and its metadata share one identifier. */
    function GetName(): (n: string)
      ensures n == MetadataName()
    {
      NAME
    }

    method Call(input: ToolCall, encode: seq<Row> -> Option<string>) returns (r: ToolCallResult)
      modifies logger
      ensures r == CallSpec(input, ModelOf(logger), connection, encode).result
      ensures logger != null ==>
        logger.infos == old(logger.infos) + CallSpec(input, ModelOf(logger), connection, encode).logged
    {
      var sql := SqlArgument(input);
      var first := ExecutingMessage(sql);
      var thrown: Option<string>;
      if logger == null {
        thrown := Some(NULL_LOGGER_MESSAGE);
      } else {
        thrown := logger.Info(first);
      }
      if thrown.Some? {
        return ErrorResult(thrown.value);
      }
      var outcome := connection.fetchAllAssociative(sql);
      if outcome.Fault? {
        return ErrorResult(outcome.message);
      }
      var rows := outcome.rows;
      thrown := logger.Info(CountMessage(rows));
      if thrown.Some? {
        return ErrorResult(thrown.value);
      }
      var json := encode(rows);
      if json.None? {
        return WithDefaults("[]");
      }
      return WithDefaults(json.value);
    }
  }
}
