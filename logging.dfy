/**
 * The PSR-3 logger that writes one JSON line per accepted record to the
 * console's error stream, filtered by the console's verbosity
 * (App\Logger\JsonConsoleLogger).
 */
module Logging {
  import opened Wrappers
  import opened PhpString

  // ---------------------------------------------------------------------
  // Levels and verbosities
  // ---------------------------------------------------------------------

  /** Symfony console verbosities, ordered NORMAL < VERBOSE < VERY_VERBOSE < DEBUG. */
  const VERBOSITY_NORMAL: int := 32
  const VERBOSITY_VERBOSE: int := 64
  const VERBOSITY_VERY_VERBOSE: int := 128
  const VERBOSITY_DEBUG: int := 256

  /** The PSR-3 log levels. */
  const EMERGENCY: string := "emergency"
  const ALERT: string := "alert"
  const CRITICAL: string := "critical"
  const ERROR: string := "error"
  const WARNING: string := "warning"
  const NOTICE: string := "notice"
  const INFO: string := "info"
  const DEBUG: string := "debug"

  /** The eight levels, most severe first. */
  const Levels: seq<string> := [EMERGENCY, ALERT, CRITICAL, ERROR, WARNING, NOTICE, INFO, DEBUG]

  /** The built-in level-to-verbosity table: it covers exactly the eight levels. */
  function DefaultLevelMap(): (m: map<string, int>)
    ensures forall l :: l in m <==> l in Levels
  {
    map[
      EMERGENCY := VERBOSITY_NORMAL,
      ALERT := VERBOSITY_NORMAL,
      CRITICAL := VERBOSITY_NORMAL,
      ERROR := VERBOSITY_NORMAL,
      WARNING := VERBOSITY_NORMAL,
      NOTICE := VERBOSITY_VERBOSE,
      INFO := VERBOSITY_VERY_VERBOSE,
      DEBUG := VERBOSITY_DEBUG
    ]
  }

  /**
   * PHP's array union `$caller + $defaults`: every key of the left operand
   * keeps its value, keys only on the right are added with theirs.
   */
  function MergeLevelMap(caller: map<string, int>, defaults: map<string, int>): (m: map<string, int>)
    ensures m.Keys == caller.Keys + defaults.Keys
    ensures forall l :: l in caller ==> m[l] == caller[l]
    ensures forall l :: l in defaults && l !in caller ==> m[l] == defaults[l]
  {
    defaults + caller
  }

  /** Whatever table the caller passes, all eight levels stay defined. */
  lemma MergeKeepsEveryLevel(caller: map<string, int>)
    ensures forall i :: 0 <= i < |Levels| ==> Levels[i] in MergeLevelMap(caller, DefaultLevelMap())
  {
  }

  /** The table's own values for the eight levels. */
  lemma DefaultLevelMapValues()
    ensures DefaultLevelMap()[EMERGENCY] == VERBOSITY_NORMAL
    ensures DefaultLevelMap()[ALERT] == VERBOSITY_NORMAL
    ensures DefaultLevelMap()[CRITICAL] == VERBOSITY_NORMAL
    ensures DefaultLevelMap()[ERROR] == VERBOSITY_NORMAL
    ensures DefaultLevelMap()[WARNING] == VERBOSITY_NORMAL
    ensures |DefaultLevelMap()| == |Levels|
    ensures DefaultLevelMap()[NOTICE] == VERBOSITY_VERBOSE
    ensures DefaultLevelMap()[INFO] == VERBOSITY_VERY_VERBOSE
    ensures DefaultLevelMap()[DEBUG] == VERBOSITY_DEBUG
  {
  }

  /** A record at `level` is written when the output's verbosity reaches the level's. */
  predicate Emits(levelMap: map<string, int>, outputVerbosity: int, level: string)
  {
    level in levelMap && outputVerbosity >= levelMap[level]
  }

  /**
   * Under the built-in table, whenever a level is written at some verbosity,
   * every more severe level is written at that verbosity too.
   */
  lemma DefaultTableRespectsSeverity(outputVerbosity: int, moreSevere: nat, lessSevere: nat)
    requires moreSevere <= lessSevere < |Levels|
    requires Emits(DefaultLevelMap(), outputVerbosity, Levels[lessSevere])
    ensures Emits(DefaultLevelMap(), outputVerbosity, Levels[moreSevere])
  {
  }

  // ---------------------------------------------------------------------
  // Context values and their placeholder replacements
  // ---------------------------------------------------------------------

  /**
   * A PHP value found in a log context. An object records its class and,
   * when it has them, its `__toString` text (Stringable) and its RFC 3339
   * rendering (DateTimeInterface). Arrays and resources keep their
   * `gettype` name; a float keeps PHP's rendering of it.
   */
  datatype Value =
    | Null
    | Bool(b: bool)
    | Int(i: int)
    | Float(repr: string)
    | Str(s: string)
    | Object(className: string, asString: Option<string>, asRfc3339: Option<string>)
    | Other(typeName: string)

  /** The text that `strtr` inserts for the replacement `interpolate` chose. */
  function RenderValue(v: Value): (r: string)
    ensures v.Null? ==> r == ""
    ensures v.Bool? ==> (v.b <==> r != "")
    ensures v.Int? ==> ParseInt(r) == v.i
    ensures v.Str? ==> r == v.s
    ensures v.Object? && v.asString.Some? ==> r == v.asString.value
    ensures v.Object? && v.asString.None? && v.asRfc3339.Some? ==> r == v.asRfc3339.value
  {
    match v
    case Null => ""
    case Bool(b) => if b then "1" else ""
    case Int(i) => IntToStringRoundTrip(i); IntToString(i)
    case Float(repr) => repr
    case Str(s) => s
    case Object(className, asString, asRfc3339) =>
      if asString.Some? then asString.value
      else if asRfc3339.Some? then asRfc3339.value
      else "[object " + className + "]"
    case Other(typeName) => "[" + typeName + "]"
  }

  /**
   * The remaining branches: booleans render as `1` or the empty string,
   * integers in PHP's decimal form, floats as PHP's rendering of them, an
   * object that is neither Stringable nor a date as `[object Class]`, and
   * anything else (arrays, resources) as `[type]`.
   */
  lemma RenderValueFallbacks(v: Value)
    ensures v.Bool? ==> RenderValue(v) == (if v.b then "1" else "")
    ensures v.Int? ==> RenderValue(v) == IntToString(v.i)
    ensures v.Float? ==> RenderValue(v) == v.repr
    ensures v.Object? && v.asString.None? && v.asRfc3339.None? ==> RenderValue(v) == "[object " + v.className + "]"
    ensures v.Other? ==> RenderValue(v) == "[" + v.typeName + "]"
  {
  }

  /** The placeholder `{key}` that stands for a context entry in a message. */
  function Placeholder(key: string): string
  {
    "{" + key + "}"
  }

  lemma PlaceholderInjective(a: string, b: string)
    requires Placeholder(a) == Placeholder(b)
    ensures a == b
  {
    assert a == Placeholder(a)[1..|a| + 1];
    assert b == Placeholder(b)[1..|b| + 1];
  }

  /** `p` is the placeholder of some key of `context`. */
  predicate IsPlaceholderOf(p: string, context: map<string, Value>)
  {
    |p| >= 2 && p == Placeholder(p[1..|p| - 1]) && p[1..|p| - 1] in context
  }

  /**
   * `r` holds one entry for each key in `keys` (keys of `context`), under the
   * key's placeholder and with the key's replacement, and nothing else.
   */
  predicate TableOf(r: map<string, string>, context: map<string, Value>, keys: set<string>)
  {
    && keys <= context.Keys
    && (forall k {:trigger Placeholder(k)} :: k in keys ==>
          Placeholder(k) in r && r[Placeholder(k)] == RenderValue(context[k]))
    && (forall p :: p in r ==> IsPlaceholderOf(p, context) && p[1..|p| - 1] in keys)
  }

  /**
   * The replacement table `interpolate` builds: one entry per context key,
   * under that key's placeholder, and nothing else.
   */
  function ReplacementTable(context: map<string, Value>): (r: map<string, string>)
    ensures TableOf(r, context, context.Keys)
  {
    forall a, b | a in context && b in context && Placeholder(a) == Placeholder(b) ensures a == b {
      PlaceholderInjective(a, b);
    }
    var r := map k | k in context :: Placeholder(k) := RenderValue(context[k]);
    forall p | p in r ensures IsPlaceholderOf(p, context) && p[1..|p| - 1] in context.Keys {
      var k :| k in context && p == Placeholder(k);
      assert p[1..|p| - 1] == k;
    }
    r
  }

  /** A table is determined by its context and keys. */
  lemma TableOfUnique(a: map<string, string>, b: map<string, string>, context: map<string, Value>, keys: set<string>)
    requires TableOf(a, context, keys) && TableOf(b, context, keys)
    ensures a == b
  {
    forall p | p in a ensures p in b && b[p] == a[p] {
      assert Placeholder(p[1..|p| - 1]) == p;
    }
    forall p | p in b ensures p in a {
      assert Placeholder(p[1..|p| - 1]) == p;
    }
  }

  /** Adding the entry of one more key keeps the table exact. */
  lemma TableOfAdd(r: map<string, string>, context: map<string, Value>, keys: set<string>, key: string)
    requires TableOf(r, context, keys) && key in context && key !in keys
    ensures TableOf(r[Placeholder(key) := RenderValue(context[key])], context, keys + {key})
  {
    var r' := r[Placeholder(key) := RenderValue(context[key])];
    forall k {:trigger Placeholder(k)} | k in keys + {key}
      ensures Placeholder(k) in r' && r'[Placeholder(k)] == RenderValue(context[k])
    {
      if k != key && Placeholder(k) == Placeholder(key) {
        PlaceholderInjective(k, key);
      }
    }
    assert |Placeholder(key)| >= 2 && Placeholder(key)[1..|Placeholder(key)| - 1] == key;
  }

  lemma TableKeysStartWithBrace(context: map<string, Value>)
    ensures KeysStartWith(ReplacementTable(context), '{')
  {
  }

  /**
   * What `interpolate` returns: the message itself when it holds no `{`,
   * otherwise the single `strtr` pass over it with the replacement table.
   * The early return is only a shortcut: the pass would copy such a message.
   */
  function Interpolated(message: string, context: map<string, Value>): (r: string)
    ensures r == Strtr(message, ReplacementTable(context))
  {
    if '{' !in message then
      TableKeysStartWithBrace(context);
      StrtrNoKeyStart(message, ReplacementTable(context), '{');
      message
    else Strtr(message, ReplacementTable(context))
  }

  /** With an empty context the message comes back unchanged. */
  lemma InterpolateEmptyContext(message: string)
    ensures Interpolated(message, map[]) == message
  {
    assert ReplacementTable(map[]) == map[];
    StrtrEmptyTable(message);
  }

  // ---------------------------------------------------------------------
  // Messages as templates: what the single strtr pass does to them
  // ---------------------------------------------------------------------

  /** A message seen as literal text interleaved with `{key}` placeholders. */
  datatype Piece = Text(text: string) | Hole(key: string)

  /** The message a template spells out. */
  function Render(t: seq<Piece>): string
    decreases |t|
  {
    if t == [] then []
    else (match t[0] case Text(x) => x case Hole(k) => Placeholder(k)) + Render(t[1..])
  }

  /**
   * The message with every placeholder of a context key replaced by that
   * key's replacement and every other placeholder left as it is; inserted
   * text is not looked at again.
   */
  function Fill(t: seq<Piece>, context: map<string, Value>): string
    decreases |t|
  {
    if t == [] then []
    else
      (match t[0]
       case Text(x) => x
       case Hole(k) => if k in context then RenderValue(context[k]) else Placeholder(k))
      + Fill(t[1..], context)
  }

  /** Literal text holds no `{`, and placeholder keys hold no brace at all. */
  predicate PlainTemplate(t: seq<Piece>)
  {
    forall i :: 0 <= i < |t| ==>
      match t[i]
      case Text(x) => '{' !in x
      case Hole(k) => '{' !in k && '}' !in k
  }

  /** No context key holds a `}`. */
  predicate PlainKeys(context: map<string, Value>)
  {
    forall k :: k in context ==> '}' !in k
  }

  /**
   * At a placeholder whose key holds no brace, the only entry of the table
   * that can match is that placeholder itself.
   */
  lemma OnlyOwnPlaceholderMatches(k: string, rest: string, context: map<string, Value>, m: nat)
    requires '{' !in k && '}' !in k && PlainKeys(context)
    requires 0 < m <= |Placeholder(k) + rest|
    requires (Placeholder(k) + rest)[..m] in ReplacementTable(context)
    ensures m == |k| + 2 && k in context
  {
    var s := Placeholder(k) + rest;
    var table := ReplacementTable(context);
    assert IsPlaceholderOf(s[..m], context);
    var k' := s[..m][1..m - 1];
    assert k' in context && s[..m] == Placeholder(k');
    assert '}' !in k';
    assert s[m - 1] == '}';
    assert s[|k| + 1] == '}';
    assert m == |k| + 2;
    assert s[..m] == Placeholder(k);
    PlaceholderInjective(k, k');
  }

  /** A placeholder of a context key is replaced by that key's replacement. */
  lemma StrtrAtKnownHole(k: string, rest: string, context: map<string, Value>)
    requires '{' !in k && '}' !in k && PlainKeys(context) && k in context
    ensures Strtr(Placeholder(k) + rest, ReplacementTable(context))
         == RenderValue(context[k]) + Strtr(rest, ReplacementTable(context))
  {
    var table := ReplacementTable(context);
    var s := Placeholder(k) + rest;
    forall m | |Placeholder(k)| < m <= |Placeholder(k)| + |rest| ensures s[..m] !in table {
      if s[..m] in table { OnlyOwnPlaceholderMatches(k, rest, context, m); }
    }
    StrtrReplacesKey(Placeholder(k), rest, table);
  }

  lemma NoKeyAtUnknownHole(k: string, rest: string, context: map<string, Value>)
    requires '{' !in k && '}' !in k && PlainKeys(context) && k !in context
    ensures forall m :: 0 < m <= |Placeholder(k) + rest| ==> (Placeholder(k) + rest)[..m] !in ReplacementTable(context)
  {
    var s := Placeholder(k) + rest;
    forall m | 0 < m <= |s| ensures s[..m] !in ReplacementTable(context) {
      if s[..m] in ReplacementTable(context) { OnlyOwnPlaceholderMatches(k, rest, context, m); }
    }
  }

  /** A placeholder of any other key is copied as it stands. */
  lemma StrtrAtUnknownHole(k: string, rest: string, context: map<string, Value>)
    requires '{' !in k && '}' !in k && PlainKeys(context) && k !in context
    ensures Strtr(Placeholder(k) + rest, ReplacementTable(context))
         == Placeholder(k) + Strtr(rest, ReplacementTable(context))
  {
    var table := ReplacementTable(context);
    var s := Placeholder(k) + rest;
    var after := k + "}";
    assert s[1..] == after + rest && Placeholder(k) == [s[0]] + after;
    assert Strtr(s, table) == [s[0]] + Strtr(after + rest, table) by {
      NoKeyAtUnknownHole(k, rest, context);
      StrtrCopiesChar(s, table);
    }
    assert Strtr(after + rest, table) == after + Strtr(rest, table) by {
      TableKeysStartWithBrace(context);
      StrtrCopiesText(after, rest, table, '{');
    }
  }

  lemma {:induction false} StrtrFillsTemplate(t: seq<Piece>, context: map<string, Value>)
    requires PlainTemplate(t) && PlainKeys(context)
    ensures Strtr(Render(t), ReplacementTable(context)) == Fill(t, context)
    decreases |t|
  {
    if t != [] {
      var rest := Render(t[1..]);
      assert PlainTemplate(t[1..]) by {
        forall i | 0 <= i < |t[1..]| ensures t[1..][i] == t[i + 1] { }
      }
      StrtrFillsTemplate(t[1..], context);
      assert PlainTemplate([t[0]]);
      match t[0]
      case Text(x) =>
        TableKeysStartWithBrace(context);
        StrtrCopiesText(x, rest, ReplacementTable(context), '{');
      case Hole(k) =>
        if k in context {
          StrtrAtKnownHole(k, rest, context);
        } else {
          StrtrAtUnknownHole(k, rest, context);
        }
    }
  }

  /**
   * `interpolate` replaces each placeholder of a context key by that key's
   * replacement exactly once, keeps all other text, and does not expand
   * placeholders that a replacement brings in.
   */
  lemma InterpolateFillsTemplate(t: seq<Piece>, context: map<string, Value>)
    requires PlainTemplate(t) && PlainKeys(context)
    ensures Interpolated(Render(t), context) == Fill(t, context)
  {
    StrtrFillsTemplate(t, context);
  }

  /** `{a}` whose value is the text `{b}` stays `{b}`, even though `b` has a value. */
  lemma ReplacementIsNotRescanned()
    ensures Interpolated("{a}", map["a" := Str("{b}"), "b" := Str("X")]) == "{b}"
  {
    var t := [Hole("a")];
    var context := map["a" := Str("{b}"), "b" := Str("X")];
    assert Render(t) == "{a}";
    assert Fill(t, context) == "{b}";
    InterpolateFillsTemplate(t, context);
  }

  // ---------------------------------------------------------------------
  // The logger
  // ---------------------------------------------------------------------

  /** The record handed to the JSON encoder. */
  datatype LogRecord = LogRecord(level: string, message: string, context: map<string, Value>, timestamp: string)

  /** One line written to the console, with the verbosity it was written at. */
  datatype Line = Line(text: string, verbosity: int)

  datatype LogError = InvalidArgumentException(message: string)

  /** What is written when the record cannot be encoded. */
  const ENCODE_FAILURE_LINE: string := "{\"error\":\"Failed to encode log message\"}"

  function UnknownLevelMessage(level: string): string
  {
    "The log level \"" + level + "\" does not exist."
  }

  /**
   * What one call of `log` does, given the level table, the verbosity of the
   * error output, the call's arguments, the clock's RFC 3339 reading and the
   * encoder (`None` where `json_encode` returns false): the exception, or
   * the lines written.
   */
  function LogLines(
    levelMap: map<string, int>, outputVerbosity: int,
    level: string, message: string, context: map<string, Value>,
    timestamp: string, encode: LogRecord -> Option<string>): (r: Result<seq<Line>, LogError>)
    ensures r.Failure? <==> level !in levelMap
    ensures r.Failure? ==> r.error == InvalidArgumentException(UnknownLevelMessage(level))
    ensures r.Success? ==> |r.value| <= 1
    ensures r.Success? ==> (|r.value| == 1 <==> outputVerbosity >= levelMap[level])
    ensures r.Success? ==> forall line :: line in r.value ==> line.verbosity == levelMap[level]
    ensures r.Success? ==>
      var record := LogRecord(level, Interpolated(message, context), context, timestamp);
      forall line :: line in r.value ==>
        line.text == (if encode(record).Some? then encode(record).value else ENCODE_FAILURE_LINE)
  {
    if level !in levelMap then Failure(InvalidArgumentException(UnknownLevelMessage(level)))
    else if outputVerbosity >= levelMap[level] then
      var record := LogRecord(level, Interpolated(message, context), context, timestamp);
      var json := encode(record);
      Success([Line(if json.Some? then json.value else ENCODE_FAILURE_LINE, levelMap[level])])
    else Success([])
  }

  /** The console's error stream: its verbosity and the lines written to it so far. */
  class ConsoleOutput {
    const verbosity: int
    var lines: seq<Line>

    constructor (verbosity: int)
      ensures this.verbosity == verbosity && lines == []
    {
      this.verbosity := verbosity;
      lines := [];
    }

    method Writeln(text: string, lineVerbosity: int)
      modifies this
      ensures lines == old(lines) + [Line(text, lineVerbosity)]
    {
      lines := lines + [Line(text, lineVerbosity)];
    }
  }

  class JsonConsoleLogger {
    const output: ConsoleOutput
    const verbosityLevelMap: map<string, int>

    /** The caller's table takes precedence; the built-in one fills the gaps. */
    constructor (output: ConsoleOutput, verbosityLevelMap: map<string, int>)
      ensures this.output == output
      ensures this.verbosityLevelMap == MergeLevelMap(verbosityLevelMap, DefaultLevelMap())
    {
      this.output := output;
      this.verbosityLevelMap := MergeLevelMap(verbosityLevelMap, DefaultLevelMap());
    }

    /**
     * Writes at most one line: the encoded record, or the fixed error line
     * when encoding fails, at the level's verbosity, and only when the
     * output's verbosity reaches it. An unknown level writes nothing.
     */
    method Log(level: string, message: string, context: map<string, Value>,
               timestamp: string, encode: LogRecord -> Option<string>) returns (r: Result<(), LogError>)
      modifies output
      ensures var spec := LogLines(verbosityLevelMap, output.verbosity, level, message, context, timestamp, encode);
        && (r.Failure? <==> spec.Failure?)
        && (r.Failure? ==> r.error == spec.error && output.lines == old(output.lines))
        && (r.Success? ==> output.lines == old(output.lines) + spec.value)
    {
      if level !in verbosityLevelMap {
        return Failure(InvalidArgumentException(UnknownLevelMessage(level)));
      }
      if output.verbosity >= verbosityLevelMap[level] {
        var interpolated := Interpolate(message, context);
        var record := LogRecord(level, interpolated, context, timestamp);
        var json := encode(record);
        var text := if json.Some? then json.value else ENCODE_FAILURE_LINE;
        output.Writeln(text, verbosityLevelMap[level]);
      }
      return Success(());
    }

    /** Builds the replacement table entry by entry, then makes the one strtr pass. */
    method Interpolate(message: string, context: map<string, Value>) returns (r: string)
      ensures r == Interpolated(message, context)
    {
      if '{' !in message {
        return message;
      }
      var replacements: map<string, string> := map[];
      var pending := context.Keys;
      while pending != {}
        invariant pending <= context.Keys
        invariant TableOf(replacements, context, context.Keys - pending)
        decreases pending
      {
        var key :| key in pending;
        TableOfAdd(replacements, context, context.Keys - pending, key);
        assert context.Keys - pending + {key} == context.Keys - (pending - {key});
        replacements := replacements[Placeholder(key) := RenderValue(context[key])];
        pending := pending - {key};
      }
      TableOfUnique(replacements, ReplacementTable(context), context, context.Keys);
      r := Strtr(message, replacements);
    }
  }
}
