/**
 * A log record and its construction from a decoded payload (`Record.__init__` of
 * `bmo_log_parse.py`). Construction reads the common fields, works out which resource the
 * record is about, extracts the error and the context, and keeps the remaining fields.
 */
module Records {
  import opened Wrappers
  import opened Seqs
  import opened Text
  import opened Payload
  import opened Library
  import opened Loggers

  /** The message whose `data` field holds introspection data worth showing as context. */
  const IntrospectionMessage: string := "received introspection data"

  /** Where the resource name is looked for, most preferred first (for non-provisioner loggers). */
  const IdentityKeys: seq<string> := ["baremetalhost", "Request.Name", "name"]

  /** Where the namespace is looked for before falling back to the resource identity. */
  const NamespaceKeys: seq<string> := ["namespace", "Request.Namespace"]

  datatype Record = Record(
    level: Json,
    timestamp: int,              // microseconds since the Unix epoch, UTC
    logger: string,
    message: Json,
    context: Option<Json>,       // the stack trace as given, or the pretty-printed data
    name: Option<string>,
    namespace: Option<Json>,
    error: Option<Json>,
    data: FieldMap)

  predicate IsError(r: Record)
  {
    r.level == JString(ErrorLevel)
  }

  /** `m.get(k)`: Python's `None` both for an absent key and for a JSON `null`. */
  function Get(m: FieldMap, k: string): (r: Option<Json>)
    ensures r.None? <==> !Has(m, k) || Lookup(m, k) == Some(JNull)
    ensures r.Some? ==> Lookup(m, k) == r
  {
    if Lookup(m, k) == Some(JNull) then None else Lookup(m, k)
  }

  /** Python's `None` for a JSON `null`. */
  function NonNull(v: Json): Option<Json>
  {
    if v == JNull then None else Some(v)
  }

  /** `m.pop(k)` or `m[k]` without a default: a `KeyError` when `k` is absent. */
  function Required(m: FieldMap, k: string): (r: Result<Json, FormatError>)
    ensures r.Ok? <==> Has(m, k)
    ensures r.Ok? ==> Lookup(m, k) == Some(r.value)
    ensures r.Err? ==> r.error == MissingField(k)
  {
    if Has(m, k) then Ok(Lookup(m, k).value) else Err(MissingField(k))
  }

  /** `data.pop('logger', '').split('.', 1)[0]`. */
  function LoggerName(m: FieldMap): Result<string, FormatError>
  {
    match Lookup(m, "logger")
    case None => Ok("")
    case Some(JString(s)) => Ok(LoggerPrefix(s))
    case Some(v) => Err(NotAString(v))
  }

  /** The identity of the resource before the stack-trace fallback, from the rule of the logger's class. */
  function PrimaryIdentity(m: FieldMap, logger: string): Result<Option<Json>, FormatError>
  {
    if logger !in ProvisionerLoggers then
      match FirstPresent(m, IdentityKeys)
      case None => Ok(None)
      case Some((_, v)) => Ok(NonNull(v))
    else
      match Lookup(m, "host")
      case None => Ok(None)
      case Some(JString(h)) =>
        var t := ReplaceFirst(h, '~', '/');
        Ok(if t == "" then None else Some(JString(t)))
      case Some(v) => Err(NotAString(v))
  }

  /** The identity, falling back to `request` when there is a stack trace and no identity yet. */
  function Identity(m: FieldMap, logger: string): Result<Option<Json>, FormatError>
  {
    var primary :- PrimaryIdentity(m, logger);
    if Has(m, "stacktrace") && primary.None? then
      if Has(m, "request") then Ok(Get(m, "request")) else Err(MissingField("request"))
    else
      Ok(primary)
  }

  /** `fq_name.split('/', 1)`, which needs a string. */
  function SplitIdentity(identity: Option<Json>): (r: Result<Option<seq<string>>, FormatError>)
    ensures r.Err? <==> identity.Some? && !identity.value.JString?
    ensures r.Err? ==> r.error == NotAString(identity.value)
    ensures r.Ok? ==> (r.value.None? <==> identity.None?)
    ensures r.Ok? && r.value.Some? ==> |r.value.value| == 1 || |r.value.value| == 2
  {
    match identity
    case None => Ok(None)
    case Some(JString(s)) => Ok(Some(SplitOnce(s, '/')))
    case Some(v) => Err(NotAString(v))
  }

  /** The record's message is the one that marks introspection data. */
  predicate IsIntrospection(m: FieldMap, message: Json)
  {
    message == JString(IntrospectionMessage) && Has(m, "data")
  }

  /**
   * The context: the stack trace when there is one, of whatever kind, otherwise the introspection
   * data as `pretty` prints it.
   */
  function Context(pretty: Json -> string, m: FieldMap, message: Json): Option<Json>
  {
    if Has(m, "stacktrace") then NonNull(Lookup(m, "stacktrace").value)
    else if IsIntrospection(m, message) then Some(JString(pretty(Lookup(m, "data").value)))
    else None
  }

  /** A context `format` can show: none, or text. */
  predicate Showable(context: Option<Json>)
  {
    context.None? || context.value.JString?
  }

  /** The text of a context that can be shown. */
  function ContextString(context: Option<Json>): (t: Option<string>)
    requires Showable(context)
    ensures t.None? <==> context.None?
    ensures t.Some? ==> context == Some(JString(t.value))
  {
    if context.Some? then Some(context.value.s) else None
  }

  /** The fields every record starts from. */
  datatype Common = Common(level: Json, timestamp: int, logger: string, message: Json)

  const CommonKeys: set<string> := {"level", "ts", "logger", "msg"}

  /** Popping `level` and then `ts`, and converting the time, with the errors each can raise. */
  function LevelAndTime(rt: Routines, m: FieldMap): Result<(Json, int), FormatError>
  {
    var level :- Required(m, "level");
    var tsValue :- Required(m, "ts");
    var ts :- if rt.timestampMicros(tsValue).Some? then Ok(rt.timestampMicros(tsValue).value) else Err(BadTimestamp(tsValue));
    Ok((level, ts))
  }

  /** Popping `level`, `ts`, `logger` and `msg`, in that order, with the errors each can raise. */
  function CommonFields(rt: Routines, m: FieldMap): Result<Common, FormatError>
  {
    var lt :- LevelAndTime(rt, m);
    var logger :- LoggerName(m);
    var message :- Required(m, "msg");
    Ok(Common(lt.0, lt.1, logger, message))
  }

  /** `errorVerbose`, `reconciler group` and `reconciler kind`: dropped whatever the record. */
  const IgnoredKeys: set<string> := {"errorVerbose", "reconciler group", "reconciler kind"}

  /** The field the context is popped from, if any. */
  function ContextKeys(m: FieldMap, message: Json): set<string>
  {
    if Has(m, "stacktrace") then {"stacktrace"} else if IsIntrospection(m, message) then {"data"} else {}
  }

  /** The field the error is popped from: only error records have one. */
  function ErrorKeys(level: Json): set<string>
  {
    if level == JString(ErrorLevel) then {"error"} else {}
  }

  /** The fields construction consumes: they are absent from the residual map. */
  function ConsumedKeys(m: FieldMap, level: Json, message: Json): set<string>
  {
    CommonKeys + ContextKeys(m, message) + ErrorKeys(level) + IgnoredKeys
  }

  /** The resource name: the part of the identity after the first `/`, or all of it. */
  function Name(parts: Option<seq<string>>): Option<string>
    requires parts.Some? ==> |parts.value| == 1 || |parts.value| == 2
  {
    if parts.Some? then Some(parts.value[|parts.value| - 1]) else None
  }

  /** The namespace: an explicit field when there is one, else the part of the identity before `/`. */
  function Namespace(m: FieldMap, parts: Option<seq<string>>): Option<Json>
  {
    match FirstPresent(m, NamespaceKeys)
    case None => if parts.Some? && |parts.value| == 2 then Some(JString(parts.value[0])) else None
    case Some((_, v)) => NonNull(v)
  }

  /** The error, which only error records carry. */
  function ErrorOf(m: FieldMap, level: Json): Option<Json>
  {
    if level == JString(ErrorLevel) then Get(m, "error") else None
  }

  /** The record once every error check has passed. */
  function Assemble(m: FieldMap, c: Common, parts: Option<seq<string>>, context: Option<Json>): Record
    requires parts.Some? ==> |parts.value| == 1 || |parts.value| == 2
  {
    Record(c.level, c.timestamp, c.logger, c.message, context, Name(parts), Namespace(m, parts),
           ErrorOf(m, c.level), Residual(m, ConsumedKeys(m, c.level, c.message)))
  }

  /** The rest of construction once the common fields and the identity are known. */
  function Complete(rt: Routines, m: FieldMap, c: Common, identity: Option<Json>): Result<Record, FormatError>
  {
    var parts :- SplitIdentity(identity);
    Ok(Assemble(m, c, parts, Context(rt.prettyPrint, m, c.message)))
  }

  /** `Record(data)`: the record a field map describes, or the error constructing it raises. */
  function FromPayload(rt: Routines, m: FieldMap): Result<Record, FormatError>
  {
    var c :- CommonFields(rt, m);
    var identity :- Identity(m, c.logger);
    Complete(rt, m, c, identity)
  }

  /** Pops `level` and `ts` off `p`. */
  method PopLevelAndTime(rt: Routines, p: FieldMap) returns (res: Result<(Json, int), FormatError>, data: FieldMap)
    ensures res == LevelAndTime(rt, p)
    ensures res.Ok? ==> data == Residual(p, {"level", "ts"})
  {
    WithoutNone(p);
    var level, tsValue;
    level, data := PopField(p, {}, p, "level");
    if level.None? {
      return Err(MissingField("level")), data;
    }
    assert {} + {"level"} == {"level"};
    tsValue, data := PopField(p, {"level"}, data, "ts");
    if tsValue.None? {
      return Err(MissingField("ts")), data;
    }
    var micros := rt.timestampMicros(tsValue.value);
    if micros.None? {
      return Err(BadTimestamp(tsValue.value)), data;
    }
    assert {"level"} + {"ts"} == {"level", "ts"};
    res := Ok((level.value, micros.value));
  }

  /** Pops the common fields off `p`. */
  method PopCommon(rt: Routines, p: FieldMap) returns (res: Result<Common, FormatError>, data: FieldMap)
    ensures res == CommonFields(rt, p)
    ensures res.Ok? ==> data == Residual(p, CommonKeys)
  {
    var lt;
    lt, data := PopLevelAndTime(rt, p);
    if lt.Err? {
      return Err(lt.error), data;
    }
    var loggerValue, message;
    loggerValue, data := PopField(p, {"level", "ts"}, data, "logger");
    var logger: string;
    match loggerValue {
      case None => logger := "";
      case Some(JString(raw)) => logger := LoggerPrefix(raw);
      case Some(v) => return Err(NotAString(v)), data;
    }
    assert {"level", "ts"} + {"logger"} == {"level", "ts", "logger"};
    message, data := PopField(p, {"level", "ts", "logger"}, data, "msg");
    if message.None? {
      return Err(MissingField("msg")), data;
    }
    assert {"level", "ts", "logger"} + {"msg"} == CommonKeys;
    res := Ok(Common(lt.value.0, lt.value.1, logger, message.value));
  }

  /** The identity lookups are unaffected by popping other fields. */
  lemma PrimaryIdentityResidual(p: FieldMap, ks: set<string>, logger: string)
    requires "host" !in ks && forall i | 0 <= i < |IdentityKeys| :: IdentityKeys[i] !in ks
    ensures PrimaryIdentity(Residual(p, ks), logger) == PrimaryIdentity(p, logger)
  {
    FirstPresentResidual(p, ks, IdentityKeys);
    LookupResidual(p, ks, "host");
  }

  /** The fields the identity and the context are read from are not common fields. */
  lemma CommonKeysApart()
    ensures "stacktrace" !in CommonKeys && "data" !in CommonKeys && "request" !in CommonKeys && "host" !in CommonKeys
    ensures forall i | 0 <= i < |IdentityKeys| :: IdentityKeys[i] !in CommonKeys
  {
  }

  /** The two string sets the residual keys are checked against never share a key. */
  lemma KeysApart(m: FieldMap, message: Json, level: Json)
    ensures "error" !in CommonKeys + ContextKeys(m, message)
    ensures forall k | k in IgnoredKeys :: k !in CommonKeys + ContextKeys(m, message) + ErrorKeys(level)
  {
  }

  /** Pops the error, which only error records have. */
  method PopError(ghost p: FieldMap, ghost gone: set<string>, data0: FieldMap, level: Json) returns (error: Option<Json>, data: FieldMap)
    requires data0 == Residual(p, gone) && "error" !in gone
    ensures error == ErrorOf(p, level)
    ensures data == Residual(p, gone + ErrorKeys(level))
  {
    if level == JString(ErrorLevel) {
      var popped;
      popped, data := PopField(p, gone, data0, "error");
      error := if popped == Some(JNull) then None else popped;
    } else {
      assert gone + {} == gone;
      error, data := None, data0;
    }
  }

  /** Pops the fields construction drops unread. */
  method PopIgnored(ghost p: FieldMap, ghost gone: set<string>, data0: FieldMap) returns (data: FieldMap)
    requires data0 == Residual(p, gone)
    requires "errorVerbose" !in gone && "reconciler group" !in gone && "reconciler kind" !in gone
    ensures data == Residual(p, gone + IgnoredKeys)
  {
    var popped;
    popped, data := PopField(p, gone, data0, "errorVerbose");
    popped, data := PopField(p, gone + {"errorVerbose"}, data, "reconciler group");
    popped, data := PopField(p, gone + {"errorVerbose"} + {"reconciler group"}, data, "reconciler kind");
    assert gone + {"errorVerbose"} + {"reconciler group"} + {"reconciler kind"} == gone + IgnoredKeys;
  }

  /** The identity, fallback included, is unaffected by popping the common fields. */
  lemma IdentityResidual(p: FieldMap, logger: string)
    ensures Identity(Residual(p, CommonKeys), logger) == Identity(p, logger)
  {
    CommonKeysApart();
    PrimaryIdentityResidual(p, CommonKeys, logger);
    LookupResidual(p, CommonKeys, "stacktrace");
    LookupResidual(p, CommonKeys, "request");
  }

  /** Pops the context field, giving the context `pretty` makes of it. */
  method PopContext(pretty: Json -> string, p: FieldMap, c: Common, data0: FieldMap)
    returns (context: Option<Json>, data: FieldMap)
    requires data0 == Residual(p, CommonKeys)
    ensures data == Residual(p, CommonKeys + ContextKeys(p, c.message))
    ensures context == Context(pretty, p, c.message)
  {
    data := data0;
    context := None;
    CommonKeysApart();
    LookupResidual(p, CommonKeys, "stacktrace");
    LookupResidual(p, CommonKeys, "data");
    if Has(data, "stacktrace") {
      var popped;
      popped, data := PopField(p, CommonKeys, data, "stacktrace");
      if popped.value != JNull {
        context := popped;
      }
    } else if c.message == JString(IntrospectionMessage) && Has(data, "data") {
      var popped;
      popped, data := PopField(p, CommonKeys, data, "data");
      context := Some(JString(pretty(popped.value)));
    } else {
      assert CommonKeys + ContextKeys(p, c.message) == CommonKeys;
    }
  }

  /**
   * Splits the identity, reads the namespace and pops the remaining consumed fields, giving what
   * `Complete` describes.
   */
  method Finish(rt: Routines, p: FieldMap, c: Common, identity: Option<Json>, context: Option<Json>, data0: FieldMap)
    returns (res: Result<Record, FormatError>)
    requires data0 == Residual(p, CommonKeys + ContextKeys(p, c.message))
    requires context == Context(rt.prettyPrint, p, c.message)
    ensures res == Complete(rt, p, c, identity)
  {
    ghost var gone := CommonKeys + ContextKeys(p, c.message);
    var parts: Option<seq<string>>;
    match identity {
      case None => parts := None;
      case Some(JString(fq)) => parts := Some(SplitOnce(fq, '/'));
      case Some(v) => return Err(NotAString(v));
    }
    FirstPresentResidual(p, gone, NamespaceKeys);
    var name, namespace := Name(parts), Namespace(data0, parts);

    KeysApart(p, c.message, c.level);
    var error, data;
    error, data := PopError(p, gone, data0, c.level);
    data := PopIgnored(p, gone + ErrorKeys(c.level), data);
    res := Ok(Record(c.level, c.timestamp, c.logger, c.message, context, name, namespace, error, data));
    assert res == Ok(Assemble(p, c, parts, context));
  }

  /**
   * `Record.__init__`: consumes the field map by popping the fields it uses one at a time,
   * and gives the record `FromPayload` describes, or the same error.
   */
  method Build(rt: Routines, p: FieldMap) returns (res: Result<Record, FormatError>)
    ensures res == FromPayload(rt, p)
  {
    var common, data := PopCommon(rt, p);
    if common.Err? {
      return Err(common.error);
    }
    var c := common.value;
    IdentityResidual(p, c.logger);
    var identity := Identity(data, c.logger);
    if identity.Err? {
      return Err(identity.error);
    }
    var context;
    context, data := PopContext(rt.prettyPrint, p, c, data);
    res := Finish(rt, p, c, identity.value, context, data);
  }
}
