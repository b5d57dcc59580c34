/**
 * A log record of the older script `bmo-log-parse.py` and its construction from a decoded
 * payload. The common fields, the stack-trace fallback and the context are read as in the
 * current module; the identity rule, the lack of a namespace and the smaller set of consumed
 * fields differ.
 */
module LegacyRecords {
  import opened Wrappers
  import opened Text
  import opened Payload
  import opened Library
  import opened Loggers
  import Records

  /** Where controller loggers look for the resource name, most preferred first. */
  const IdentityKeys: seq<string> := ["baremetalhost", "name", "Request.Name"]

  /** A record of the older script: no namespace and no separate error. */
  datatype LegacyRecord = LegacyRecord(
    level: Json,
    timestamp: int,              // microseconds since the Unix epoch, UTC
    logger: string,
    message: Json,
    context: Option<Json>,
    name: Option<string>,
    data: FieldMap)

  predicate IsError(r: LegacyRecord)
  {
    r.level == JString(ErrorLevel)
  }

  /**
   * The identity before the stack-trace fallback: the first present of the identity keys for
   * controller loggers, and `host` as it is for every other logger.
   */
  function PrimaryIdentity(m: FieldMap, logger: string): Option<Json>
  {
    if logger in ControllerLoggers then
      match FirstPresent(m, IdentityKeys)
      case None => None
      case Some((_, v)) => Records.NonNull(v)
    else
      Records.Get(m, "host")
  }

  /** The identity, falling back to `request` when there is a stack trace and no identity yet. */
  function Identity(m: FieldMap, logger: string): Result<Option<Json>, FormatError>
  {
    var primary := PrimaryIdentity(m, logger);
    if Has(m, "stacktrace") && primary.None? then
      if Has(m, "request") then Ok(Records.Get(m, "request")) else Err(MissingField("request"))
    else
      Ok(primary)
  }

  /** `name.split('/', 1)[-1]`: the text after the first `/`, or all of it; it needs a string. */
  function NameOf(identity: Option<Json>): Result<Option<string>, FormatError>
  {
    match identity
    case None => Ok(None)
    case Some(JString(s)) =>
      var parts := SplitOnce(s, '/');
      Ok(Some(parts[|parts| - 1]))
    case Some(v) => Err(NotAString(v))
  }

  /** The fields construction consumes: the common ones, the context field and `errorVerbose`. */
  function ConsumedKeys(m: FieldMap, message: Json): set<string>
  {
    Records.CommonKeys + Records.ContextKeys(m, message) + {"errorVerbose"}
  }

  /** The rest of construction once the common fields and the identity are known. */
  function Complete(rt: Routines, m: FieldMap, c: Records.Common, identity: Option<Json>): Result<LegacyRecord, FormatError>
  {
    var name :- NameOf(identity);
    Ok(LegacyRecord(c.level, c.timestamp, c.logger, c.message, Records.Context(rt.prettyPrintLegacy, m, c.message), name,
                    Residual(m, ConsumedKeys(m, c.message))))
  }

  /** `Record(data)` of the older script: the record a field map describes, or the error raised. */
  function FromPayload(rt: Routines, m: FieldMap): Result<LegacyRecord, FormatError>
  {
    var c :- Records.CommonFields(rt, m);
    var identity :- Identity(m, c.logger);
    Complete(rt, m, c, identity)
  }

  /** The fields the identity is read from are not common fields, nor is `errorVerbose` a context field. */
  lemma KeysApart(m: FieldMap, message: Json)
    ensures "stacktrace" !in Records.CommonKeys && "request" !in Records.CommonKeys && "host" !in Records.CommonKeys
    ensures forall i | 0 <= i < |IdentityKeys| :: IdentityKeys[i] !in Records.CommonKeys
    ensures "errorVerbose" !in Records.CommonKeys + Records.ContextKeys(m, message)
  {
    Records.KeysApart(m, message, JNull);
    assert "errorVerbose" in Records.IgnoredKeys;
  }

  /** The identity, fallback included, is unaffected by popping the common fields. */
  lemma IdentityResidual(p: FieldMap, logger: string)
    ensures Identity(Residual(p, Records.CommonKeys), logger) == Identity(p, logger)
  {
    KeysApart(p, JNull);
    PrimaryIdentityResidual(p, Records.CommonKeys, logger);
    LookupResidual(p, Records.CommonKeys, "stacktrace");
    LookupResidual(p, Records.CommonKeys, "request");
  }

  /** The identity lookups are unaffected by popping other fields. */
  lemma PrimaryIdentityResidual(p: FieldMap, ks: set<string>, logger: string)
    requires "host" !in ks && forall i | 0 <= i < |IdentityKeys| :: IdentityKeys[i] !in ks
    ensures PrimaryIdentity(Residual(p, ks), logger) == PrimaryIdentity(p, logger)
  {
    FirstPresentResidual(p, ks, IdentityKeys);
    LookupResidual(p, ks, "host");
  }

  /**
   * `Record.__init__` of the older script: pops the fields it uses one at a time and gives the
   * record `FromPayload` describes, or the same error.
   */
  method Build(rt: Routines, p: FieldMap) returns (res: Result<LegacyRecord, FormatError>)
    ensures res == FromPayload(rt, p)
  {
    var common, data := Records.PopCommon(rt, p);
    if common.Err? {
      return Err(common.error);
    }
    var c := common.value;
    IdentityResidual(p, c.logger);
    var identity := Identity(data, c.logger);
    if identity.Err? {
      return Err(identity.error);
    }
    var context;
    context, data := Records.PopContext(rt.prettyPrintLegacy, p, c, data);
    var name := NameOf(identity.value);
    if name.Err? {
      return Err(name.error);
    }
    KeysApart(p, c.message);
    var popped;
    popped, data := PopField(p, Records.CommonKeys + Records.ContextKeys(p, c.message), data, "errorVerbose");
    res := Ok(LegacyRecord(c.level, c.timestamp, c.logger, c.message, context, name.value, data));
  }
}
