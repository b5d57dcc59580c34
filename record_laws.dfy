/**
 * What `Record.__init__` of `bmo_log_parse.py` promises about the record it builds: which fields
 * are mandatory and in which order their absence is reported, where the identity, name and
 * namespace come from, when the error and the context are taken, and what stays in the
 * residual map.
 */
module RecordLaws {
  import opened Wrappers
  import opened Seqs
  import opened Text
  import opened Payload
  import opened Library
  import opened Loggers
  import opened Records

  /** A record exists only when `level`, `ts` and `msg` are present and the time converts. */
  lemma MandatoryFields(rt: Routines, m: FieldMap)
    ensures FromPayload(rt, m).Ok? ==>
      && Has(m, "level") && Has(m, "ts") && Has(m, "msg")
      && rt.timestampMicros(Lookup(m, "ts").value).Some?
  {
  }

  /**
   * The errors are reported in the order the fields are popped: `level`, then `ts`, then the
   * conversion of `ts`, then `logger`, then `msg`.
   */
  lemma MissingFieldOrder(rt: Routines, m: FieldMap)
    ensures !Has(m, "level") ==> FromPayload(rt, m) == Err(MissingField("level"))
    ensures Has(m, "level") && !Has(m, "ts") ==> FromPayload(rt, m) == Err(MissingField("ts"))
    ensures Has(m, "level") && Has(m, "ts") && rt.timestampMicros(Lookup(m, "ts").value).None? ==>
      FromPayload(rt, m) == Err(BadTimestamp(Lookup(m, "ts").value))
    ensures LevelAndTime(rt, m).Ok? && Has(m, "logger") && !Lookup(m, "logger").value.JString? ==>
      FromPayload(rt, m) == Err(NotAString(Lookup(m, "logger").value))
    ensures LevelAndTime(rt, m).Ok? && (!Has(m, "logger") || Lookup(m, "logger").value.JString?) && !Has(m, "msg") ==>
      FromPayload(rt, m) == Err(MissingField("msg"))
  {
  }

  /** A record without a `logger` field belongs to the command loggers. */
  lemma MissingLoggerIsCommand(rt: Routines, m: FieldMap)
    requires CommonFields(rt, m).Ok? && !Has(m, "logger")
    ensures CommonFields(rt, m).value.logger == "" && "" in CommandLoggers
  {
  }

  /** A sub-logger such as `provisioner.ironic` is known by its first component. */
  lemma LoggerComponent(rt: Routines, m: FieldMap, head: string, rest: string)
    requires LevelAndTime(rt, m).Ok? && Has(m, "msg") && '.' !in head
    requires Lookup(m, "logger") == Some(JString(head + "." + rest))
    ensures CommonFields(rt, m).Ok? && CommonFields(rt, m).value.logger == head
  {
    LoggerPrefixOf(head, rest);
  }

  /**
   * Outside the provisioner loggers the identity is the first present of `baremetalhost`,
   * `Request.Name` and `name` (a `null` there counts as present and gives no identity).
   */
  lemma {:induction false} ControllerIdentity(m: FieldMap, logger: string)
    requires logger !in ProvisionerLoggers && !Has(m, "stacktrace")
    ensures Has(m, "baremetalhost") ==> Identity(m, logger) == Ok(Get(m, "baremetalhost"))
    ensures !Has(m, "baremetalhost") && Has(m, "Request.Name") ==>
      Identity(m, logger) == Ok(Get(m, "Request.Name"))
    ensures !Has(m, "baremetalhost") && !Has(m, "Request.Name") ==> Identity(m, logger) == Ok(Get(m, "name"))
  {
    var keys := IdentityKeys;
    assert keys[0] == "baremetalhost" && keys[1..][0] == "Request.Name" && keys[1..][1..][0] == "name";
    assert keys[1..][1..][1..] == [];
    if !Has(m, "baremetalhost") {
      assert FirstPresent(m, keys) == FirstPresent(m, keys[1..]);
      if !Has(m, "Request.Name") {
        assert FirstPresent(m, keys[1..]) == FirstPresent(m, keys[1..][1..]);
      }
    }
  }

  /** For provisioner loggers an absent or empty `host` gives no identity. */
  lemma ProvisionerNoHost(m: FieldMap, logger: string)
    requires logger in ProvisionerLoggers && !Has(m, "stacktrace")
    requires Lookup(m, "host") in {None, Some(JString(""))}
    ensures Identity(m, logger) == Ok(None)
  {
  }

  /**
   * For provisioner loggers the identity is `host` with its first `~` read as the `/` between
   * namespace and name.
   */
  lemma ProvisionerIdentity(m: FieldMap, logger: string, ns: string, name: string)
    requires logger in ProvisionerLoggers && !Has(m, "stacktrace")
    requires '~' !in ns && Lookup(m, "host") == Some(JString(ns + "~" + name))
    ensures Identity(m, logger) == Ok(Some(JString(ns + "/" + name)))
  {
    ReplaceFirstOf(ns, '~', '/', name);
    assert ns + "~" + name == ns + ['~'] + name;
    assert ns + "/" + name == ns + ['/'] + name;
    assert |ns + "/" + name| > 0;
  }

  /** With a stack trace and no identity of its own, the record is about its `request`, which must be there. */
  lemma StackTraceFallback(m: FieldMap, logger: string)
    requires Has(m, "stacktrace") && PrimaryIdentity(m, logger) == Ok(None)
    ensures Has(m, "request") ==> Identity(m, logger) == Ok(Get(m, "request"))
    ensures !Has(m, "request") ==> Identity(m, logger) == Err(MissingField("request"))
  {
  }

  /** A present identity is never replaced by the fallback. */
  lemma PrimaryIdentityWins(m: FieldMap, logger: string)
    requires PrimaryIdentity(m, logger).Ok? && PrimaryIdentity(m, logger).value.Some?
    ensures Identity(m, logger) == PrimaryIdentity(m, logger)
  {
  }

  /** The logger the record was built with, for stating the identity rules about a record. */
  function LoggerOf(rt: Routines, m: FieldMap): string
    requires CommonFields(rt, m).Ok?
  {
    CommonFields(rt, m).value.logger
  }

  /**
   * An identity `ns/name` gives the name after the first `/`; the namespace is the `namespace`
   * field, else the `Request.Namespace` field, else the text before the `/`.
   */
  lemma NameAndNamespace(rt: Routines, m: FieldMap, ns: string, name: string)
    requires FromPayload(rt, m).Ok? && '/' !in ns
    requires Identity(m, LoggerOf(rt, m)) == Ok(Some(JString(ns + "/" + name)))
    ensures FromPayload(rt, m).value.name == Some(name)
    ensures Has(m, "namespace") ==> FromPayload(rt, m).value.namespace == Get(m, "namespace")
    ensures !Has(m, "namespace") && Has(m, "Request.Namespace") ==>
      FromPayload(rt, m).value.namespace == Get(m, "Request.Namespace")
    ensures !Has(m, "namespace") && !Has(m, "Request.Namespace") ==>
      FromPayload(rt, m).value.namespace == Some(JString(ns))
  {
    SplitOnceOf(ns, '/', name);
    assert ns + "/" + name == ns + ['/'] + name;
    NamespaceRule(m, Some([ns, name]));
  }

  /** An identity without a `/` is all name; only a namespace field gives a namespace. */
  lemma NameWithoutNamespace(rt: Routines, m: FieldMap, name: string)
    requires FromPayload(rt, m).Ok? && '/' !in name
    requires Identity(m, LoggerOf(rt, m)) == Ok(Some(JString(name)))
    ensures FromPayload(rt, m).value.name == Some(name)
    ensures !Has(m, "namespace") && !Has(m, "Request.Namespace") ==> FromPayload(rt, m).value.namespace == None
  {
    NamespaceRule(m, Some([name]));
  }

  /** Without an identity there is no name, and only a namespace field gives a namespace. */
  lemma NoIdentity(rt: Routines, m: FieldMap)
    requires FromPayload(rt, m).Ok?
    requires Identity(m, LoggerOf(rt, m)) == Ok(None)
    ensures FromPayload(rt, m).value.name == None
    ensures !Has(m, "namespace") && !Has(m, "Request.Namespace") ==> FromPayload(rt, m).value.namespace == None
  {
    NamespaceRule(m, None);
  }

  /** The namespace lookup: `namespace`, then `Request.Namespace`, then the identity's prefix. */
  lemma NamespaceRule(m: FieldMap, parts: Option<seq<string>>)
    ensures Has(m, "namespace") ==> Namespace(m, parts) == Get(m, "namespace")
    ensures !Has(m, "namespace") && Has(m, "Request.Namespace") ==> Namespace(m, parts) == Get(m, "Request.Namespace")
    ensures !Has(m, "namespace") && !Has(m, "Request.Namespace") ==>
      Namespace(m, parts) == if parts.Some? && |parts.value| == 2 then Some(JString(parts.value[0])) else None
  {
    var keys := NamespaceKeys;
    assert keys[0] == "namespace" && keys[1..][0] == "Request.Namespace" && keys[1..][1..] == [];
    if !Has(m, "namespace") {
      assert FirstPresent(m, keys) == FirstPresent(m, keys[1..]);
      if !Has(m, "Request.Namespace") {
        assert FirstPresent(m, keys[1..]) == FirstPresent(m, keys[1..][1..]);
      }
    }
  }

  /**
   * A provisioner record whose `host` is `ns~name`, with no stack trace and no namespace field,
   * is about the host `name` in the namespace `ns`.
   */
  lemma ProvisionerHostRoundTrip(rt: Routines, m: FieldMap, ns: string, name: string)
    requires FromPayload(rt, m).Ok? && LoggerOf(rt, m) in ProvisionerLoggers
    requires !Has(m, "stacktrace") && !Has(m, "namespace") && !Has(m, "Request.Namespace")
    requires '~' !in ns && '/' !in ns && Lookup(m, "host") == Some(JString(ns + "~" + name))
    ensures FromPayload(rt, m).value.name == Some(name)
    ensures FromPayload(rt, m).value.namespace == Some(JString(ns))
  {
    ProvisionerIdentity(m, LoggerOf(rt, m), ns, name);
    NameAndNamespace(rt, m, ns, name);
  }

  /**
   * A controller record whose `baremetalhost` is `ns/name`, with no namespace field, is about the
   * host `name` in the namespace `ns`.
   */
  lemma ControllerHostRoundTrip(rt: Routines, m: FieldMap, ns: string, name: string)
    requires FromPayload(rt, m).Ok? && LoggerOf(rt, m) !in ProvisionerLoggers
    requires !Has(m, "stacktrace") && !Has(m, "namespace") && !Has(m, "Request.Namespace")
    requires '/' !in ns && Lookup(m, "baremetalhost") == Some(JString(ns + "/" + name))
    ensures FromPayload(rt, m).value.name == Some(name)
    ensures FromPayload(rt, m).value.namespace == Some(JString(ns))
  {
    ControllerIdentity(m, LoggerOf(rt, m));
    NameAndNamespace(rt, m, ns, name);
  }

  /**
   * The context is the stack trace when there is one, of whatever kind (a `null` one gives
   * none), else the pretty-printed `data` of an introspection record, else nothing.
   */
  lemma RecordContext(rt: Routines, m: FieldMap)
    requires FromPayload(rt, m).Ok?
    ensures var r := FromPayload(rt, m).value;
      && (Has(m, "stacktrace") ==> Lookup(m, "stacktrace") == Some(if r.context.Some? then r.context.value else JNull))
      && (!Has(m, "stacktrace") && IsIntrospection(m, r.message) ==>
            r.context == Some(JString(rt.prettyPrint(Lookup(m, "data").value))))
      && (!Has(m, "stacktrace") && !IsIntrospection(m, r.message) ==> r.context == None)
  {
  }

  /** Only error records carry an error; in any other record an `error` field stays in the data. */
  lemma RecordError(rt: Routines, m: FieldMap)
    requires FromPayload(rt, m).Ok?
    ensures var r := FromPayload(rt, m).value;
      && (IsError(r) ==> r.error == Get(m, "error") && !Has(r.data, "error"))
      && (!IsError(r) ==> r.error == None && Lookup(r.data, "error") == Lookup(m, "error"))
  {
    var r := FromPayload(rt, m).value;
    var ks := ConsumedKeys(m, r.level, r.message);
    if IsError(r) {
      assert "error" in ks;
      ResidualAbsent(m, ks, "error");
    } else {
      KeysApart(m, r.message, r.level);
      assert "error" !in ks;
      LookupResidual(m, ks, "error");
    }
  }

  /** A consumed key is gone from the residual map. */
  lemma ResidualAbsent(m: FieldMap, ks: set<string>, k: string)
    requires k in ks
    ensures !Has(Residual(m, ks), k)
  {
    var r := Residual(m, ks);
    LookupAbsent(r, k);
    forall i | 0 <= i < |r| ensures r[i].0 != k {
      assert r[i] in r;
    }
  }

  /**
   * The residual data keeps exactly the fields that were not consumed, with their values and in
   * their original order.
   */
  lemma RecordResidual(rt: Routines, m: FieldMap)
    requires FromPayload(rt, m).Ok?
    ensures var r := FromPayload(rt, m).value;
      var ks := ConsumedKeys(m, r.level, r.message);
      && IsSubsequence(r.data, m)
      && (forall e :: e in r.data <==> e in m && e.0 !in ks)
      && (forall k :: k in ks ==> !Has(r.data, k))
      && (forall k :: k !in ks ==> Lookup(r.data, k) == Lookup(m, k))
  {
    var r := FromPayload(rt, m).value;
    var ks := ConsumedKeys(m, r.level, r.message);
    forall k | k in ks ensures !Has(r.data, k) {
      ResidualAbsent(m, ks, k);
    }
    forall k | k !in ks ensures Lookup(r.data, k) == Lookup(m, k) {
      LookupResidual(m, ks, k);
    }
  }

  /** Every consumed key starts with a lower-case letter. */
  lemma ConsumedLowerCase(m: FieldMap, level: Json, message: Json)
    ensures forall k | k in ConsumedKeys(m, level, message) :: |k| > 0 && 'a' <= k[0] <= 'z'
  {
  }

  /** `Request.Name` and `Request.Namespace` stay in the residual data. */
  lemma RequestFieldsKept(m: FieldMap, level: Json, message: Json)
    ensures var data := Residual(m, ConsumedKeys(m, level, message));
      && Lookup(data, "Request.Name") == Lookup(m, "Request.Name")
      && Lookup(data, "Request.Namespace") == Lookup(m, "Request.Namespace")
  {
    var ks := ConsumedKeys(m, level, message);
    ConsumedLowerCase(m, level, message);
    assert "Request.Name"[0] == 'R' && "Request.Namespace"[0] == 'R';
    LookupResidual(m, ks, "Request.Name");
    LookupResidual(m, ks, "Request.Namespace");
  }

  /**
   * Construction depends on the fields and not on their order: payloads with the same entries
   * give the same error, or records that differ at most in the order of their residual data.
   */
  lemma OrderIndependence(rt: Routines, m1: FieldMap, m2: FieldMap)
    requires forall e :: e in m1 <==> e in m2
    ensures FromPayload(rt, m1).Ok? <==> FromPayload(rt, m2).Ok?
    ensures FromPayload(rt, m1).Err? ==> FromPayload(rt, m1) == FromPayload(rt, m2)
    ensures FromPayload(rt, m1).Ok? ==>
      var r1, r2 := FromPayload(rt, m1).value, FromPayload(rt, m2).value;
      && r1.(data := r2.data) == r2
      && forall e :: e in r1.data <==> e in r2.data
  {
    CommonSameEntries(rt, m1, m2);
    IdentitySameEntries(m1, m2);
    var c := CommonFields(rt, m1);
    if c.Ok? {
      CompleteSameEntries(rt, m1, m2, c.value, Identity(m1, c.value.logger));
    }
  }

  /** The rest of construction depends only on the entries. */
  lemma CompleteSameEntries(rt: Routines, m1: FieldMap, m2: FieldMap, c: Common, identity: Result<Option<Json>, FormatError>)
    requires forall e :: e in m1 <==> e in m2
    ensures identity.Ok? ==>
      var r1, r2 := Complete(rt, m1, c, identity.value), Complete(rt, m2, c, identity.value);
      && (r1.Ok? <==> r2.Ok?)
      && (r1.Err? ==> r1 == r2)
      && (r1.Ok? ==> r1.value.(data := r2.value.data) == r2.value && forall e :: e in r1.value.data <==> e in r2.value.data)
  {
    ContextSameEntries(rt.prettyPrint, m1, m2);
    FirstPresentSameEntries(m1, m2, NamespaceKeys);
    LookupSameEntries(m1, m2, "error");
  }

  /** The common fields depend only on the entries. */
  lemma CommonSameEntries(rt: Routines, m1: FieldMap, m2: FieldMap)
    requires forall e :: e in m1 <==> e in m2
    ensures CommonFields(rt, m1) == CommonFields(rt, m2)
  {
    LookupSameEntries(m1, m2, "level");
    LookupSameEntries(m1, m2, "ts");
    LookupSameEntries(m1, m2, "logger");
    LookupSameEntries(m1, m2, "msg");
  }

  /** The identity depends only on the entries. */
  lemma IdentitySameEntries(m1: FieldMap, m2: FieldMap)
    requires forall e :: e in m1 <==> e in m2
    ensures forall logger :: Identity(m1, logger) == Identity(m2, logger)
  {
    FirstPresentSameEntries(m1, m2, IdentityKeys);
    LookupSameEntries(m1, m2, "host");
    LookupSameEntries(m1, m2, "stacktrace");
    LookupSameEntries(m1, m2, "request");
  }

  /** The context and the consumed keys depend only on the entries. */
  lemma ContextSameEntries(pretty: Json -> string, m1: FieldMap, m2: FieldMap)
    requires forall e :: e in m1 <==> e in m2
    ensures forall message :: Context(pretty, m1, message) == Context(pretty, m2, message)
    ensures forall level, message :: ConsumedKeys(m1, level, message) == ConsumedKeys(m2, level, message)
  {
    LookupSameEntries(m1, m2, "stacktrace");
    LookupSameEntries(m1, m2, "data");
  }
}
