/**
 * What `Record.__init__` of the older script `bmo-log-parse.py` promises: the same mandatory
 * fields and errors as the current module, the identity of controller loggers from their own
 * fields and of every other logger from `host`, the name after the first `/`, and a residual
 * map that keeps everything but the common fields, the context field and `errorVerbose`.
 */
module LegacyRecordLaws {
  import opened Wrappers
  import opened Seqs
  import opened Text
  import opened Payload
  import opened Library
  import opened Loggers
  import opened LegacyRecords
  import Records
  import RecordLaws

  /**
   * The common fields are read as in the current module, so a payload that lacks one, or whose
   * time does not convert, fails with the same error in both.
   */
  lemma SameCommonErrors(rt: Routines, m: FieldMap)
    ensures Records.CommonFields(rt, m).Err? ==>
      && FromPayload(rt, m) == Err(Records.CommonFields(rt, m).error)
      && Records.FromPayload(rt, m) == Err(Records.CommonFields(rt, m).error)
    ensures FromPayload(rt, m).Ok? ==>
      && Has(m, "level") && Has(m, "ts") && Has(m, "msg")
      && rt.timestampMicros(Lookup(m, "ts").value).Some?
  {
  }

  /**
   * For controller loggers the identity is the first present of `baremetalhost`, `name` and
   * `Request.Name` (a `null` there counts as present and gives no identity).
   */
  lemma {:induction false} ControllerIdentity(m: FieldMap, logger: string)
    requires logger in ControllerLoggers && !Has(m, "stacktrace")
    ensures Has(m, "baremetalhost") ==> Identity(m, logger) == Ok(Records.Get(m, "baremetalhost"))
    ensures !Has(m, "baremetalhost") && Has(m, "name") ==> Identity(m, logger) == Ok(Records.Get(m, "name"))
    ensures !Has(m, "baremetalhost") && !Has(m, "name") ==>
      Identity(m, logger) == Ok(Records.Get(m, "Request.Name"))
  {
    var keys := IdentityKeys;
    assert keys[0] == "baremetalhost" && keys[1..][0] == "name" && keys[1..][1..][0] == "Request.Name";
    assert keys[1..][1..][1..] == [];
    if !Has(m, "baremetalhost") {
      assert FirstPresent(m, keys) == FirstPresent(m, keys[1..]);
      if !Has(m, "name") {
        assert FirstPresent(m, keys[1..]) == FirstPresent(m, keys[1..][1..]);
        if !Has(m, "Request.Name") {
          assert FirstPresent(m, keys[1..][1..]) == FirstPresent(m, []);
        }
      }
    }
  }

  /** Every logger outside the controller set, command and runtime included, is identified by `host`. */
  lemma HostIdentity(m: FieldMap, logger: string)
    requires logger !in ControllerLoggers && !Has(m, "stacktrace")
    ensures Identity(m, logger) == Ok(Records.Get(m, "host"))
  {
  }

  /** With a stack trace and no identity of its own, the record is about its `request`, which must be there. */
  lemma StackTraceFallback(m: FieldMap, logger: string)
    requires Has(m, "stacktrace") && PrimaryIdentity(m, logger).None?
    ensures Has(m, "request") ==> Identity(m, logger) == Ok(Records.Get(m, "request"))
    ensures !Has(m, "request") ==> Identity(m, logger) == Err(MissingField("request"))
  {
  }

  /** The logger the record was built with. */
  function LoggerOf(rt: Routines, m: FieldMap): string
    requires Records.CommonFields(rt, m).Ok?
  {
    Records.CommonFields(rt, m).value.logger
  }

  /**
   * The `host` is taken as it is: without a `/` it is the whole name, so `metal3~foo` names
   * `metal3~foo`; with one, the name is what follows the first `/`.
   */
  lemma HostName(rt: Routines, m: FieldMap, ns: string, host: string)
    requires FromPayload(rt, m).Ok? && LoggerOf(rt, m) !in ControllerLoggers && !Has(m, "stacktrace")
    requires '/' !in ns && (Lookup(m, "host") == Some(JString(host)) || Lookup(m, "host") == Some(JString(ns + "/" + host)))
    requires '/' !in host
    ensures FromPayload(rt, m).value.name == Some(host)
  {
    if Lookup(m, "host") == Some(JString(ns + "/" + host)) {
      SplitOnceOf(ns, '/', host);
      assert ns + "/" + host == ns + ['/'] + host;
    }
  }

  /** An identity `ns/name` from a controller logger's own fields also gives the name after the `/`. */
  lemma ControllerName(rt: Routines, m: FieldMap, ns: string, name: string)
    requires FromPayload(rt, m).Ok? && LoggerOf(rt, m) in ControllerLoggers && !Has(m, "stacktrace")
    requires '/' !in ns && Lookup(m, "baremetalhost") == Some(JString(ns + "/" + name))
    ensures FromPayload(rt, m).value.name == Some(name)
  {
    ControllerIdentity(m, LoggerOf(rt, m));
    SplitOnceOf(ns, '/', name);
    assert ns + "/" + name == ns + ['/'] + name;
  }

  /**
   * The two versions build the same level, time, logger and message from any payload both
   * accept, and the same context unless it is introspection data: that each version prints
   * with its own `pretty_print`.
   */
  lemma AgreesWithCurrent(rt: Routines, m: FieldMap)
    requires FromPayload(rt, m).Ok? && Records.FromPayload(rt, m).Ok?
    ensures var r, s := FromPayload(rt, m).value, Records.FromPayload(rt, m).value;
      && r.level == s.level && r.timestamp == s.timestamp && r.logger == s.logger
      && r.message == s.message
      && (Has(m, "stacktrace") || !Records.IsIntrospection(m, r.message) ==> r.context == s.context)
      && (!Has(m, "stacktrace") && Records.IsIntrospection(m, r.message) ==>
            var d := Lookup(m, "data").value;
            r.context == Some(JString(rt.prettyPrintLegacy(d))) && s.context == Some(JString(rt.prettyPrint(d))))
  {
  }

  /**
   * The context is the stack trace when there is one, of whatever kind (a `null` one gives
   * none), else the `data` of an introspection record as the older `pretty_print` prints it,
   * else nothing.
   */
  lemma RecordContext(rt: Routines, m: FieldMap)
    requires FromPayload(rt, m).Ok?
    ensures var r := FromPayload(rt, m).value;
      && (Has(m, "stacktrace") ==> Lookup(m, "stacktrace") == Some(if r.context.Some? then r.context.value else JNull))
      && (!Has(m, "stacktrace") && Records.IsIntrospection(m, r.message) ==>
            r.context == Some(JString(rt.prettyPrintLegacy(Lookup(m, "data").value))))
      && (!Has(m, "stacktrace") && !Records.IsIntrospection(m, r.message) ==> r.context == None)
  {
  }

  /**
   * The residual data keeps exactly the fields that were not consumed, with their values and in
   * their original order.
   */
  lemma RecordResidual(rt: Routines, m: FieldMap)
    requires FromPayload(rt, m).Ok?
    ensures var r := FromPayload(rt, m).value;
      var ks := ConsumedKeys(m, r.message);
      && IsSubsequence(r.data, m)
      && (forall e :: e in r.data <==> e in m && e.0 !in ks)
      && (forall k :: k in ks ==> !Has(r.data, k))
      && (forall k :: k !in ks ==> Lookup(r.data, k) == Lookup(m, k))
  {
    var r := FromPayload(rt, m).value;
    var ks := ConsumedKeys(m, r.message);
    forall k | k in ks ensures !Has(r.data, k) {
      RecordLaws.ResidualAbsent(m, ks, k);
    }
    forall k | k !in ks ensures Lookup(r.data, k) == Lookup(m, k) {
      LookupResidual(m, ks, k);
    }
  }

  /** Unlike the current module, the older script leaves `error` and the reconciler fields in the data. */
  lemma ErrorFieldsKept(m: FieldMap, message: Json)
    ensures var data := Residual(m, ConsumedKeys(m, message));
      && Lookup(data, "error") == Lookup(m, "error")
      && Lookup(data, "reconciler group") == Lookup(m, "reconciler group")
      && Lookup(data, "reconciler kind") == Lookup(m, "reconciler kind")
  {
    var ks := ConsumedKeys(m, message);
    assert "error" !in ks by {
      assert |"error"| == 5 && |"errorVerbose"| == 12;
    }
    assert "reconciler group" !in ks && "reconciler kind" !in ks by {
      assert "reconciler group"[0] == 'r' && "reconciler kind"[0] == 'r';
    }
    LookupResidual(m, ks, "error");
    LookupResidual(m, ks, "reconciler group");
    LookupResidual(m, ks, "reconciler kind");
  }

  /**
   * Construction depends on the fields and not on their order: payloads with the same entries
   * give the same error, or records that differ at most in the order of their residual data.
   */
  lemma OrderIndependence(rt: Routines, m1: FieldMap, m2: FieldMap)
    requires forall e :: e in m1 <==> e in m2
    ensures FromPayload(rt, m1).Ok? <==> FromPayload(rt, m2).Ok?
    ensures FromPayload(rt, m1).Err? ==> FromPayload(rt, m1) == FromPayload(rt, m2)
    ensures FromPayload(rt, m1).Ok? ==>
      var r1, r2 := FromPayload(rt, m1).value, FromPayload(rt, m2).value;
      && r1.(data := r2.data) == r2
      && forall e :: e in r1.data <==> e in r2.data
  {
    RecordLaws.CommonSameEntries(rt, m1, m2);
    IdentitySameEntries(m1, m2);
    var c := Records.CommonFields(rt, m1);
    if c.Ok? {
      var identity := Identity(m1, c.value.logger);
      if identity.Ok? {
        CompleteSameEntries(rt, m1, m2, c.value, identity.value);
      }
    }
  }

  /** The identity depends only on the entries. */
  lemma IdentitySameEntries(m1: FieldMap, m2: FieldMap)
    requires forall e :: e in m1 <==> e in m2
    ensures forall logger :: Identity(m1, logger) == Identity(m2, logger)
  {
    FirstPresentSameEntries(m1, m2, IdentityKeys);
    LookupSameEntries(m1, m2, "host");
    LookupSameEntries(m1, m2, "stacktrace");
    LookupSameEntries(m1, m2, "request");
  }

  /** The rest of construction depends only on the entries. */
  lemma CompleteSameEntries(rt: Routines, m1: FieldMap, m2: FieldMap, c: Records.Common, identity: Option<Json>)
    requires forall e :: e in m1 <==> e in m2
    ensures var r1, r2 := Complete(rt, m1, c, identity), Complete(rt, m2, c, identity);
      && (r1.Ok? <==> r2.Ok?)
      && (r1.Err? ==> r1 == r2)
      && (r1.Ok? ==> r1.value.(data := r2.value.data) == r2.value && forall e :: e in r1.value.data <==> e in r2.value.data)
  {
    RecordLaws.ContextSameEntries(rt.prettyPrintLegacy, m1, m2);
    LookupSameEntries(m1, m2, "stacktrace");
    LookupSameEntries(m1, m2, "data");
    assert Records.ContextKeys(m1, c.message) == Records.ContextKeys(m2, c.message);
    var ks := ConsumedKeys(m1, c.message);
    assert ks == ConsumedKeys(m2, c.message);
    var d1, d2 := Residual(m1, ks), Residual(m2, ks);
    assert forall e :: e in d1 <==> e in d2;
  }
}
