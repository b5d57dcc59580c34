/**
 * The decoded JSON payload of a log line: a field map that keeps the order in which the
 * fields appeared, with each key at most once (a dict as `json.loads` builds it).
 */
module Payload {
  import opened Wrappers
  import opened Seqs

  datatype Json =
    | JNull
    | JBool(b: bool)
    | JNumber(literal: string)
    | JString(s: string)
    | JArray(items: seq<Json>)
    | JObject(members: seq<(string, Json)>)

  predicate DistinctKeys(m: seq<(string, Json)>)
  {
    forall i, j | 0 <= i < j < |m| :: m[i].0 != m[j].0
  }

  /** An insertion-ordered map from field names to values. */
  type FieldMap = m: seq<(string, Json)> | DistinctKeys(m) witness []

  /** What `json.loads` gives for the text of a `{...}` payload. */
  datatype Decoded =
    | Object(fields: FieldMap)
    | Malformed(msg: string, colno: int)  // JSONDecodeError: its message and 1-based column

  /** The errors that constructing a record from a field map raises. */
  datatype FormatError =
    | MissingField(key: string)   // KeyError from `data.pop(key)` or `data[key]`
    | BadTimestamp(value: Json)   // `float(ts)` raised
    | NotAString(value: Json)     // a string method called on a value that is not a string

  /** `m.get(k)`, with `None` when `k` is absent. */
  function Lookup(m: seq<(string, Json)>, k: string): (r: Option<Json>)
    ensures r.Some? ==> (k, r.value) in m
  {
    if m == [] then None
    else if m[0].0 == k then Some(m[0].1)
    else Lookup(m[1..], k)
  }

  /** A lookup finds nothing exactly when no entry has the key. */
  lemma {:induction false} LookupAbsent(m: seq<(string, Json)>, k: string)
    ensures Lookup(m, k).None? <==> forall i | 0 <= i < |m| :: m[i].0 != k
  {
    if m != [] {
      LookupAbsent(m[1..], k);
      assert forall i | 1 <= i < |m| :: m[i] == m[1..][i - 1];
    }
  }

  /** `k in m`. */
  predicate Has(m: seq<(string, Json)>, k: string)
  {
    Lookup(m, k).Some?
  }

  /** With distinct keys, an entry is what a lookup of its key finds. */
  lemma {:induction false} LookupEntry(m: FieldMap, k: string, v: Json)
    requires (k, v) in m
    ensures Lookup(m, k) == Some(v)
  {
    var i :| 0 <= i < |m| && m[i] == (k, v);
    if i > 0 {
      assert m[0].0 != k;
      var tail: FieldMap := m[1..];
      assert tail[i - 1] == (k, v);
      LookupEntry(tail, k, v);
    }
  }

  /** Two field maps with the same entries answer every lookup alike, whatever their order. */
  lemma LookupSameEntries(m1: FieldMap, m2: FieldMap, k: string)
    requires forall e :: e in m1 <==> e in m2
    ensures Lookup(m1, k) == Lookup(m2, k)
  {
    var r1 := Lookup(m1, k);
    if r1.Some? {
      LookupEntry(m2, k, r1.value);
    } else if Lookup(m2, k).Some? {
      LookupEntry(m1, k, Lookup(m2, k).value);
    }
  }

  /** `m.get(keys[0], m.get(keys[1], ...))`: the first of `keys` present in `m`, with its key. */
  function FirstPresent(m: seq<(string, Json)>, keys: seq<string>): Option<(string, Json)>
  {
    if keys == [] then None
    else if Has(m, keys[0]) then Some((keys[0], Lookup(m, keys[0]).value))
    else FirstPresent(m, keys[1..])
  }

  /**
   * The nested `get` finds nothing only when none of the keys is present, and otherwise finds
   * the value of the earliest key that is.
   */
  lemma {:induction false} FirstPresentSpec(m: seq<(string, Json)>, keys: seq<string>)
    ensures var r := FirstPresent(m, keys);
      && (r.None? <==> forall i | 0 <= i < |keys| :: !Has(m, keys[i]))
      && (r.Some? ==> exists i | 0 <= i < |keys| ::
            && keys[i] == r.value.0
            && Lookup(m, keys[i]) == Some(r.value.1)
            && forall j | 0 <= j < i :: !Has(m, keys[j]))
  {
    if keys != [] && !Has(m, keys[0]) {
      FirstPresentSpec(m, keys[1..]);
      var r := FirstPresent(m, keys[1..]);
      if r.Some? {
        var i :| 0 <= i < |keys[1..]| && keys[1..][i] == r.value.0 && Lookup(m, keys[1..][i]) == Some(r.value.1)
                 && forall j | 0 <= j < i :: !Has(m, keys[1..][j]);
        assert keys[i + 1] == r.value.0;
        forall j | 0 <= j < i + 1 ensures !Has(m, keys[j]) {
          if j > 0 { assert keys[j] == keys[1..][j - 1]; }
        }
      } else {
        forall j | 0 <= j < |keys| ensures !Has(m, keys[j]) {
          if j > 0 { assert keys[j] == keys[1..][j - 1]; }
        }
      }
    }
  }

  /** The entries of `m` whose key is not in `ks`, in their original order. */
  function WithoutAll(m: seq<(string, Json)>, ks: set<string>): (r: seq<(string, Json)>)
    ensures forall e :: e in r <==> e in m && e.0 !in ks
    ensures IsSubsequence(r, m)
  {
    if m == [] then []
    else if m[0].0 in ks then WithoutAll(m[1..], ks)
    else [m[0]] + WithoutAll(m[1..], ks)
  }

  /** Removing keys keeps the keys distinct. */
  lemma {:induction false} WithoutAllDistinct(m: FieldMap, ks: set<string>)
    ensures DistinctKeys(WithoutAll(m, ks))
  {
    if m != [] {
      var tail: FieldMap := m[1..];
      WithoutAllDistinct(tail, ks);
      var r := WithoutAll(tail, ks);
      if m[0].0 !in ks {
        forall i | 0 <= i < |r| ensures r[i].0 != m[0].0 {
          assert r[i] in r;
        }
      }
    }
  }

  /** The residual map of `m` once the fields in `ks` are consumed. */
  function Residual(m: FieldMap, ks: set<string>): (r: FieldMap)
    ensures forall e :: e in r <==> e in m && e.0 !in ks
    ensures IsSubsequence(r, m)
  {
    WithoutAllDistinct(m, ks);
    WithoutAll(m, ks)
  }

  /** Removing one set of keys and then another is removing both at once. */
  lemma {:induction false} WithoutAllTwice(m: seq<(string, Json)>, ks1: set<string>, ks2: set<string>)
    ensures WithoutAll(WithoutAll(m, ks1), ks2) == WithoutAll(m, ks1 + ks2)
  {
    if m != [] {
      WithoutAllTwice(m[1..], ks1, ks2);
      if m[0].0 !in ks1 {
        assert WithoutAll(m, ks1) == [m[0]] + WithoutAll(m[1..], ks1);
        assert WithoutAll(m, ks1)[1..] == WithoutAll(m[1..], ks1);
      }
    }
  }

  /** A lookup after removal finds the old value of every key that was kept. */
  lemma {:induction false} LookupWithoutAll(m: seq<(string, Json)>, ks: set<string>, k: string)
    requires k !in ks
    ensures Lookup(WithoutAll(m, ks), k) == Lookup(m, k)
  {
    if m != [] {
      LookupWithoutAll(m[1..], ks, k);
      if m[0].0 !in ks {
        assert WithoutAll(m, ks) == [m[0]] + WithoutAll(m[1..], ks);
      }
    }
  }

  /**
   * `m.pop(k, None)` on a map that is `orig` with the keys `gone` already popped: the value, if
   * any, and the map without `k`, which is `orig` with `k` popped as well.
   */
  method PopField(ghost orig: FieldMap, ghost gone: set<string>, m: FieldMap, k: string) returns (v: Option<Json>, rest: FieldMap)
    requires m == Residual(orig, gone) && k !in gone
    ensures v == Lookup(m, k) == Lookup(orig, k)
    ensures rest == Residual(m, {k}) == Residual(orig, gone + {k})
  {
    WithoutNone(orig);
    LookupResidual(orig, gone, k);
    ResidualTwice(orig, gone, {k});
    v := Lookup(m, k);
    rest := Residual(m, {k});
  }

  /** Removing no keys changes nothing. */
  lemma {:induction false} WithoutNone(m: seq<(string, Json)>)
    ensures WithoutAll(m, {}) == m
  {
    if m != [] {
      WithoutNone(m[1..]);
    }
  }

  /** Removing keys in two steps is removing them all at once. */
  lemma ResidualTwice(m: FieldMap, ks1: set<string>, ks2: set<string>)
    ensures Residual(Residual(m, ks1), ks2) == Residual(m, ks1 + ks2)
  {
    WithoutAllTwice(m, ks1, ks2);
  }

  /** Lookups of keys that stay are unaffected by the removal. */
  lemma LookupResidual(m: FieldMap, ks: set<string>, k: string)
    requires k !in ks
    ensures Lookup(Residual(m, ks), k) == Lookup(m, k)
  {
    LookupWithoutAll(m, ks, k);
  }

  /** The first present of `keys` is unaffected by removing other keys. */
  lemma {:induction false} FirstPresentResidual(m: FieldMap, ks: set<string>, keys: seq<string>)
    requires forall i | 0 <= i < |keys| :: keys[i] !in ks
    ensures FirstPresent(Residual(m, ks), keys) == FirstPresent(m, keys)
  {
    if keys != [] {
      LookupResidual(m, ks, keys[0]);
      FirstPresentResidual(m, ks, keys[1..]);
    }
  }

  /** Field maps with the same entries agree on the first present of any keys. */
  lemma {:induction false} FirstPresentSameEntries(m1: FieldMap, m2: FieldMap, keys: seq<string>)
    requires forall e :: e in m1 <==> e in m2
    ensures FirstPresent(m1, keys) == FirstPresent(m2, keys)
  {
    if keys != [] {
      LookupSameEntries(m1, m2, keys[0]);
      FirstPresentSameEntries(m1, m2, keys[1..]);
    }
  }
}
