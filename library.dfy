/**
 * The library routines the log parser calls but does not define: JSON decoding, conversion
 * of the `ts` field to a time, pretty-printing, `repr` and ISO-8601 rendering. The model takes
 * them as given total functions and states every property relative to them.
 */
module Library {
  import opened Wrappers
  import opened Payload

  datatype Routines = Routines(
    /** `json.loads` applied to the text of a `{...}` payload. */
    loads: string -> Decoded,
    /**
     * `datetime.fromtimestamp(float(v), tz=utc)` as whole microseconds since the Unix epoch,
     * or `None` where `float(v)` or the conversion raises.
     */
    timestampMicros: Json -> Option<int>,
    /**
     * `pretty_print` of `bmo_log_parse.py`: `yaml.safe_dump` in block style, or
     * `json.dumps(indent=2)` when YAML is unavailable.
     */
    prettyPrint: Json -> string,
    /**
     * `pretty_print` of the older script: `yaml.safe_dump` in the library's default style, or the
     * same `json.dumps(indent=2)` when YAML is unavailable.
     */
    prettyPrintLegacy: Json -> string,
    /** Python's `repr` of a decoded value. */
    repr: Json -> string,
    /**
     * `isoformat(timespec='milliseconds')` of a UTC time given as whole milliseconds since the
     * epoch, without the `+00:00` offset suffix.
     */
    isoMillis: int -> string)

  /** `str(v)`: the text itself for a string, `repr(v)` for every other decoded value. */
  function Str(rt: Routines, v: Json): string
  {
    if v.JString? then v.s else rt.repr(v)
  }
}
