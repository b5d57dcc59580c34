/**
 * `Record.format` of `bmo_log_parse.py`: the human-readable form of a record, optionally
 * coloured with terminal escape sequences.
 */
module RecordFormat {
  import opened Wrappers
  import opened Text
  import opened Payload
  import opened Library
  import opened Records

  /** The three colour sequences of a record: before the time, before the message, and closing. */
  datatype Escapes = Escapes(lead: string, message: string, close: string)

  /** Error records are red, others grey; without highlighting there are no sequences at all. */
  function EscapesOf(r: Record, highlight: bool): (esc: Escapes)
    ensures !highlight ==> esc == Escapes("", "", "")
    ensures highlight && IsError(r) ==> esc == Escapes(Sgr("91"), Sgr("31"), Sgr("39"))
    ensures highlight && !IsError(r) ==> esc == Escapes(Sgr("37"), Sgr("39"), Sgr("39"))
  {
    if highlight then Escapes(Sgr(LeadCode(r)), Sgr(MessageCode(r)), Sgr("39")) else Escapes("", "", "")
  }

  /** The colour of the time stamp and the residual fields: bright red for errors, else grey. */
  function LeadCode(r: Record): string
  {
    if IsError(r) then "91" else "37"
  }

  /** The colour of the message and the error: red for errors, else the default. */
  function MessageCode(r: Record): string
  {
    if IsError(r) then "31" else "39"
  }

  /** `f'{k}: {repr(v)}'` for each residual field, in order. */
  function ItemTexts(rt: Routines, data: seq<(string, Json)>): (items: seq<string>)
    ensures |items| == |data|
    ensures forall i | 0 <= i < |data| :: items[i] == data[i].0 + ": " + rt.repr(data[i].1)
  {
    if data == [] then [] else [data[0].0 + ": " + rt.repr(data[0].1)] + ItemTexts(rt, data[1..])
  }

  /** ` {k: v, ...}`: the residual fields in braces. */
  function DataBlock(rt: Routines, data: seq<(string, Json)>): string
  {
    " {" + Join(ItemTexts(rt, data), ", ") + "}"
  }

  /**
   * `extra_data` once the residual fields are placed: the block, coloured like the time stamp
   * when highlighting; with no fields only the closing sequence.
   */
  function DataText(rt: Routines, data: seq<(string, Json)>, esc: Escapes, highlight: bool): string
  {
    if data != [] then
      if highlight then esc.lead + DataBlock(rt, data) + esc.close else DataBlock(rt, data)
    else
      if highlight then esc.close else ""
  }

  /** The error on a line of its own, in the message colour. */
  function ErrorText(rt: Routines, error: Option<Json>, esc: Escapes): string
  {
    if error.Some? then "\n" + esc.message + Str(rt, error.value) + esc.close else ""
  }

  /** The context: as it is, or with each of its lines in dark grey when highlighting. */
  function ContextText(context: string, highlight: bool): string
  {
    if highlight then Join(Wrapped(SplitLines(context), "90", "39"), "\n") else context
  }

  /** The context on the lines after the rest. */
  function ContextPart(context: Option<string>, highlight: bool): string
  {
    if context.Some? then "\n" + ContextText(context.value, highlight) else ""
  }

  /**
   * `timestamp.isoformat(timespec='milliseconds')[:-6]`: the UTC time to the millisecond, with
   * the six characters of its `+00:00` offset cut off.
   */
  function TimestampText(rt: Routines, micros: int): string
  {
    var aware := rt.isoMillis(micros / 1000) + "+00:00";
    aware[..|aware| - 6]
  }

  /** `Record.format(highlight)` of a record whose context can be shown. */
  function Format(rt: Routines, r: Record, highlight: bool): string
    requires Showable(r.context)
  {
    var esc := EscapesOf(r, highlight);
    esc.lead + TimestampText(rt, r.timestamp) + " " + esc.message + Str(rt, r.message)
      + DataText(rt, r.data, esc, highlight) + ErrorText(rt, r.error, esc) + ContextPart(ContextString(r.context), highlight)
  }

  /**
   * `Record.format(highlight)` of any record: a context that is not text can neither be split
   * into lines nor joined to the rest, so formatting raises.
   */
  function Render(rt: Routines, r: Record, highlight: bool): Result<string, FormatError>
  {
    if Showable(r.context) then Ok(Format(rt, r, highlight)) else Err(NotAString(r.context.value))
  }

  /** The time stamp carries no offset and is the same for every time within one millisecond. */
  lemma TimestampMillis(rt: Routines, us1: int, us2: int)
    ensures TimestampText(rt, us1) == rt.isoMillis(us1 / 1000)
    ensures us1 / 1000 == us2 / 1000 ==> TimestampText(rt, us1) == TimestampText(rt, us2)
  {
    var aware := rt.isoMillis(us1 / 1000) + "+00:00";
    assert aware[..|aware| - 6] == rt.isoMillis(us1 / 1000);
  }

  /** Every record's text starts with its time stamp and message, after their colours. */
  lemma FormatStart(rt: Routines, r: Record, highlight: bool)
    requires Showable(r.context)
    ensures var esc := EscapesOf(r, highlight);
      esc.lead + rt.isoMillis(r.timestamp / 1000) + " " + esc.message + Str(rt, r.message) <= Format(rt, r, highlight)
  {
    TimestampMillis(rt, r.timestamp, r.timestamp);
  }

  /**
   * Without highlighting the record is one line `<time> <message> {<fields>}` when it has no
   * error and no context, and the braces appear exactly when there are residual fields.
   */
  lemma PlainShape(rt: Routines, r: Record)
    requires r.error.None? && r.context.None?
    ensures r.data == [] ==> Format(rt, r, false) == rt.isoMillis(r.timestamp / 1000) + " " + Str(rt, r.message)
    ensures r.data != [] ==>
      Format(rt, r, false) == rt.isoMillis(r.timestamp / 1000) + " " + Str(rt, r.message) + " {" + Join(ItemTexts(rt, r.data), ", ") + "}"
  {
    TimestampMillis(rt, r.timestamp, r.timestamp);
  }

  /**
   * Highlighting only adds colour: a reader who ignores the colour sequences sees the plain text,
   * as long as the plain text has no escape characters of its own and the context's lines end
   * in `\n` alone (highlighting re-joins the lines of the context).
   */
  lemma StripHighlight(rt: Routines, r: Record)
    requires Showable(r.context) && Esc !in Format(rt, r, false)
    requires r.context.Some? ==> PlainLines(r.context.value.s)
    ensures StripColour(Format(rt, r, true)) == Format(rt, r, false)
  {
    var esc, plain := EscapesOf(r, true), EscapesOf(r, false);
    var ts, msg := TimestampText(rt, r.timestamp), Str(rt, r.message);
    var d, e, x := DataText(rt, r.data, esc, true), ErrorText(rt, r.error, esc), ContextPart(ContextString(r.context), true);
    var d', e', x' := DataText(rt, r.data, plain, false), ErrorText(rt, r.error, plain), ContextPart(ContextString(r.context), false);
    var lead, code := LeadCode(r), MessageCode(r);
    assert Format(rt, r, true) == Sgr(lead) + ts + " " + Sgr(code) + msg + d + e + x;
    PlainFormat(rt, r);
    PlainPieces(ts + " " + msg, d', e', x');
    assert Esc !in ts && Esc !in msg;
    StripContextPart(ContextString(r.context));
    StripErrorText(rt, r, x);
    StripDataText(rt, r, e + x);
    StripChain(lead, code, ts, msg, d, e, x, d', e', x');
  }

  /** Without highlighting the colour sequences are empty. */
  lemma PlainFormat(rt: Routines, r: Record)
    requires Showable(r.context)
    ensures var plain := EscapesOf(r, false);
      Format(rt, r, false) == TimestampText(rt, r.timestamp) + " " + Str(rt, r.message)
        + DataText(rt, r.data, plain, false) + ErrorText(rt, r.error, plain) + ContextPart(ContextString(r.context), false)
  {
    var ts := TimestampText(rt, r.timestamp);
    assert "" + ts == ts;
    assert ts + " " + "" == ts + " ";
  }

  /** Text without escape characters is made of pieces without them. */
  lemma PlainPieces(a: string, d: string, e: string, x: string)
    requires Esc !in a + d + e + x
    ensures Esc !in a && Esc !in d && Esc !in e && Esc !in x
  {
  }

  /** The colours of the time stamp and message disappear, and the pieces after them lose theirs. */
  lemma StripChain(lead: string, code: string, ts: string, msg: string, d: string, e: string, x: string, d': string, e': string, x': string)
    requires IsColourCode(lead) && IsColourCode(code) && Esc !in ts && Esc !in msg
    requires StripColour(d + (e + x)) == d' + StripColour(e + x)
    requires StripColour(e + x) == e' + StripColour(x)
    requires StripColour(x) == x'
    ensures StripColour(Sgr(lead) + ts + " " + Sgr(code) + msg + d + e + x) == ts + " " + msg + d' + e' + x'
  {
    var head := Sgr(lead) + ts + " " + Sgr(code) + msg;
    Assoc3(head, d, e, x);
    StripHead(lead, code, ts, msg, d + (e + x));
    var plainHead := ts + " " + msg;
    Assoc3(plainHead, d', e', x');
  }

  /** `((a + b) + c) + d == a + (b + (c + d))`. */
  lemma Assoc3(a: string, b: string, c: string, d: string)
    ensures a + b + c + d == a + (b + (c + d))
  {
  }

  /** The time stamp and message lose their colours. */
  lemma StripHead(lead: string, code: string, ts: string, msg: string, tail: string)
    requires IsColourCode(lead) && IsColourCode(code) && Esc !in ts && Esc !in msg
    ensures StripColour(Sgr(lead) + ts + " " + Sgr(code) + msg + tail) == ts + " " + msg + StripColour(tail)
  {
    assert Sgr(lead) + ts + " " + Sgr(code) + msg + tail == Sgr(lead) + ((ts + " ") + (Sgr(code) + (msg + tail)));
    StripColourPrefix(lead, (ts + " ") + (Sgr(code) + (msg + tail)));
    StripPlainPrefix(ts + " ", Sgr(code) + (msg + tail));
    StripColourPrefix(code, msg + tail);
    StripPlainPrefix(msg, tail);
    assert (ts + " ") + (msg + StripColour(tail)) == ts + " " + msg + StripColour(tail);
  }

  /** The residual fields lose their colours and nothing else. */
  lemma StripDataText(rt: Routines, r: Record, rest: string)
    requires Esc !in DataText(rt, r.data, EscapesOf(r, false), false)
    ensures StripColour(DataText(rt, r.data, EscapesOf(r, true), true) + rest)
            == DataText(rt, r.data, EscapesOf(r, false), false) + StripColour(rest)
  {
    var esc := EscapesOf(r, true);
    var lead := if IsError(r) then "91" else "37";
    if r.data != [] {
      var block := DataBlock(rt, r.data);
      assert DataText(rt, r.data, esc, true) + rest == Sgr(lead) + (block + (Sgr("39") + rest));
      StripUnwrap(lead, block, "39", rest);
    } else {
      StripColourPrefix("39", rest);
    }
  }

  /** The error line loses its colours and nothing else. */
  lemma StripErrorText(rt: Routines, r: Record, rest: string)
    requires Esc !in ErrorText(rt, r.error, EscapesOf(r, false))
    ensures StripColour(ErrorText(rt, r.error, EscapesOf(r, true)) + rest)
            == ErrorText(rt, r.error, EscapesOf(r, false)) + StripColour(rest)
  {
    if r.error.Some? {
      var code := if IsError(r) then "31" else "39";
      var t := Str(rt, r.error.value);
      assert ErrorText(rt, r.error, EscapesOf(r, false)) == "\n" + t;
      assert ErrorText(rt, r.error, EscapesOf(r, true)) == "\n" + Sgr(code) + t + Sgr("39");
      StripLine(code, t, rest);
    } else {
      assert ErrorText(rt, r.error, EscapesOf(r, true)) + rest == rest;
    }
  }

  /** A line in one colour, closed by another, loses both. */
  lemma StripLine(code: string, t: string, rest: string)
    requires IsColourCode(code) && Esc !in t
    ensures StripColour("\n" + Sgr(code) + t + Sgr("39") + rest) == "\n" + t + StripColour(rest)
  {
    assert "\n" + Sgr(code) + t + Sgr("39") + rest == "\n" + (Sgr(code) + (t + (Sgr("39") + rest)));
    StripPlainPrefix("\n", Sgr(code) + (t + (Sgr("39") + rest)));
    StripUnwrap(code, t, "39", rest);
  }

  /** The context loses the colours of its lines and nothing else. */
  lemma StripContextPart(context: Option<string>)
    requires Esc !in ContextPart(context, false)
    requires context.Some? ==> PlainLines(context.value)
    ensures StripColour(ContextPart(context, true)) == ContextPart(context, false)
  {
    if context.Some? {
      var c := context.value;
      var lines := SplitLines(c);
      assert Esc !in c;
      SplitLinesChars(c, Esc);
      StripWrappedLines(lines, "90", "39", "");
      JoinSplitLines(c);
      var joined := Join(Wrapped(lines, "90", "39"), "\n");
      assert joined + "" == joined;
      StripPlainPrefix("\n", joined);
    }
  }

  /**
   * Every highlighted record leaves the terminal in its default colour: whatever the record
   * holds, the last colour sequence of its text is `ESC[39m`.
   */
  lemma HighlightResets(rt: Routines, r: Record)
    requires Showable(r.context)
    ensures LastColour(Format(rt, r, true)) == Some("39")
  {
    var esc := EscapesOf(r, true);
    var head := esc.lead + TimestampText(rt, r.timestamp) + " " + esc.message + Str(rt, r.message);
    var d, e, x := DataText(rt, r.data, esc, true), ErrorText(rt, r.error, esc), ContextPart(ContextString(r.context), true);
    var reset := Sgr("39");
    assert Format(rt, r, true) == head + d + e + x;
    if r.context.Some? && SplitLines(r.context.value.s) != [] {
      ContextEndsWithReset(r.context.value.s);
      EndsWithAfter(head + d + e, x, reset);
      LastColourEndsWith(Format(rt, r, true), "39", "");
    } else {
      assert x == "" || x == "\n";
      assert EndsWith(reset, reset);
      if r.data != [] {
        EndsWithAfter(esc.lead + DataBlock(rt, r.data), reset, reset);
      }
      if r.error.Some? {
        EndsWithAfter("\n" + esc.message + Str(rt, r.error.value), reset, reset);
        EndsWithAfter(head + d, e, reset);
      } else {
        EndsWithAfter(head, d, reset);
        assert head + d + e == head + d;
      }
      EndsWithSuffix(head + d + e, reset, x);
      LastColourEndsWith(Format(rt, r, true), "39", x);
    }
  }

  /** A highlighted context with at least one line ends in the default colour. */
  lemma ContextEndsWithReset(context: string)
    requires SplitLines(context) != []
    ensures EndsWith(ContextPart(Some(context), true), Sgr("39"))
  {
    var plain := SplitLines(context);
    var lines := Wrapped(plain, "90", "39");
    assert lines[|lines| - 1] == Sgr("90") + plain[|plain| - 1] + Sgr("39");
    assert EndsWith(Sgr("39"), Sgr("39"));
    EndsWithAfter(Sgr("90") + plain[|plain| - 1], Sgr("39"), Sgr("39"));
    JoinEndsWith(lines, "\n", Sgr("39"));
    EndsWithAfter("\n", Join(lines, "\n"), Sgr("39"));
  }

  /** Appending text to something ending in `t` gives something ending in `t` and that text. */
  lemma EndsWithSuffix(s: string, t: string, u: string)
    requires EndsWith(s, t)
    ensures EndsWith(s + u, t + u)
  {
    assert (s + u)[|s + u| - |t + u|..] == s[|s| - |t|..] + u;
  }
}
