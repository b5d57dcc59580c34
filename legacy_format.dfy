/**
 * `Record.format` of the older script `bmo-log-parse.py`: the time stamp, the message, the
 * residual fields and the context, with colours only for error records and for the lines
 * of the context.
 */
module LegacyFormat {
  import opened Wrappers
  import opened Text
  import opened Payload
  import opened Library
  import opened LegacyRecords
  import Records
  import RecordFormat

  /** `esc`: bright red and the reset for a highlighted error record, nothing otherwise. */
  function EscapesOf(r: LegacyRecord, highlight: bool): (esc: (string, string))
    ensures esc.0 == "" <==> esc.1 == ""
    ensures esc.0 != "" <==> highlight && IsError(r)
  {
    if highlight && IsError(r) then (Sgr("91"), Sgr("39")) else ("", "")
  }

  /** `extra_data` once the residual fields are placed: the block followed by the reset, if any fields. */
  function DataText(rt: Routines, data: seq<(string, Json)>, close: string): string
  {
    if data != [] then RecordFormat.DataBlock(rt, data) + close else ""
  }

  /** `Record.format(highlight)` of the older script. */
  function Format(rt: Routines, r: LegacyRecord, highlight: bool): string
    requires Records.Showable(r.context)
  {
    var esc := EscapesOf(r, highlight);
    esc.0 + RecordFormat.TimestampText(rt, r.timestamp) + " " + Str(rt, r.message)
      + DataText(rt, r.data, esc.1) + RecordFormat.ContextPart(Records.ContextString(r.context), highlight)
  }

  /**
   * `Record.format(highlight)` of the older script for any record: a context that is not text
   * makes it raise.
   */
  function Render(rt: Routines, r: LegacyRecord, highlight: bool): Result<string, FormatError>
  {
    if Records.Showable(r.context) then Ok(Format(rt, r, highlight)) else Err(NotAString(r.context.value))
  }

  /** The record as the current module would hold it: no namespace and no separate error. */
  function AsCurrent(r: LegacyRecord): Records.Record
  {
    Records.Record(r.level, r.timestamp, r.logger, r.message, r.context, r.name, None, None, r.data)
  }

  /** Without highlighting the older script writes what the current module writes for the same fields. */
  lemma PlainMatchesCurrent(rt: Routines, r: LegacyRecord)
    requires Records.Showable(r.context)
    ensures Format(rt, r, false) == RecordFormat.Format(rt, AsCurrent(r), false)
  {
    var s := AsCurrent(r);
    var h, d := Head(rt, r), DataText(rt, r.data, "");
    var x := RecordFormat.ContextPart(Records.ContextString(r.context), false);
    assert Format(rt, r, false) == h + d + x by {
      Pieces(rt, r, false);
      assert "" + (h + (d + x)) == h + d + x;
    }
    assert RecordFormat.Format(rt, s, false) == h + d + x by {
      var plain := RecordFormat.EscapesOf(s, false);
      RecordFormat.PlainFormat(rt, s);
      assert RecordFormat.DataText(rt, s.data, plain, false) == d;
      assert RecordFormat.ErrorText(rt, s.error, plain) == "";
      assert h + d + "" + x == h + d + x;
    }
  }

  /** Highlighting leaves a record that is not an error as it is, except for its context lines. */
  lemma HighlightOnlyErrors(rt: Routines, r: LegacyRecord)
    requires !IsError(r) && Records.Showable(r.context)
    ensures r.context.None? ==> Format(rt, r, true) == Format(rt, r, false)
    ensures var plain := Format(rt, r, false);
      var cut := |plain| - |RecordFormat.ContextPart(Records.ContextString(r.context), false)|;
      0 <= cut <= |plain| && Format(rt, r, true) == plain[..cut] + RecordFormat.ContextPart(Records.ContextString(r.context), true)
  {
    var t := Records.ContextString(r.context);
    UncolouredPieces(rt, r, true);
    UncolouredPieces(rt, r, false);
    ReplaceTail(Head(rt, r) + DataText(rt, r.data, ""), RecordFormat.ContextPart(t, false), RecordFormat.ContextPart(t, true));
  }

  /**
   * Removing the colour sequences from the highlighted text gives the plain text, as long as
   * the plain text has no escape characters of its own and the context's lines end in `\n`
   * alone.
   */
  lemma StripHighlight(rt: Routines, r: LegacyRecord)
    requires Records.Showable(r.context) && Esc !in Format(rt, r, false)
    requires r.context.Some? ==> PlainLines(r.context.value.s)
    ensures StripColour(Format(rt, r, true)) == Format(rt, r, false)
  {
    var esc := EscapesOf(r, true);
    var head := Head(rt, r);
    var d, x := DataText(rt, r.data, esc.1), RecordFormat.ContextPart(Records.ContextString(r.context), true);
    var d', x' := DataText(rt, r.data, ""), RecordFormat.ContextPart(Records.ContextString(r.context), false);
    Pieces(rt, r, false);
    Pieces(rt, r, true);
    PlainParts(head, d', x');
    RecordFormat.StripContextPart(Records.ContextString(r.context));
    StripDataText(rt, r.data, esc.1, x);
    StripPieces(esc.0, head, d, x, d', x');
  }

  /** A record that is not an error has no colour outside its context lines. */
  lemma UncolouredPieces(rt: Routines, r: LegacyRecord, highlight: bool)
    requires !IsError(r) && Records.Showable(r.context)
    ensures Format(rt, r, highlight)
      == Head(rt, r) + DataText(rt, r.data, "") + RecordFormat.ContextPart(Records.ContextString(r.context), highlight)
  {
    var head, d := Head(rt, r), DataText(rt, r.data, "");
    var x := RecordFormat.ContextPart(Records.ContextString(r.context), highlight);
    Pieces(rt, r, highlight);
    assert "" + (head + (d + x)) == head + d + x;
  }

  /** Cutting the tail `x'` off `h + x'` and putting `x` in its place gives `h + x`. */
  lemma ReplaceTail(h: string, x': string, x: string)
    ensures var cut := |h + x'| - |x'|; 0 <= cut <= |h + x'| && (h + x')[..cut] + x == h + x
  {
    assert (h + x')[..|h|] == h;
  }

  /** The time stamp and the message. */
  function Head(rt: Routines, r: LegacyRecord): string
  {
    RecordFormat.TimestampText(rt, r.timestamp) + " " + Str(rt, r.message)
  }

  /** The text as its leading colour, the head, the residual fields and the context. */
  lemma Pieces(rt: Routines, r: LegacyRecord, highlight: bool)
    requires Records.Showable(r.context)
    ensures var esc := EscapesOf(r, highlight);
      Format(rt, r, highlight)
      == esc.0 + (Head(rt, r) + (DataText(rt, r.data, esc.1) + RecordFormat.ContextPart(Records.ContextString(r.context), highlight)))
  {
  }

  /** Text without escape characters is made of pieces without them. */
  lemma PlainParts(h: string, d: string, x: string)
    requires Esc !in "" + (h + (d + x))
    ensures Esc !in h && Esc !in d && Esc !in x
  {
    assert "" + (h + (d + x)) == h + d + x;
  }

  /** The leading colour disappears and the pieces after it lose theirs. */
  lemma StripPieces(lead: string, h: string, d: string, x: string, d': string, x': string)
    requires lead == "" || lead == Sgr("91")
    requires Esc !in h && StripColour(d + x) == d' + StripColour(x) && StripColour(x) == x'
    ensures StripColour(lead + (h + (d + x))) == "" + (h + (d' + x'))
  {
    StripPlainPrefix(h, d + x);
    if lead != "" {
      StripColourPrefix("91", h + (d + x));
    } else {
      assert lead + (h + (d + x)) == h + (d + x);
    }
  }

  /** The residual fields lose their reset and nothing else. */
  lemma StripDataText(rt: Routines, data: seq<(string, Json)>, close: string, rest: string)
    requires close == "" || close == Sgr("39")
    requires Esc !in DataText(rt, data, "")
    ensures StripColour(DataText(rt, data, close) + rest) == DataText(rt, data, "") + StripColour(rest)
  {
    if data != [] {
      var block := RecordFormat.DataBlock(rt, data);
      assert block + "" == block;
      assert DataText(rt, data, close) + rest == block + (close + rest);
      StripPlainPrefix(block, close + rest);
      if close != "" {
        StripColourPrefix("39", rest);
      } else {
        assert close + rest == rest;
      }
    } else {
      assert DataText(rt, data, close) + rest == rest;
    }
  }

  /**
   * A highlighted error record with no residual fields and no context never resets its colour:
   * the terminal is left bright red, and so is every record written after it until a reset.
   */
  lemma UnclosedHighlight(rt: Routines, r: LegacyRecord)
    requires IsError(r) && r.data == [] && r.context.None?
    requires Esc !in RecordFormat.TimestampText(rt, r.timestamp) + " " + Str(rt, r.message)
    ensures LastColour(Format(rt, r, true)) == Some("91")
  {
    var t := RecordFormat.TimestampText(rt, r.timestamp) + " " + Str(rt, r.message);
    assert Format(rt, r, true) == [] + Sgr("91") + t;
    LastColourAtEnd([], "91", t);
  }

  /** `extra_data` with the reset also when there are no residual fields, as the current module writes it. */
  function ClosedDataText(rt: Routines, data: seq<(string, Json)>, close: string): string
  {
    if data != [] then RecordFormat.DataBlock(rt, data) + close else close
  }

  /** `Record.format(highlight)` of the older script with the reset written for every highlighted error record. */
  function FixedFormat(rt: Routines, r: LegacyRecord, highlight: bool): string
    requires Records.Showable(r.context)
  {
    var esc := EscapesOf(r, highlight);
    esc.0 + RecordFormat.TimestampText(rt, r.timestamp) + " " + Str(rt, r.message)
      + ClosedDataText(rt, r.data, esc.1) + RecordFormat.ContextPart(Records.ContextString(r.context), highlight)
  }

  /** The correction changes exactly the records the defect affects: highlighted errors with no fields. */
  lemma FixOnlyTouchesDefect(rt: Routines, r: LegacyRecord, highlight: bool)
    requires Records.Showable(r.context)
    ensures FixedFormat(rt, r, highlight) == Format(rt, r, highlight) <==> !(highlight && IsError(r) && r.data == [])
  {
    if highlight && IsError(r) && r.data == [] {
      assert |FixedFormat(rt, r, highlight)| == |Format(rt, r, highlight)| + 5;
    }
  }

  /** With the correction every highlighted error record leaves the terminal in its default colour. */
  lemma FixedHighlightResets(rt: Routines, r: LegacyRecord)
    requires IsError(r) && Records.Showable(r.context)
    ensures LastColour(FixedFormat(rt, r, true)) == Some("39")
  {
    var reset := Sgr("39");
    var head := Sgr("91") + RecordFormat.TimestampText(rt, r.timestamp) + " " + Str(rt, r.message);
    var d, x := ClosedDataText(rt, r.data, reset), RecordFormat.ContextPart(Records.ContextString(r.context), true);
    assert FixedFormat(rt, r, true) == head + d + x;
    if r.context.Some? && SplitLines(r.context.value.s) != [] {
      RecordFormat.ContextEndsWithReset(r.context.value.s);
      EndsWithAfter(head + d, x, reset);
      LastColourEndsWith(FixedFormat(rt, r, true), "39", "");
    } else {
      assert x == "" || x == "\n";
      assert EndsWith(reset, reset);
      if r.data != [] {
        EndsWithAfter(RecordFormat.DataBlock(rt, r.data), reset, reset);
      }
      EndsWithAfter(head, d, reset);
      RecordFormat.EndsWithSuffix(head + d, reset, x);
      LastColourEndsWith(FixedFormat(rt, r, true), "39", x);
    }
  }
}
