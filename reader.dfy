/**
 * Recognising log lines, decoding their JSON payloads and turning them into a stream of
 * records (`_matcher`, `ParseException`, `_parse_record` and `read_records`).
 */
module Reader {
  import opened Wrappers
  import opened Text
  import opened Numerals
  import opened Payload
  import opened Library
  import opened Streams

  /** The fixed part `20YY-MM-DDTHH:MM:SS.` of a leading ISO-8601 UTC time stamp. */
  predicate IsStampHead(s: string)
  {
    && |s| >= 20
    && s[0] == '2' && s[1] == '0' && IsDigit(s[2]) && IsDigit(s[3]) && s[4] == '-'
    && '0' <= s[5] <= '1' && IsDigit(s[6]) && s[7] == '-'
    && '0' <= s[8] <= '3' && IsDigit(s[9]) && s[10] == 'T'
    && '0' <= s[11] <= '2' && IsDigit(s[12]) && s[13] == ':'
    && '0' <= s[14] <= '5' && IsDigit(s[15]) && s[16] == ':'
    && '0' <= s[17] <= '6' && IsDigit(s[18]) && s[19] == '.'
  }

  /** A whole time stamp prefix: the fixed part, one or more fraction digits, then `Z `. */
  predicate IsStamp(p: string)
  {
    && |p| >= 23
    && IsStampHead(p)
    && (forall j | 20 <= j < |p| - 2 :: IsDigit(p[j]))
    && p[|p| - 2] == 'Z' && p[|p| - 1] == ' '
  }

  /** The number of digits in `s` from index `i` on. */
  function DigitRun(s: string, i: nat): (k: nat)
    requires i <= |s|
    ensures i + k <= |s|
    ensures forall j | i <= j < i + k :: IsDigit(s[j])
    ensures i + k < |s| ==> !IsDigit(s[i + k])
    decreases |s| - i
  {
    if i < |s| && IsDigit(s[i]) then 1 + DigitRun(s, i + 1) else 0
  }

  /** The length of the time stamp prefix of `line`, if it has one. */
  function StampLength(line: string): (n: Option<nat>)
    ensures n.Some? ==> n.value <= |line| && IsStamp(line[..n.value])
    ensures forall m | 0 <= m <= |line| && IsStamp(line[..m]) :: n == Some(m)
  {
    if !IsStampHead(line) then
      assert forall m | 0 <= m <= |line| :: !IsStamp(line[..m]) by {
        forall m | 0 <= m <= |line| ensures !IsStampHead(line[..m]) {
          StampHeadOfPrefix(line, m);
        }
      }
      None
    else
      var k := DigitRun(line, 20);
      StampUnique(line, k);
      if k >= 1 && 20 + k + 1 < |line| && line[20 + k] == 'Z' && line[21 + k] == ' ' then
        Some(22 + k)
      else
        None
  }

  lemma StampHeadOfPrefix(line: string, m: nat)
    requires m <= |line|
    ensures IsStampHead(line[..m]) ==> IsStampHead(line)
  {
    if m >= 20 {
      var p := line[..m];
      assert forall j | 0 <= j < 20 :: p[j] == line[j];
    }
  }

  /** A stamp prefix of `line` must end just after the run of fraction digits. */
  lemma StampUnique(line: string, k: nat)
    requires IsStampHead(line) && k == DigitRun(line, 20)
    ensures forall m | 0 <= m <= |line| && IsStamp(line[..m]) :: m == 22 + k && line[20 + k] == 'Z' && line[21 + k] == ' ' && k >= 1
  {
    forall m | 0 <= m <= |line| && IsStamp(line[..m])
      ensures m == 22 + k && line[20 + k] == 'Z' && line[21 + k] == ' ' && k >= 1
    {
      var p := line[..m];
      assert forall j | 20 <= j < m - 2 :: IsDigit(line[j]) by {
        forall j | 20 <= j < m - 2 ensures IsDigit(line[j]) {
          assert p[j] == line[j];
        }
      }
      assert line[m - 2] == p[m - 2] == 'Z';
      assert line[m - 1] == p[m - 1] == ' ';
      DigitRunStops(line, 20, m - 2);
    }
  }

  /** A run of digits ends at the first non-digit. */
  lemma {:induction false} DigitRunStops(s: string, i: nat, e: nat)
    requires i <= e < |s| && !IsDigit(s[e])
    requires forall j | i <= j < e :: IsDigit(s[j])
    ensures DigitRun(s, i) == e - i
    decreases e - i
  {
    if i < e {
      DigitRunStops(s, i + 1, e);
    }
  }

  /** `(\{.*?\})\n`: a single-line `{...}` payload followed by the line's newline. */
  predicate IsBody(b: string)
  {
    && |b| >= 3
    && b[0] == '{' && b[|b| - 2] == '}' && b[|b| - 1] == '\n'
    && forall j | 0 <= j < |b| - 1 :: b[j] != '\n'
  }

  /** The whole of `line` matches with the payload starting at `start`. */
  predicate Matches(line: string, start: nat)
  {
    start <= |line| && (start == 0 || IsStamp(line[..start])) && IsBody(line[start..])
  }

  /** A time stamp starts with `2`. */
  lemma StampStart(line: string, n: nat)
    requires 0 < n <= |line|
    ensures IsStamp(line[..n]) ==> line[0] == '2'
  {
    assert line[..n][0] == line[0];
  }

  /**
   * `_matcher(line)`: where the payload starts, if the whole line matches. There is at most one
   * way to match, since a time stamp starts with `2` and a payload with `{`.
   */
  function Recognize(line: string): (r: Option<nat>)
    ensures r.None? <==> forall s | 0 <= s <= |line| :: !Matches(line, s)
    ensures r.Some? ==> Matches(line, r.value)
    ensures forall s | 0 <= s <= |line| && Matches(line, s) :: r == Some(s)
  {
    var stamp := StampLength(line);
    assert forall s | 0 < s <= |line| && Matches(line, s) :: stamp == Some(s);
    if stamp.Some? && IsBody(line[stamp.value..]) then
      assert Matches(line, stamp.value);
      assert !IsBody(line) by {
        assert line[..stamp.value][0] == '2';
      }
      Some(stamp.value)
    else if IsBody(line) then
      assert line[0..] == line;
      assert Matches(line, 0);
      assert forall s | 0 < s <= |line| :: !Matches(line, s) by {
        forall s | 0 < s <= |line| ensures !IsStamp(line[..s]) {
          StampStart(line, s);
        }
      }
      Some(0)
    else
      assert line[0..] == line;
      None
  }

  /** `match.group(1)`: the payload text, without the time stamp and the newline. */
  function PayloadText(line: string, start: nat): (t: string)
    requires Matches(line, start)
    ensures |t| >= 2 && t[0] == '{' && t[|t| - 1] == '}' && '\n' !in t
  {
    line[start..|line| - 1]
  }

  /** The line is the time stamp prefix, then the payload text, then the newline. */
  lemma PayloadTextFrame(line: string, start: nat)
    requires Matches(line, start)
    ensures line == line[..start] + PayloadText(line, start) + "\n"
  {
    assert line == line[..start] + line[start..|line| - 1] + line[|line| - 1..];
  }

  /** The error raised for a payload that does not decode. */
  datatype ParseException = ParseException(errMsg: string, lineno: Option<int>, column: int, line: string)

  /** The exception's message. */
  function ExceptionMessage(e: ParseException): (msg: string)
    ensures "Record parse error: " + e.errMsg <= msg
    ensures |e.line| <= |msg| && msg[|msg| - |e.line|..] == e.line
  {
    var ln := if e.lineno.Some? then "line " + Decimal(e.lineno.value) + ", " else "";
    var head := "Record parse error: " + e.errMsg;
    var position := " (at " + ln + "column " + Decimal(e.column) + "): ";
    Framed(head, position, e.line);
    head + position + e.line
  }

  /** The first and the last of three pieces are a prefix and a suffix of the whole. */
  lemma Framed(a: string, b: string, c: string)
    ensures a <= a + b + c
    ensures |c| <= |a + b + c| && (a + b + c)[|a + b + c| - |c|..] == c
  {
    assert (a + b + c)[..|a|] == a;
  }

  /**
   * `_parse_record((i, _matcher(line)))`: nothing for a line that does not match, the decoded
   * field map for one that does, and a `ParseException` naming the line's index and the
   * error's column within the whole line for a payload that does not decode.
   */
  function ParseRecord(rt: Routines, i: nat, line: string): (r: Result<Option<FieldMap>, ParseException>)
    ensures r.Ok? && r.value.None? <==> Recognize(line).None?
  {
    match Recognize(line)
    case None => Ok(None)
    case Some(start) =>
      match rt.loads(PayloadText(line, start))
      case Object(m) => Ok(Some(m))
      case Malformed(msg, colno) => Err(ParseException(msg, Some(i), colno + start, line))
  }

  /**
   * A line that matches with its payload at `start` gives the payload's field map when it
   * decodes, and otherwise the decoder's message with the line's index and the column counted
   * from the start of the whole line.
   */
  lemma ParseMatched(rt: Routines, i: nat, line: string, start: nat)
    requires Recognize(line) == Some(start)
    ensures var d := rt.loads(PayloadText(line, start));
      var r := ParseRecord(rt, i, line);
      && (d.Object? ==> r.Ok? && r.value == Some(d.fields))
      && (d.Malformed? ==> r.Err? && r.error == ParseException(d.msg, Some(i), d.colno + start, line))
  {
  }

  /** What ends the stream of records: a payload that does not decode, or a record that cannot be built. */
  datatype ReadError = ParseFailure(exc: ParseException) | FormatFailure(err: FormatError)

  /**
   * `read_records(lines)`, for records built by `build`: line by line, skipping lines that do
   * not match and stopping at the first error.
   */
  function ReadRecords<R>(rt: Routines, lines: seq<string>, build: FieldMap -> Result<R, FormatError>): Stream<R, ReadError>
  {
    ReadFrom(rt, lines, 0, build)
  }

  function ReadFrom<R>(rt: Routines, lines: seq<string>, i: nat, build: FieldMap -> Result<R, FormatError>): Stream<R, ReadError>
    requires i <= |lines|
    decreases |lines| - i
  {
    if i == |lines| then Stream([], None)
    else
      match ParseRecord(rt, i, lines[i])
      case Err(e) => Stream([], Some(ParseFailure(e)))
      case Ok(None) => ReadFrom(rt, lines, i + 1, build)
      case Ok(Some(m)) =>
        match build(m)
        case Err(e) => Stream([], Some(FormatFailure(e)))
        case Ok(rec) => Prepend(rec, ReadFrom(rt, lines, i + 1, build))
  }

  /** The indices, from `i` on, of the lines that match. */
  function MatchingLines(lines: seq<string>, i: nat): (ix: seq<nat>)
    requires i <= |lines|
    ensures forall k | 0 <= k < |ix| :: i <= ix[k] < |lines| && Recognize(lines[ix[k]]).Some?
    ensures forall k, l | 0 <= k < l < |ix| :: ix[k] < ix[l]
    ensures forall j | i <= j < |lines| && Recognize(lines[j]).Some? :: j in ix
    decreases |lines| - i
  {
    if i == |lines| then []
    else if Recognize(lines[i]).Some? then [i] + MatchingLines(lines, i + 1)
    else MatchingLines(lines, i + 1)
  }

  /** The matching line at index `j` decodes to a field map from which `build` makes `rec`. */
  ghost predicate Yields<R>(rt: Routines, lines: seq<string>, j: nat, build: FieldMap -> Result<R, FormatError>, rec: R)
    requires j < |lines|
  {
    var r := ParseRecord(rt, j, lines[j]);
    r.Ok? && r.value.Some? && build(r.value.value) == Ok(rec)
  }

  /** The matching line at index `j` raises `e`, during decoding or construction. */
  predicate Raises<R>(rt: Routines, lines: seq<string>, j: nat, build: FieldMap -> Result<R, FormatError>, e: ReadError)
    requires j < |lines|
  {
    match ParseRecord(rt, j, lines[j])
    case Err(exc) => e == ParseFailure(exc)
    case Ok(None) => false
    case Ok(Some(m)) => build(m).Err? && e == FormatFailure(build(m).error)
  }

  /**
   * `s` is what the lines at the indices `ix` produce: one record per index, in order, up to
   * the first index whose line raises; that line's error ends the stream. Without such a line
   * the stream ends normally after a record for every index.
   */
  ghost predicate Faithful<R>(s: Stream<R, ReadError>, ix: seq<nat>, makes: (nat, R) -> bool, ends: (nat, ReadError) -> bool)
  {
    && |s.items| <= |ix|
    && (forall k | 0 <= k < |s.items| :: makes(ix[k], s.items[k]))
    && (s.failure.None? ==> |s.items| == |ix|)
    && (s.failure.Some? ==> |s.items| < |ix| && ends(ix[|s.items|], s.failure.value))
  }

  ghost function MakesAt<R>(rt: Routines, lines: seq<string>, build: FieldMap -> Result<R, FormatError>): (nat, R) -> bool
  {
    (j: nat, rec: R) => j < |lines| && Yields(rt, lines, j, build, rec)
  }

  ghost function EndsAt<R>(rt: Routines, lines: seq<string>, build: FieldMap -> Result<R, FormatError>): (nat, ReadError) -> bool
  {
    (j: nat, e: ReadError) => j < |lines| && Raises(rt, lines, j, build, e)
  }

  lemma {:induction false} ReadFromSpec<R>(rt: Routines, lines: seq<string>, i: nat, build: FieldMap -> Result<R, FormatError>)
    requires i <= |lines|
    ensures Faithful(ReadFrom(rt, lines, i, build), MatchingLines(lines, i), MakesAt(rt, lines, build), EndsAt(rt, lines, build))
    decreases |lines| - i
  {
    if i < |lines| {
      ReadFromSpec(rt, lines, i + 1, build);
      ReadFromStep(rt, lines, i, build);
      var s := ReadFrom(rt, lines, i, build);
      FaithfulStep(s, ReadFrom(rt, lines, i + 1, build), i, MatchingLines(lines, i), MatchingLines(lines, i + 1),
                   Recognize(lines[i]).None?, MakesAt(rt, lines, build), EndsAt(rt, lines, build));
    }
  }

  /** One step of the reader: a line is skipped, raises, or yields one record before the rest. */
  lemma ReadFromStep<R>(rt: Routines, lines: seq<string>, i: nat, build: FieldMap -> Result<R, FormatError>)
    requires i < |lines|
    ensures var s := ReadFrom(rt, lines, i, build); var rest := ReadFrom(rt, lines, i + 1, build);
      var skipped := Recognize(lines[i]).None?;
      && (skipped ==> s == rest && MatchingLines(lines, i) == MatchingLines(lines, i + 1))
      && (!skipped ==> MatchingLines(lines, i) == [i] + MatchingLines(lines, i + 1))
      && (!skipped && s.items == [] ==> s.failure.Some? && Raises(rt, lines, i, build, s.failure.value))
      && (!skipped && s.items != [] ==> s == Prepend(s.items[0], rest) && Yields(rt, lines, i, build, s.items[0]))
  {
    match ParseRecord(rt, i, lines[i])
    case Err(e) =>
    case Ok(None) =>
    case Ok(Some(m)) =>
  }

  /** A line that is skipped leaves the stream as it was; one that matches raises or adds its record. */
  lemma FaithfulStep<R>(s: Stream<R, ReadError>, rest: Stream<R, ReadError>, i: nat, ix: seq<nat>, ixRest: seq<nat>,
                        skipped: bool, makes: (nat, R) -> bool, ends: (nat, ReadError) -> bool)
    requires Faithful(rest, ixRest, makes, ends)
    requires skipped ==> s == rest && ix == ixRest
    requires !skipped ==> ix == [i] + ixRest
    requires !skipped && s.items == [] ==> s.failure.Some? && ends(i, s.failure.value)
    requires !skipped && s.items != [] ==> s == Prepend(s.items[0], rest) && makes(i, s.items[0])
    ensures Faithful(s, ix, makes, ends)
  {
    if !skipped {
      if s.items == [] {
        FaithfulStop(s, ix, makes, ends);
      } else {
        FaithfulCons(s.items[0], rest, i, ixRest, makes, ends);
      }
    }
  }

  lemma FaithfulStop<R>(s: Stream<R, ReadError>, ix: seq<nat>, makes: (nat, R) -> bool, ends: (nat, ReadError) -> bool)
    requires s.items == [] && s.failure.Some? && ix != [] && ends(ix[0], s.failure.value)
    ensures Faithful(s, ix, makes, ends)
  {
  }

  lemma FaithfulCons<R>(rec: R, rest: Stream<R, ReadError>, i: nat, ixRest: seq<nat>,
                        makes: (nat, R) -> bool, ends: (nat, ReadError) -> bool)
    requires makes(i, rec)
    requires Faithful(rest, ixRest, makes, ends)
    ensures Faithful(Prepend(rec, rest), [i] + ixRest, makes, ends)
  {
    var s := Prepend(rec, rest);
    var ix := [i] + ixRest;
    forall k | 0 <= k < |s.items| ensures makes(ix[k], s.items[k]) {
      if k > 0 {
        assert ix[k] == ixRest[k - 1] && s.items[k] == rest.items[k - 1];
      }
    }
    if s.failure.Some? {
      assert ix[|s.items|] == ixRest[|rest.items|];
    }
  }

  /** The same for the whole input. */
  lemma ReadRecordsSpec<R>(rt: Routines, lines: seq<string>, build: FieldMap -> Result<R, FormatError>)
    ensures var s := ReadRecords(rt, lines, build); var ix := MatchingLines(lines, 0);
      && |s.items| <= |ix|
      && (forall k | 0 <= k < |s.items| :: Yields(rt, lines, ix[k], build, s.items[k]))
      && (s.failure.None? ==> |s.items| == |ix|)
      && (s.failure.Some? ==> |s.items| < |ix| && Raises(rt, lines, ix[|s.items|], build, s.failure.value))
  {
    ReadFromSpec(rt, lines, 0, build);
    var s := ReadRecords(rt, lines, build);
    var ix := MatchingLines(lines, 0);
    forall k | 0 <= k < |s.items| ensures Yields(rt, lines, ix[k], build, s.items[k]) {
    }
  }

  /** A line without a payload, or without its newline, produces nothing and raises nothing. */
  lemma SkippedLine(rt: Routines, i: nat, line: string)
    requires '{' !in line || line == [] || line[|line| - 1] != '\n'
    ensures ParseRecord(rt, i, line) == Ok(None)
  {
    RecognizedShape(line);
  }

  /** A line that matches holds a `{` and ends in a newline. */
  lemma RecognizedShape(line: string)
    ensures Recognize(line).Some? ==> '{' in line && line != [] && line[|line| - 1] == '\n'
  {
    if Recognize(line).Some? {
      var start := Recognize(line).value;
      assert line[start..][0] == line[start];
    }
  }


  /** A line made of a time stamp (or none), a payload and a newline matches with the payload after the stamp. */
  lemma RecognizeFramed(stamp: string, payload: string)
    requires stamp == [] || IsStamp(stamp)
    requires IsBody(payload + "\n")
    ensures Recognize(stamp + payload + "\n") == Some(|stamp|)
    ensures Matches(stamp + payload + "\n", |stamp|) && PayloadText(stamp + payload + "\n", |stamp|) == payload
  {
    var line := stamp + payload + "\n";
    assert line[..|stamp|] == stamp;
    assert line[|stamp|..] == payload + "\n";
    assert Matches(line, |stamp|);
  }
}
