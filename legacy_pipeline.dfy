/**
 * The filter pipeline of the older script `bmo-log-parse.py`: the same composition as the
 * current module over the older records, with no namespace filter, and the formatted output.
 */
module LegacyPipeline {
  import opened Wrappers
  import opened Seqs
  import opened Payload
  import opened Library
  import opened Loggers
  import opened Streams
  import opened Selection
  import opened Reader
  import opened LegacyRecords
  import opened LegacyFormat
  import Records
  import Pipeline

  /** The options the older `get_filters` reads. */
  datatype Options = Options(
    start: Option<Pipeline.DateTime>,
    error: bool,
    controllerOnly: bool,
    provisionerOnly: bool,
    name: Option<string>,
    end: Option<Pipeline.DateTime>)

  /** The predicate of one filter, with the value it captured. */
  datatype Test =
    | Before(t: int)           // `r.timestamp < start_time`
    | ErrorsOnly               // `r.level == ERROR`
    | ControllersOnly          // `r.logger in CONTROLLER`
    | ProvisionersOnly         // `r.logger in PROVISIONER`
    | NameIs(name: string)     // `r.name == name`
    | NotAfter(t: int)         // `r.timestamp <= end_time`

  function Timestamp(r: LegacyRecord): int
  {
    r.timestamp
  }

  /** Whether a record passes a filter's predicate. */
  predicate Holds(test: Test, r: LegacyRecord)
  {
    match test
    case Before(t) => r.timestamp < t
    case ErrorsOnly => IsError(r)
    case ControllersOnly => r.logger in ControllerLoggers
    case ProvisionersOnly => r.logger in ProvisionerLoggers
    case NameIs(n) => r.name == Some(n)
    case NotAfter(t) => r.timestamp <= t
  }

  /** A filter: the iterator function and its predicate. */
  type Filter = (Kind, Test)

  /** The position of each kind of filter in the fixed order. */
  function Rank(test: Test): nat
  {
    match test
    case Before(_) => 0
    case ErrorsOnly => 1
    case ControllersOnly => 2
    case ProvisionersOnly => 3
    case NameIs(_) => 4
    case NotAfter(_) => 5
  }

  /** The six candidate filters in the order the older `get_filters` considers them. */
  function Candidates(o: Options): seq<(bool, Filter)>
  {
    [ (o.start.Some?, (DropLeading, Before(if o.start.Some? then Pipeline.Instant(o.start.value) else 0))),
      (o.error, (KeepMatching, ErrorsOnly)),
      (o.controllerOnly, (KeepMatching, ControllersOnly)),
      (o.provisionerOnly, (KeepMatching, ProvisionersOnly)),
      (o.name.Some?, (KeepMatching, NameIs(if o.name.Some? then o.name.value else ""))),
      (o.end.Some?, (TakeLeading, NotAfter(if o.end.Some? then Pipeline.Instant(o.end.value) else 0))) ]
  }

  /** `get_filters(options)`: the filter of every option that is set, in the order of the options. */
  function GetFilters(o: Options): seq<Filter>
  {
    Selected(Candidates(o))
  }

  /** The candidates rank 0 to 5 in order. */
  lemma CandidateRanks(o: Options)
    ensures |Candidates(o)| == 6
    ensures forall k | 0 <= k < 6 :: Rank(Candidates(o)[k].1.1) == k
  {
  }

  /** The filters come in the fixed order start, error, controller, provisioner, name, end, at most one of each. */
  lemma GetFiltersOrder(o: Options)
    ensures StrictlyRanked(GetFilters(o), Rank)
  {
    CandidateRanks(o);
    SelectedOrder(Candidates(o), Rank);
  }

  /** A candidate's filter is among the filters exactly when its option is set. */
  lemma CandidatePresence(o: Options, k: nat)
    requires k < 6
    ensures Candidates(o)[k].0 <==> Candidates(o)[k].1 in GetFilters(o)
  {
    CandidateRanks(o);
    CandidateSelected(Candidates(o), Rank, k);
  }

  /** Each option yields its filter exactly when it is set, and the filter captures the option's value. */
  lemma GetFiltersPresence(o: Options)
    ensures var fs := GetFilters(o);
      && (o.start.Some? <==> (DropLeading, Before(if o.start.Some? then Pipeline.Instant(o.start.value) else 0)) in fs)
      && (o.error <==> (KeepMatching, ErrorsOnly) in fs)
      && (o.controllerOnly <==> (KeepMatching, ControllersOnly) in fs)
      && (o.provisionerOnly <==> (KeepMatching, ProvisionersOnly) in fs)
      && (o.name.Some? <==> (KeepMatching, NameIs(if o.name.Some? then o.name.value else "")) in fs)
      && (o.end.Some? <==> (TakeLeading, NotAfter(if o.end.Some? then Pipeline.Instant(o.end.value) else 0)) in fs)
  {
    CandidatePresence(o, 0);
    CandidatePresence(o, 1);
    CandidatePresence(o, 2);
    CandidatePresence(o, 3);
    CandidatePresence(o, 4);
    CandidatePresence(o, 5);
  }

  /** Every filter is one of the candidates, so it is of the kind its predicate calls for. */
  lemma GetFiltersKinds(o: Options)
    ensures forall f | f in GetFilters(o) ::
      && (f.0 == DropLeading <==> f.1.Before?)
      && (f.0 == TakeLeading <==> f.1.NotAfter?)
  {
    forall f | f in GetFilters(o) ensures (f.0 == DropLeading <==> f.1.Before?) && (f.0 == TakeLeading <==> f.1.NotAfter?) {
      SelectedMembers(Candidates(o), f);
    }
  }

  /** What `Record(data)` of the older script builds from a decoded payload. */
  function Builder(rt: Routines): FieldMap -> Result<LegacyRecord, FormatError>
  {
    (m: FieldMap) => FromPayload(rt, m)
  }

  /** The records of the input. */
  function AllRecords(rt: Routines, lines: seq<string>): Stream<LegacyRecord, ReadError>
  {
    ReadRecords(rt, lines, Builder(rt))
  }

  /** `filtered_records(lines, filters)`: the filters applied in turn to the records read. */
  function FilteredRecords(rt: Routines, lines: seq<string>, filters: seq<Filter>): Stream<LegacyRecord, ReadError>
  {
    Pipe(AllRecords(rt, lines), filters, Holds)
  }

  /** The pipeline only drops records and keeps the others in order, and raises only what reading raised. */
  lemma FilteredSubsequence(rt: Routines, lines: seq<string>, o: Options)
    ensures IsSubsequence(FilteredRecords(rt, lines, GetFilters(o)).items, AllRecords(rt, lines).items)
    ensures FilteredRecords(rt, lines, GetFilters(o)).failure.Some? ==>
      FilteredRecords(rt, lines, GetFilters(o)).failure == AllRecords(rt, lines).failure
  {
    PipeSubsequence(AllRecords(rt, lines), GetFilters(o), Holds);
  }

  /**
   * Every record that comes out passes each selected filter and the end bound: an error when
   * errors were asked for, from the asked-for logger class and name, and not after the end.
   */
  lemma FilteredSound(rt: Routines, lines: seq<string>, o: Options, r: LegacyRecord)
    requires r in FilteredRecords(rt, lines, GetFilters(o)).items
    ensures o.error ==> IsError(r)
    ensures o.controllerOnly ==> r.logger in ControllerLoggers
    ensures o.provisionerOnly ==> r.logger in ProvisionerLoggers
    ensures o.name.Some? ==> r.name == o.name
    ensures o.end.Some? ==> r.timestamp <= Pipeline.Instant(o.end.value)
  {
    CandidateRanks(o);
    if o.error { CandidateHolds(rt, lines, o, r, 1); }
    if o.controllerOnly { CandidateHolds(rt, lines, o, r, 2); }
    if o.provisionerOnly { CandidateHolds(rt, lines, o, r, 3); }
    if o.name.Some? { CandidateHolds(rt, lines, o, r, 4); }
    if o.end.Some? { CandidateHolds(rt, lines, o, r, 5); }
  }

  /** A record that comes out passes the test of every selected candidate except the start. */
  lemma CandidateHolds(rt: Routines, lines: seq<string>, o: Options, r: LegacyRecord, k: nat)
    requires 0 < k < 6 && Candidates(o)[k].0
    requires r in FilteredRecords(rt, lines, GetFilters(o)).items
    ensures Holds(Candidates(o)[k].1.1, r)
  {
    var f := Candidates(o)[k].1;
    CandidateRanks(o);
    CandidatePresence(o, k);
    GetFiltersKinds(o);
    assert !f.1.Before?;
    PipeMemberSound(AllRecords(rt, lines), GetFilters(o), Holds, f, r);
  }

  /** What a filter's test keeps of records in time order: the start test keeps those at or after the start. */
  predicate Keeps(test: Test, r: LegacyRecord)
  {
    if test.Before? then r.timestamp >= test.t else Holds(test, r)
  }

  /** The time bound a test compares with, if it has one. */
  function Bound(test: Test): int
  {
    if test.Before? || test.NotAfter? then test.t else 0
  }

  /** Each selected filter acts, on records in time order, as a plain filter by what its test keeps. */
  lemma FiltersSortedStages(o: Options)
    ensures var fs := GetFilters(o);
      forall i | 0 <= i < |fs| :: SortedStage(fs[i], Holds, Keeps, Timestamp, Bound)
  {
    var fs := GetFilters(o);
    GetFiltersKinds(o);
    forall i | 0 <= i < |fs| ensures SortedStage(fs[i], Holds, Keeps, Timestamp, Bound) {
      assert fs[i] in fs;
    }
  }

  /** The records the options ask for, stated directly on the options. */
  predicate Wanted(o: Options, r: LegacyRecord)
  {
    && (o.start.Some? ==> Pipeline.Instant(o.start.value) <= r.timestamp)
    && (o.error ==> IsError(r))
    && (o.controllerOnly ==> r.logger in ControllerLoggers)
    && (o.provisionerOnly ==> r.logger in ProvisionerLoggers)
    && (o.name.Some? ==> r.name == o.name)
    && (o.end.Some? ==> r.timestamp <= Pipeline.Instant(o.end.value))
  }

  /** A record passes every selected filter exactly when the options ask for it. */
  lemma KeptIsWanted(o: Options, r: LegacyRecord)
    ensures KeptFrom(GetFilters(o), Keeps, 0, r) <==> Wanted(o, r)
  {
    var cs := Candidates(o);
    var fs := GetFilters(o);
    GetFiltersPresence(o);
    if Wanted(o, r) {
      forall i | 0 <= i < |fs| ensures Keeps(fs[i].1, r) {
        SelectedMembers(cs, fs[i]);
      }
    } else if KeptFrom(fs, Keeps, 0, r) {
      forall f | f in fs ensures Keeps(f.1, r) {
        var i :| 0 <= i < |fs| && fs[i] == f;
      }
    }
  }

  /**
   * When the log is in time order, the pipeline keeps exactly the records the options ask for:
   * those from the start on (a record exactly at the start included), up to the end, matching
   * every other option.
   */
  lemma SortedFiltered(rt: Routines, lines: seq<string>, o: Options)
    requires SortedBy(AllRecords(rt, lines).items, Timestamp)
    ensures FilteredRecords(rt, lines, GetFilters(o)).items == FilterSeq(AllRecords(rt, lines).items, r => Wanted(o, r))
  {
    var fs := GetFilters(o);
    FiltersSortedStages(o);
    SortedPipe(AllRecords(rt, lines), fs, Holds, Keeps, Timestamp, Bound);
    forall r | r in AllRecords(rt, lines).items {
      KeptIsWanted(o, r);
    }
    FilterSeqAgree(AllRecords(rt, lines).items, r => KeptFrom(fs, Keeps, 0, r), r => Wanted(o, r));
  }

  /**
   * `process_log` of the older script: one formatted line per record that passes the filters,
   * in order, written by its own `format` (so a highlighted error record without residual
   * fields leaves the colour on). It stops at the first record whose stack trace is not text,
   * raising `NotAString`. When reading fails after every record before the failure was
   * written, the lines stand and the failure is raised.
   */
  method ProcessLog(rt: Routines, lines: seq<string>, filters: seq<Filter>, highlight: bool)
    returns (out: seq<string>, failure: Option<ReadError>)
    ensures var s := FilteredRecords(rt, lines, filters);
      && |out| <= |s.items|
      && (forall i | 0 <= i < |out| :: Records.Showable(s.items[i].context) && out[i] == Format(rt, s.items[i], highlight) + "\n")
      && (|out| < |s.items| ==>
            !Records.Showable(s.items[|out|].context) && failure == Some(FormatFailure(NotAString(s.items[|out|].context.value))))
      && (|out| == |s.items| ==> failure == s.failure)
  {
    var s := FilteredRecords(rt, lines, filters);
    var err;
    out, err := WriteRecords(rt, s.items, highlight);
    failure := if err.Some? then Some(FormatFailure(err.value)) else s.failure;
  }

  /**
   * The write loop of `process_log`: each record's text and a line break, in order, up to the
   * first record `format` raises on.
   */
  method WriteRecords(rt: Routines, items: seq<LegacyRecord>, highlight: bool) returns (out: seq<string>, failure: Option<FormatError>)
    ensures |out| <= |items|
    ensures forall i | 0 <= i < |out| :: Records.Showable(items[i].context) && out[i] == Format(rt, items[i], highlight) + "\n"
    ensures failure.None? <==> |out| == |items|
    ensures |out| < |items| ==> !Records.Showable(items[|out|].context) && failure == Some(NotAString(items[|out|].context.value))
  {
    out, failure := [], None;
    var i := 0;
    while i < |items|
      invariant 0 <= i <= |items| && |out| == i
      invariant forall k | 0 <= k < i :: Records.Showable(items[k].context) && out[k] == Format(rt, items[k], highlight) + "\n"
    {
      var text := Render(rt, items[i], highlight);
      if text.Err? {
        failure := Some(text.error);
        return;
      }
      out := out + [text.value + "\n"];
      i := i + 1;
    }
  }
}
