# bmo-log-parse in Dafny

`bmo-log-parse` reads the JSON log of the bare-metal operator (BMO). It keeps the lines
that hold a log record, with or without a leading ISO-8601 time stamp. It turns each record
into a normalised `Record` with these parts:

- level, time, logger class and message;
- the identity of the host the record is about, as a name and, in the current module, a namespace;
- the error and the context (a stack trace or introspection data);
- the residual fields.

It drops or keeps records by a fixed sequence of filters (start time, errors only,
controller or provisioner loggers, host name, namespace, end time). It writes each record
as one human-readable line, optionally coloured with ANSI sequences, or lists the host
names it sees.

This project models the core of two versions:

- the current module `bmo_log_parse.py`: the modules `Reader`, `Records`, `RecordLaws`,
  `RecordFormat` and `Pipeline`;
- the older script `bmo-log-parse.py`: the modules `LegacyRecords`, `LegacyRecordLaws`,
  `LegacyFormat` and `LegacyPipeline`. They reuse the reader, the common fields and the
  formatting pieces the two versions share.

Both versions rest on these supporting modules:

- `Payload`: a decoded JSON object as a sequence of distinct-key entries in insertion order,
  and the dictionary operations `get`, `pop` and `in`;
- `Streams`: `filter`, `dropwhile`, `takewhile` and the reduce over filters;
- `Selection`: the option-by-option choice of filters;
- `Text`: `split`, `replace`, `splitlines`, `join` and terminal colour sequences;
- `Numerals`: `str` of an integer;
- `Loggers`: the logger and level tables.

Each operation is given twice:

- a function or method in the form the source takes. `Record.__init__` becomes a method that
  pops fields one at a time. The writes of `process_log` and `list_host_names` become loops.
- a statement of what the result means, with a lemma connecting the two. For example:
  - `Records.Build` is tied to the declarative `Records.FromPayload`;
  - the reader is tied to the line-by-line description `Reader.Faithful`;
  - the filter pipeline is tied to `Pipeline.Wanted`, stated directly on the options.

Routines the core calls but does not define are passed in as total functions, the fields of
`Library.Routines`:

- `json.loads`, giving an object or a decode error with its message and column. Only text that
  starts with `{` and ends with `}` reaches it, and such text decodes to an object if it decodes at all;
- converting the `ts` field to microseconds;
- `pretty_print` of introspection data, one routine per version: `yaml.safe_dump` in block style in
  the current module, and `yaml.safe_dump` in the library's default style in the older script;
- `repr` and `str` of decoded values;
- rendering a millisecond time in ISO-8601.

Times are integers (microseconds since the epoch, UTC).

Where a Python expression would crash, the model returns an error value instead:

- `MissingField(key)` for the `KeyError` of a missing field;
- `BadTimestamp(value)` for a `ts` that does not convert;
- `NotAString(value)` for a string method or `join` applied to a non-string.

"Raises" below means the model returns that error.

## Model

| member | source | states |
|---|---|---|
| Loggers.LoggerPrefix | bmo_log_parse.py:111 | the logger class is the longest prefix of the logger name without a `.`, and the name continues with a `.` after it |
| Loggers.LoggerPrefixOf | bmo_log_parse.py:111 | a sub-logger `head.rest` is classified as `head` |
| Payload.Lookup | bmo_log_parse.py:114-118 | `get` finds a value only from an entry with that key |
| Payload.LookupAbsent | bmo_log_parse.py:114-118 | `get` finds nothing exactly when no entry has the key |
| Payload.LookupSameEntries | bmo_log_parse.py:105-137 | lookups do not depend on the order of the entries |
| Payload.FirstPresentSpec | bmo_log_parse.py:114-116 | the nested `get` finds nothing only when no key is present, otherwise the value of the earliest key present |
| Payload.PopField | bmo_log_parse.py:134-136 | `pop(k, None)` returns the value `k` had before any pop and leaves the map with `k` removed as well |
| Payload.LookupResidual | bmo_log_parse.py:129-132 | popping keys does not change the lookup of a key that stays |
| Numerals.DecimalRoundTrip | bmo_log_parse.py:75-77 | the decimal text of an integer reads back as that integer, so the line and column in the message are exact |
| Numerals.DecimalInjective | bmo_log_parse.py:75-77 | different line or column numbers show differently |
| Reader.StampLength | bmo_log_parse.py:61-63 | the length of a leading time stamp is found exactly when the line has one, and it is that stamp's length |
| Reader.StampUnique | bmo_log_parse.py:61-63 | a time stamp prefix ends just after its run of fraction digits, so a line has at most one |
| Reader.Recognize | bmo_log_parse.py:59-65 | a line matches exactly when it is an optional stamp, a single-line `{...}` and a newline, and the payload start returned is that split |
| Reader.RecognizeFramed | bmo_log_parse.py:59-65 | every line made of a stamp or none, a payload and a newline matches, with the payload right after the stamp |
| Reader.SkippedLine | bmo_log_parse.py:82-83 | a line with no `{` or without its final newline gives no record and no error |
| Reader.PayloadTextFrame | bmo_log_parse.py:64-73 | a matched line is the stamp, then the payload text, then the newline |
| Reader.ExceptionMessage | bmo_log_parse.py:75-77 | the message begins with `Record parse error: ` and the decoder's message, and ends with the whole line |
| Reader.ParseRecord | bmo_log_parse.py:80-87 | a line gives no payload exactly when it does not match |
| Reader.ParseMatched | bmo_log_parse.py:68-87 | a matched line gives the decoded field map, or a parse error with the line's index and column = decoder column + payload start |
| Reader.MatchingLines | bmo_log_parse.py:90-93 | the indices of exactly the matching lines, increasing |
| Reader.ReadFromStep | bmo_log_parse.py:90-93 | a line is skipped, raises, or yields one record in front of the rest |
| Reader.FaithfulStep | bmo_log_parse.py:90-93 | the line-by-line description advances the same way |
| Reader.ReadRecordsSpec | bmo_log_parse.py:90-93 | records come one per matching line in order, and reading stops at the first line that raises with that error; without an error every matching line yields a record |
| Records.Required | bmo_log_parse.py:107-112 | a field popped without a default raises `MissingField` when absent and otherwise gives its value |
| Records.SplitIdentity | bmo_log_parse.py:126-127 | `split('/', 1)` needs a string: any other identity raises `NotAString`, no identity gives no parts, and a string gives one or two parts |
| Records.PopLevelAndTime | bmo_log_parse.py:107-110 | pops `level` and `ts` with the errors `LevelAndTime` describes |
| Records.PopCommon | bmo_log_parse.py:107-112 | pops the four common fields with the errors `CommonFields` describes, leaving the map without them |
| Records.PopError | bmo_log_parse.py:133 | takes `error` only from an error record and removes it only then |
| Records.PopIgnored | bmo_log_parse.py:134-136 | removes `errorVerbose` and the reconciler fields |
| Records.ContextString | bmo_log_parse.py:165-169 | a context `format` can show is either none or a string, and gives that string |
| Records.PopContext | bmo_log_parse.py:119-125 | pops the stack trace, of whatever kind, or the pretty-printed introspection data, and gives the context `Context` describes |
| Records.IdentityResidual | bmo_log_parse.py:114-121 | popping the common fields does not change the identity |
| Records.Finish | bmo_log_parse.py:126-137 | name, namespace, error and remaining pops give what `Complete` describes |
| Records.Build | bmo_log_parse.py:105-137 | `Record.__init__`, popping fields one at a time, gives exactly the record or error `FromPayload` describes |
| RecordLaws.MandatoryFields | bmo_log_parse.py:107-112 | a record exists only if `level`, `ts` and `msg` are present and `ts` converts |
| RecordLaws.MissingFieldOrder | bmo_log_parse.py:107-112 | the errors come in popping order: `level`, `ts`, its conversion, a `logger` that is not a string, `msg` |
| RecordLaws.MissingLoggerIsCommand | bmo_log_parse.py:111 | a record without `logger` has logger `""`, a command logger |
| RecordLaws.LoggerComponent | bmo_log_parse.py:111 | a dotted logger is classified by its first component |
| RecordLaws.ControllerIdentity | bmo_log_parse.py:114-117 | outside the provisioner set the identity is the first present of `baremetalhost`, `Request.Name`, `name` |
| RecordLaws.ProvisionerNoHost | bmo_log_parse.py:117-118 | for provisioner loggers an absent or empty `host` gives no identity |
| RecordLaws.ProvisionerIdentity | bmo_log_parse.py:117-118 | for provisioner loggers the identity is `host` with its first `~` turned into `/` |
| RecordLaws.StackTraceFallback | bmo_log_parse.py:119-121 | with a stack trace and no identity the identity is `request`, and a missing `request` raises |
| RecordLaws.PrimaryIdentityWins | bmo_log_parse.py:119-121 | a found identity is never replaced by `request` |
| RecordLaws.NameAndNamespace | bmo_log_parse.py:126-132 | an identity `ns/name` gives the name after the first `/`, and the namespace from `namespace`, else `Request.Namespace`, else `ns` |
| RecordLaws.NameWithoutNamespace | bmo_log_parse.py:126-132 | an identity without `/` is all name, and only a field gives a namespace |
| RecordLaws.NoIdentity | bmo_log_parse.py:126-132 | no identity gives no name, and only a field gives a namespace |
| RecordLaws.NamespaceRule | bmo_log_parse.py:129-132 | the namespace is `namespace`, else `Request.Namespace`, else the identity's prefix |
| RecordLaws.ProvisionerHostRoundTrip | bmo_log_parse.py:117-132 | a provisioner `host` of `ns~name` gives the name `name` in the namespace `ns` |
| RecordLaws.ControllerHostRoundTrip | bmo_log_parse.py:114-132 | a controller `baremetalhost` of `ns/name` gives the name `name` in the namespace `ns` |
| RecordLaws.RecordContext | bmo_log_parse.py:119-125 | the context is the stack trace if present, of whatever kind and none for `null`, else the pretty-printed `data` of an introspection record, else none |
| RecordLaws.RecordError | bmo_log_parse.py:133 | only error records carry an error, and a non-error record keeps `error` in the data |
| RecordLaws.RecordResidual | bmo_log_parse.py:107-137 | the data is the payload without exactly the consumed keys, in order, with every kept lookup unchanged |
| RecordLaws.RequestFieldsKept | bmo_log_parse.py:114-132 | `Request.Name` and `Request.Namespace` stay in the data |
| RecordLaws.OrderIndependence | bmo_log_parse.py:105-137 | payloads with the same entries in any order give the same error, or records equal up to the order of their data |
| RecordFormat.EscapesOf | bmo_log_parse.py:145-151 | the three sequences for error, other and plain records |
| RecordFormat.ItemTexts | bmo_log_parse.py:155 | one `k: repr(v)` per residual field, in order |
| RecordFormat.TimestampMillis | bmo_log_parse.py:170 | the time shows to the millisecond with no offset, and times in one millisecond show alike |
| RecordFormat.FormatStart | bmo_log_parse.py:171 | the text starts with the lead colour, the time, a space, the message colour and the message |
| RecordFormat.PlainShape | bmo_log_parse.py:153-171 | without highlighting, a record with no error and no context is `<time> <message>`, plus ` {fields}` exactly when it has residual fields |
| RecordFormat.StripHighlight | bmo_log_parse.py:145-171 | removing the colour sequences from the highlighted text gives the plain text, when the plain text has no escapes and the context lines end in `\n` |
| RecordFormat.StripContextPart | bmo_log_parse.py:165-169 | the highlighted context loses only its colours |
| RecordFormat.HighlightResets | bmo_log_parse.py:145-171 | every highlighted record ends in the default colour `ESC[39m` |
| RecordFormat.ContextEndsWithReset | bmo_log_parse.py:168 | a highlighted non-empty context ends with the reset |
| Text.SplitOnce | bmo_log_parse.py:126 | `split(c, 1)`: `[s]` without `c`, else the parts before and after the first `c`, which rejoin to `s` |
| Text.SplitOnceOf | bmo_log_parse.py:126 | splitting `head + c + tail`, with `c` not in `head`, gives back `head` and `tail` |
| Text.ReplaceFirst | bmo_log_parse.py:118 | `replace(c, d, 1)` changes only the first `c`, and leaves `s` as it is when there is none |
| Text.ReplaceFirstOf | bmo_log_parse.py:118 | replacing in `head + c + tail`, with `c` not in `head`, gives `head + d + tail` |
| Text.SplitLines | bmo_log_parse.py:168 | the lines hold no line break |
| Text.SplitLinesChars | bmo_log_parse.py:168 | every character of a line is a character of the text |
| Text.JoinSplitLines | bmo_log_parse.py:168 | for text whose only breaks are `\n` and that does not end with one, joining the lines with `\n` gives the text back |
| Text.StripWrappedLines | bmo_log_parse.py:168 | removing the colours from the wrapped lines gives the lines joined as before |
| Text.LastColourAtEnd | bmo_log_parse.py:171 | a colour sequence followed only by plain text decides the final colour |
| Streams.FilterSeqMembers | bmo_log_parse.py:182 | `filter` keeps exactly the records that satisfy the predicate |
| Streams.FilterSeqSubsequence | bmo_log_parse.py:182 | `filter` keeps the order |
| Streams.FilterSeqTwice | bmo_log_parse.py:182 | two filters in a row are one filter by the conjunction |
| Streams.TakeWhile | bmo_log_parse.py:225-226 | `takewhile` raises the reading error only when it kept every record; when it stops early no later error is raised |
| Streams.DropWhileSorted | bmo_log_parse.py:207-208 | on records in time order, dropping the leading ones before `t` keeps exactly those at or after `t` |
| Streams.TakeWhileSorted | bmo_log_parse.py:225-226 | on records in time order, taking while at or before `t` keeps exactly those at or before `t` |
| Streams.PipeSubsequence | bmo_log_parse.py:180-183 | the pipeline yields a subsequence of the records read, and raises only the reading error |
| Streams.PipeOfFilters | bmo_log_parse.py:180-183 | a pipeline of `filter` stages keeps exactly the records that satisfy every predicate, in any stage order |
| Streams.PipeSound | bmo_log_parse.py:180-183 | every record out of the pipeline satisfies each `filter` or `takewhile` stage |
| Streams.SortedPipe | bmo_log_parse.py:180-183 | on ordered input, a pipeline of stages that each act as a plain filter keeps exactly what every stage keeps |
| Selection.SelectedMembers | bmo_log_parse.py:201-226 | a filter is chosen exactly when it is a candidate whose option is set |
| Selection.SelectedOrder | bmo_log_parse.py:201-226 | the chosen filters keep the candidates' order |
| Pipeline.GetFiltersOrder | bmo_log_parse.py:201-226 | the filters come in the order start, error, controller, provisioner, name, namespace, end, at most one of each |
| Pipeline.GetFiltersPresence | bmo_log_parse.py:201-226 | each option gives its filter exactly when it is set, and the filter holds the option's value |
| Pipeline.GetFiltersKinds | bmo_log_parse.py:201-226 | the start filter is the only `dropwhile`, the end filter the only `takewhile` |
| Pipeline.FilteredSubsequence | bmo_log_parse.py:180-183 | filtering only drops records, keeps the order, and raises only what reading raised |
| Pipeline.FilteredSound | bmo_log_parse.py:180-226 | every record out of the filters is an error if asked, of the asked class, name and namespace, and not after the end |
| Pipeline.KeptIsWanted | bmo_log_parse.py:201-226 | a record passes every chosen filter exactly when it is what the options ask for; naive bounds are read as UTC |
| Pipeline.SortedFiltered | bmo_log_parse.py:180-226 | on a log in time order the pipeline keeps exactly the wanted records, a record exactly at the start included |
| Pipeline.WriteRecords | bmo_log_parse.py:189-190 | one formatted line and a newline per record, in order, stopping with `NotAString` at the first record whose stack trace is not a string |
| Pipeline.ProcessLog | bmo_log_parse.py:186-190 | one formatted line per filtered record, in order; the first record whose stack trace is not a string raises `NotAString` and ends the output; otherwise the reading error follows the lines |
| Pipeline.NewNamesMembers | bmo_log_parse.py:193-198 | a name is listed exactly when some record has it and it was not seen before |
| Pipeline.NewNamesDistinct | bmo_log_parse.py:193-198 | no name is listed twice, nor one seen before |
| Pipeline.NewNamesOrder | bmo_log_parse.py:193-198 | names are listed in the order they first appear |
| Pipeline.ListHostNames | bmo_log_parse.py:193-198 | the loop writes the names `HostNames` describes, then raises the reading error |
| LegacyRecords.Build | bmo-log-parse.py:105-128 | `Record.__init__` of the older script, popping fields, gives exactly the record or error `LegacyRecords.FromPayload` describes |
| LegacyRecords.IdentityResidual | bmo-log-parse.py:114-121 | popping the common fields does not change the identity |
| LegacyRecordLaws.SameCommonErrors | bmo-log-parse.py:107-112 | the common fields fail with the same error as in the current module, and a record needs `level`, `ts`, `msg` and a converting `ts` |
| LegacyRecordLaws.ControllerIdentity | bmo-log-parse.py:114-117 | controller loggers take the first present of `baremetalhost`, `name`, `Request.Name` |
| LegacyRecordLaws.HostIdentity | bmo-log-parse.py:117-118 | every other logger, command and runtime included, takes `host` as it is |
| LegacyRecordLaws.StackTraceFallback | bmo-log-parse.py:119-121 | with a stack trace and no identity the identity is `request`, and a missing `request` raises |
| LegacyRecordLaws.HostName | bmo-log-parse.py:118-126 | a `host` without `/` is the whole name, `~` included; with one, the name follows the first `/` |
| LegacyRecordLaws.ControllerName | bmo-log-parse.py:114-126 | a controller identity `ns/name` gives the name `name` |
| LegacyRecordLaws.AgreesWithCurrent | bmo-log-parse.py:107-125 | both versions give the same level, time, logger and message, and the same context except for introspection data without a stack trace, which each version pretty-prints with its own routine |
| LegacyRecordLaws.RecordContext | bmo-log-parse.py:119-125 | the context is the stack trace, of whatever kind and none for `null`, else introspection data in the older script's pretty-printing, else none |
| LegacyRecordLaws.RecordResidual | bmo-log-parse.py:107-128 | the data is the payload without exactly the consumed keys, in order |
| LegacyRecordLaws.ErrorFieldsKept | bmo-log-parse.py:127-128 | `error` and the reconciler fields stay in the data |
| LegacyRecordLaws.OrderIndependence | bmo-log-parse.py:105-128 | construction does not depend on the order of the entries |
| LegacyFormat.EscapesOf | bmo-log-parse.py:136-138 | colours exactly for highlighted error records, opening and reset together |
| LegacyFormat.PlainMatchesCurrent | bmo-log-parse.py:130-151 | without highlighting the older script writes what the current module writes for the same fields |
| LegacyFormat.HighlightOnlyErrors | bmo-log-parse.py:136-151 | highlighting changes a non-error record only in its context lines |
| LegacyFormat.StripHighlight | bmo-log-parse.py:136-151 | removing the colours from the highlighted text gives the plain text |
| LegacyFormat.UnclosedHighlight | bmo-log-parse.py:136-151 | as written, a highlighted error record with no fields and no context is left bright red |
| LegacyFormat.FixOnlyTouchesDefect | bmo-log-parse.py:140-144 | the corrected format differs exactly for highlighted error records with no fields |
| LegacyFormat.FixedHighlightResets | bmo-log-parse.py:136-151 | corrected, every highlighted error record ends in the default colour |
| LegacyPipeline.GetFiltersOrder | bmo-log-parse.py:173-195 | the filters come in the order start, error, controller, provisioner, name, end, at most one of each |
| LegacyPipeline.GetFiltersPresence | bmo-log-parse.py:173-195 | each option gives its filter exactly when it is set |
| LegacyPipeline.GetFiltersKinds | bmo-log-parse.py:173-195 | the start filter is the only `dropwhile`, the end filter the only `takewhile` |
| LegacyPipeline.FilteredSubsequence | bmo-log-parse.py:160-163 | filtering only drops records, keeps the order, and raises only what reading raised |
| LegacyPipeline.FilteredSound | bmo-log-parse.py:160-195 | every record out of the filters matches each chosen option and is not after the end |
| LegacyPipeline.KeptIsWanted | bmo-log-parse.py:173-195 | a record passes every chosen filter exactly when the options ask for it |
| LegacyPipeline.SortedFiltered | bmo-log-parse.py:160-195 | on a log in time order the pipeline keeps exactly the wanted records |
| LegacyPipeline.WriteRecords | bmo-log-parse.py:169-170 | one line and a newline per record, formatted as the older script writes it, in order, stopping with `NotAString` at the first record whose stack trace is not a string |
| LegacyPipeline.ProcessLog | bmo-log-parse.py:166-170 | one line per filtered record, formatted as the older script writes it, in order; the first record whose stack trace is not a string raises `NotAString` and ends the output; otherwise the reading error follows the lines |

## Left out

- The command line and the terminal: `get_options`, `main`, opening the input, `_report_error`,
  the pager and terminal detection. They are argument parsing and I/O.
- Output streams: `process_log` and `list_host_names` return the sequence of lines they write,
  and the error that ends reading, instead of writing to a stream.
- Floating-point time: `float(ts)`, `datetime.fromtimestamp` and `isoformat` are the routines
  `timestampMicros` and `isoMillis` passed in. Time is integer microseconds, and only the cut to
  milliseconds is modelled.
- `json.loads`, both `pretty_print` routines (YAML or JSON), `repr` and `parse_datetime` are
  routines passed in, with no properties assumed.
- Laziness: streams are finite sequences that end in an error or not. What laziness decides is
  kept: `takewhile` stopping early means that a later reading error is never raised.
- Records.SplitIdentity: an identity that is not a string gives `NotAString`, because Python
  fails on `split`. It is not a record.
- Reader.ReadRecordsSpec: the example log of 14 records in the repository's tests is not part of
  this model. The recognizer is proved against the line shape instead (`Reader.Recognize`,
  `Reader.RecognizeFramed`).
- Features the repository's tests exercise but this version of the code lacks are not
  modelled: ISO and RFC 3339 `ts` strings, rotated log prefixes, verbose error output, webhook
  and sub-controller filters, `list_host_namespaces`, and the hardware-firmware and image
  identity fields.
- Also not modelled is a stack trace without `request` giving no name. The code raises a
  `KeyError` there, and the model raises `MissingField("request")`.
- `Record.__init__` raises a plain `KeyError`, which carries no line number; so does
  `MissingField`.

## Findings

| source | as written | input that shows it | evidently intended | confidence | as-written member | corrected member |
|---|---|---|---|---|---|---|
| bmo-log-parse.py:136-151 | the reset `ESC[39m` is written only after a non-empty data block | an `error` record with no residual fields and no context, formatted with highlight on: `ESC[91m<time> <message>` with no reset, so every line after it stays red | reset after every highlighted error record, as the current module does at bmo_log_parse.py:159-161 | not executed | LegacyFormat.UnclosedHighlight | LegacyFormat.FixedHighlightResets |
