# TrashCanMonitor: the sampling cycle, modelled in Dafny

TrashCanMonitor samples a home 5G gateway at a fixed interval. It times a
web page retrieval and pings a host. It reads the radio status and
statistics documents from the gateway. Each sample goes out as one line of
comma-separated text, and a header line is written once before the first
sample. A `ConnectionError` during a cycle is logged as an annotated line
and the loop goes on; any other exception ends the program.

This project models the part of `main.py` that is not network I/O:

- `json.dfy` (module `Json`): the parsed documents as a JSON datatype, and
  Python's subscript on them, including the `KeyError`, `IndexError` or
  `TypeError` raised when a step does not apply.
- `csv.dfy` (module `Csv`): `','.join` and its inverse `str.split`, plus
  the round-trip lemmas.
- `record.dfy` (module `Record`): the fixed `data` list of `record_stats`.
  It has 29 named entries. Five hold measured values; 24 are fixed-path
  lookups into the two documents. It is evaluated left to right, so the
  first failing lookup decides the exception. The loop splitting the list
  into `column_names` and `values` is a method with loop invariants.
- `monitor.dfy` (module `Monitor`): the cycle as a step of a state machine
  over the module-level `header` flag and the lines written so far.
  - `RecordStep` / `Step` / `Trace` are the specification.
  - The class `Recorder` holds the flag and the output stream as fields,
    with methods for `record_stats`, one pass of the `while True` loop and
    a run of passes. Each method is proved to follow the specification.
  - `Launch` is `main`: the argument-count check, the output file, and the
    loop.
- `witness.dfy` (module `Witness`): a sample from which the whole list
  builds, so that the facts stated about successful cycles are not
  vacuous.

The list has 29 entries: 5 measured values, 2 `cellular_stats` counters,
7 5G values, 7 LTE values and 8 WAN `Service` counters, from `datetime`
to `cellular_stats_discard_packets_received`.

Each output line is tagged, as ghost state, with the statement that wrote
it: header, values or error line. That tag is what lets "the header is
written once, before every values line" be stated about a stream of text.

## Model

| member | source | states |
|---|---|---|
| Json.LookupAppend | main.py:75-145 | A chained subscript `d[a][b]...` is subscripting step by step: looking up `p + q` is looking up `p`, then `q` from its result; a failure on `p` is the failure of the whole chain |
| Json.LookupNest | main.py:75-145 | Every lookup path is satisfiable: some document makes it succeed with any chosen leaf, so no field of the list is bound to fail |
| Json.FailurePropagates | main.py:75-76 | Once one step fails (a missing key, `[0]` on an empty list), every longer path through it fails with that same error |
| Csv.Split | main.py:156 | `line.split(',')` yields one more piece than the line has commas, and no piece holds a comma |
| Csv.SplitJoin | main.py:156 | Splitting a comma-joined line gives back exactly the joined fields, in order, when no field holds a comma |
| Csv.JoinSplit | main.py:162 | Joining the pieces of a split gives back the original line, for every line |
| Csv.FieldCount | main.py:162 | A line joined from n comma-free fields has exactly n fields and n - 1 commas |
| Csv.QuotedFieldCountUnquoted | main.py:156 | On a line without double quotes a CSV reader sees exactly the fields `split` gives |
| Record.SourcesTable | main.py:59-145 | The list has 29 entries. Entries 0 to 4 yield, in order, the clock, the ping average, the retrieval time, the status code and the page size. Entries 5 to 20 are lookups into the radio status document; entries 21 to 28 are lookups into the statistics document |
| Record.CellularEntries | main.py:75-79 | Entries 5 and 6 read `radio_status['cellular_stats'][0]` at `BytesReceived` and `BytesSent` |
| Record.Cell5GEntries | main.py:81-100 | Entries 7 to 13 read `radio_status['cell_5G_stats_cfg'][0]['stat']` at its seven keys, in order |
| Record.CellLteEntries | main.py:102-121 | Entries 14 to 20 read `radio_status['cell_LTE_stats_cfg'][0]['stat']` at its seven keys, in order |
| Record.WanEntries | main.py:123-145 | Entries 21 to 28 read `statistics['WAN'][0]['Service'][0]` at its eight keys, in order |
| Record.BuildFrom | main.py:59-146 | The list builds exactly when every entry resolves. It then has one `[name, value]` pair per field, in order. Otherwise the error is that of the first failing entry, all entries before it having resolved |
| Record.DataNamesAreColumns | main.py:59-152 | Every successful cycle yields the 29 column names in list order, whatever the documents hold |
| Record.SplitData | main.py:148-153 | `column_names` and `values` have one entry per `data` entry; entry i of each is the name and the `str()` of the value of `data[i]` |
| Record.ColumnNamesPlain | main.py:59-146 | There are 29 column names and none holds a comma or a double quote |
| Record.HeaderFields | main.py:156 | The header line splits back into the 29 column names, in list order |
| Record.HeaderQuotedFields | main.py:156 | A CSV reader, too, sees 29 fields in the header line |
| Record.HeaderLineUnique | main.py:156 | A line splits into the column names exactly when it is the comma-join of the column names |
| Record.HeaderOfData | main.py:151-156 | The header line built from any successful cycle's `column_names` is that line |
| Record.ValuesLineFields | main.py:153-162 | If no value text holds a comma, the values line splits into its values, and into as many fields as the header line |
| Record.OnlyFirstColumnIsClock | main.py:59-73 | Only the first entry reads the clock |
| Record.BuildFromIgnoresClock | main.py:63-145 | Entries other than the clock evaluate the same at any time of day |
| Record.OnlyTimestampDiffers | main.py:59-61 | Two cycles whose samples differ only in the time yield the same values line except for its first field |
| Record.EmptyCellularStatsAborts | main.py:75-76 | An empty `cellular_stats` list aborts the cycle with `IndexError` on `[0]` at the first router entry, whatever else the documents hold |
| Monitor.RecordStep | main.py:148-166 | A failed list leaves flag and output unchanged and raises that lookup error. A success raises the flag and appends 2 lines (header then values) when the flag was down, otherwise 1. The header splits into the column names; the last line is the comma-join of the values |
| Monitor.Step | main.py:195-204 | A pass only appends. It is fatal exactly for an uncaught exception or a failed list, and then nothing changes. A connection error appends exactly the annotated error line and leaves the flag alone. A raised flag stays up |
| Monitor.Trace | main.py:195-204 | A run of passes stops at the first uncaught exception; it only appends to the output and never lowers the flag |
| Monitor.StepPreservesWellFormed | main.py:155-202 | Each pass keeps the output well formed: at most one header line, present exactly when the flag is up, before every values line, and splitting into the column names |
| Monitor.TraceWellFormed | main.py:195-204 | Any run of passes keeps the output well formed |
| Monitor.HeaderOnceBeforeValues | main.py:155-160 | A well-formed output has at most one header line. Some header line precedes every values line. The flag is up exactly when a header line has been written |
| Monitor.HeaderWrittenOnce | main.py:155-160 | From program start, across any passes including connection errors: the header is written at most once, before every values line, and it is the header line |
| Monitor.LineCount | main.py:155-166 | Over passes that all survive, the output grows by one line per pass, plus one header line if a sample arrives while the flag is down |
| Monitor.ErrorLineFields | main.py:199 | The error line is the timestamp, a comma, and the quoted `***** Exception: <text> *****`; with comma-free parts it splits into those two fields |
| Monitor.ErrorLineFieldCount | main.py:199 | For every timestamp and exception text, `split` cuts the error line into two fields plus one per comma in the timestamp or the text |
| Monitor.ErrorLineAsWideAsHeader | main.py:199 | An exception text with 27 commas gives an error line that `split` cuts into as many fields as the header line |
| Monitor.ErrorLineIsNotARow | main.py:199 | A CSV reader, which honours the quotes around the exception text, sees 2 fields in an error line whatever commas the text holds, never the 29 of the header line (text and timestamp free of double quotes, timestamp free of commas) |
| Monitor.Recorder.constructor | main.py:29 | The monitor starts with the flag down and an empty output |
| Monitor.Recorder.Write | main.py:158 | Writing appends exactly the line and changes nothing else |
| Monitor.Recorder.RecordStats | main.py:148-166 | `record_stats` after the fetches updates the flag and output exactly as `RecordStep` says, keeping the output well formed |
| Monitor.Recorder.Cycle | main.py:196-202 | One pass, the connection-error branch included, updates the flag and output exactly as `Step` says |
| Monitor.Recorder.RunCycles | main.py:195-204 | The loop over a sequence of passes ends in the state `Trace` gives, and returns its uncaught exception if any |
| Monitor.Launch | main.py:169-204 | With other than 3 arguments: the usage exit with status 1, output never opened. A non-integer interval ends before the output is opened. Unresolved target: return with an empty output. Otherwise the output holds exactly the lines of the run, and the run ends as its trace does. Once ended, the exit status is 1 exactly for a wrong argument count, a non-integer interval or an uncaught exception in the loop; the program is still sampling exactly when it got that far and no pass failed |
| Witness.BuildsWhenAllFound | main.py:59-146 | A sample in which every router path of the list succeeds builds the whole list |
| Witness.SomeCycleSucceeds | main.py:59-146 | Some sample builds the whole list: one router whose documents hold every key the list looks up |

## Left out

- The HTTP requests (`requests.get`) and `json.loads`: the parsed documents and the retrieval measurements are inputs of a `Sampled` pass. A failure among them other than `ConnectionError` becomes a `FetchFailed` pass.
- Duplicate keys in a response body: a parsed document is a dictionary, so only the key `json.loads` keeps is seen.
- `ping`, `datetime.datetime.now()`, `elapsed.total_seconds()` and `len(response.text)`: these are clock, network and float values, given as already-formatted strings in `Sample`.
- Python's `str()` of a JSON value: the parameter `show`, since its formatting of floats, dictionaries and lists is library behaviour.
- `print` mirroring, `open(..., "w")`, the trailing newline and `flush`: the output is the sequence of lines written, in order.
- `int(sys.argv[1])`: the flag `intervalParses`, since integer parsing is library behaviour.
- DNS resolution: the flag `resolved` stands for `result.rrset` being present. Exceptions raised by the resolver, and the ping address, are not modelled.
- `time.sleep` and the endless loop: a run is a finite sequence of passes. The `ValueError` that `time.sleep` raises for a negative interval, outside the `try`, is the sampling pass followed by a `FetchFailed` pass: the same output and exit status.
- The output file path and the start-up `print` lines that echo the arguments: nothing depends on them.
- Monitor.ErrorLineIsNotARow: needs an exception text without a double quote, because main.py:199 puts the text between quotes without doubling the quotes inside it, so such a quote ends the quoted field early.
- The kind of each written line (header, values, error) is ghost state in `Recorder`; the program stores only the text.
