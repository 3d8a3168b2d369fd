/** The sampling loop of the monitor: `record_stats`, which emits the header
    line once and then one values line per successful cycle, the `while
    True` loop of `main` that survives connection errors by logging them,
    and the start-up checks of `main`.

    A cycle is first specified as a step of a state machine over the
    header flag and the lines written so far (`Step`, `Trace`); the class
    `Recorder` then does the same work statement by statement on its
    fields, and is proved to follow that specification. */
module Monitor {
  import opened Json
  import opened Record
  import Csv

  /** A line of the output stream, tagged with the statement that wrote it. */
  datatype Line = HeaderRow(text: string) | ValuesRow(text: string) | ErrorRow(text: string)

  /** How one pass of the loop goes. `Sampled`: the three requests, both
      `json.loads` and the ping returned, giving `sample`. `ConnectionFailed`:
      a request raised `ConnectionError`, caught by `main`. `FetchFailed`:
      anything else was raised, which nothing catches: before the `data`
      list was built (a body that is not JSON, a failing ping), or by
      `time.sleep` after the pass when the interval is negative. The latter
      is the pass that sampled followed by a `FetchFailed` pass: the same
      output, and the same exit status 1. */
  datatype Event =
    | Sampled(sample: Sample)
    | ConnectionFailed(timestamp: string, message: string)
    | FetchFailed(reason: string)

  /** An exception that ends the process. */
  datatype Fault = Extraction(error: LookupError) | Uncaught(reason: string)

  datatype Outcome = Continue | Fatal(fault: Fault)

  datatype Option<T> = None | Some(value: T)

  /** The module-level `header` flag and what has been written. */
  datatype State = State(headerWritten: bool, lines: seq<Line>)

  datatype StepResult = StepResult(state: State, outcome: Outcome)

  datatype TraceResult = TraceResult(state: State, fault: Option<Fault>)

  /** Before the first cycle: the flag is down and the file, opened with
      mode "w", is empty. */
  const Initial: State := State(false, [])

  function Texts(lines: seq<Line>): (texts: seq<string>)
    ensures |texts| == |lines|
    ensures forall i :: 0 <= i < |lines| ==> texts[i] == lines[i].text
  {
    seq(|lines|, i requires 0 <= i < |lines| => lines[i].text)
  }

  lemma TextsAppend(lines: seq<Line>, l: Line)
    ensures Texts(lines + [l]) == Texts(lines) + [l.text]
  {
    assert forall i :: 0 <= i < |lines| ==> (lines + [l])[i] == lines[i];
  }

  /** The banners `main` writes around the exception text. */
  const OpenBanner: string := "***** Exception: "
  const CloseBanner: string := " *****"

  /** The fixed text after the timestamp (a comma and the opening quote,
      then the opening banner) and after the exception text (the closing
      banner, then the closing quote). */
  const ErrorOpen: string := [',', '"'] + OpenBanner
  const ErrorClose: string := CloseBanner + ['"']

  /** The line `main` writes for a caught `ConnectionError`. */
  function ErrorLine(timestamp: string, message: string): string
  {
    timestamp + ErrorOpen + message + ErrorClose
  }

  /** The banners hold neither commas nor quotes. */
  lemma BannersPlain()
    ensures ',' !in OpenBanner && '"' !in OpenBanner
    ensures ',' !in CloseBanner && '"' !in CloseBanner
  {
    assert Plain(OpenBanner) && Plain(CloseBanner);
  }

  /** A comma and an opening quote, then a plain banner: one comma,
      outside quotes, and a reader is left inside quotes. */
  lemma {:induction false} OpenPieceOf(banner: string)
    requires ',' !in banner && '"' !in banner
    ensures Csv.Occurrences(',', [',', '"'] + banner) == 1
    ensures ',' !in ([',', '"'] + banner)[1..]
    ensures Csv.Boundaries(',', [',', '"'] + banner, false) == 1
    ensures Csv.QuotedAfter([',', '"'] + banner, false)
  {
    var lead: string := [',', '"'];
    assert ([',', '"'] + banner)[1..] == ['"'] + banner;
    Csv.OccurrencesAppend(',', lead, banner);
    Csv.OccurrencesAbsent(',', banner);
    Csv.BoundariesAppend(',', lead, banner, false);
    Csv.QuotedAfterAppend(lead, banner, false);
    Csv.BoundariesUnquoted(',', banner, true);
  }

  /** A plain banner, then a closing quote: no comma, and no boundary when
      read inside quotes. */
  lemma ClosePieceOf(banner: string)
    requires ',' !in banner && '"' !in banner
    ensures Csv.Occurrences(',', banner + ['"']) == 0 && ',' !in banner + ['"']
    ensures Csv.Boundaries(',', banner + ['"'], true) == 0
  {
    Csv.OccurrencesAbsent(',', banner + ['"']);
    Csv.BoundariesAppend(',', banner, ['"'], true);
    Csv.BoundariesUnquoted(',', banner, true);
  }

  lemma OpenPiece()
    ensures Csv.Occurrences(',', ErrorOpen) == 1 && ',' !in ErrorOpen[1..]
    ensures Csv.Boundaries(',', ErrorOpen, false) == 1 && Csv.QuotedAfter(ErrorOpen, false)
  {
    BannersPlain();
    OpenPieceOf(OpenBanner);
  }

  lemma ClosePiece()
    ensures Csv.Occurrences(',', ErrorClose) == 0 && ',' !in ErrorClose
    ensures Csv.Boundaries(',', ErrorClose, true) == 0
  {
    BannersPlain();
    ClosePieceOf(CloseBanner);
  }

  /** The part of `record_stats` after the fetches: build the list, or
      abort with the lookup error before anything is written; otherwise
      write the header line if the flag is down, raise the flag, and write
      the values line. */
  function RecordStep(s: State, sample: Sample, show: Json -> string): (r: StepResult)
    ensures r.outcome.Fatal? <==> BuildData(sample).Err?
    ensures r.outcome.Fatal? ==> r.state == s && r.outcome.fault == Extraction(BuildData(sample).error)
    ensures r.outcome.Continue? ==> r.state.headerWritten
    ensures r.outcome.Continue? ==> |r.state.lines| == |s.lines| + (if s.headerWritten then 1 else 2)
    ensures r.outcome.Continue? ==> r.state.lines[..|s.lines|] == s.lines
    ensures r.outcome.Continue? && !s.headerWritten ==>
              r.state.lines[|s.lines|].HeaderRow? && IsHeaderLine(r.state.lines[|s.lines|].text)
    ensures r.outcome.Continue? ==>
              r.state.lines[|r.state.lines| - 1] == ValuesRow(Csv.Join(',', ValuesOf(BuildData(sample).value, show)))
  {
    match BuildData(sample)
    case Err(e) => StepResult(s, Fatal(Extraction(e)))
    case Ok(data) =>
      HeaderOfData(sample);
      var header := if s.headerWritten then [] else [HeaderRow(Csv.Join(',', ColumnNamesOf(data)))];
      StepResult(State(true, s.lines + header + [ValuesRow(Csv.Join(',', ValuesOf(data, show)))]), Continue)
  }

  /** One pass of the `while True` loop of `main`. A connection error adds
      exactly the annotated error line and leaves the flag alone; every
      failure that is not caught leaves flag and output as they were. */
  function Step(s: State, e: Event, show: Json -> string): (r: StepResult)
    ensures |s.lines| <= |r.state.lines| && r.state.lines[..|s.lines|] == s.lines
    ensures r.outcome.Fatal? <==> e.FetchFailed? || (e.Sampled? && BuildData(e.sample).Err?)
    ensures r.outcome.Fatal? ==> r.state == s
    ensures e.ConnectionFailed? ==>
              r.state == State(s.headerWritten, s.lines + [ErrorRow(ErrorLine(e.timestamp, e.message))])
    ensures s.headerWritten ==> r.state.headerWritten
  {
    match e
    case Sampled(sample) => RecordStep(s, sample, show)
    case ConnectionFailed(timestamp, message) =>
      StepResult(State(s.headerWritten, s.lines + [ErrorRow(ErrorLine(timestamp, message))]), Continue)
    case FetchFailed(reason) => StepResult(s, Fatal(Uncaught(reason)))
  }

  /** The loop run over a finite sequence of passes: it stops at the first
      uncaught exception. Lines are only ever appended, and once written the
      header flag stays up. */
  function Trace(s: State, events: seq<Event>, show: Json -> string): (r: TraceResult)
    ensures |s.lines| <= |r.state.lines| && r.state.lines[..|s.lines|] == s.lines
    ensures s.headerWritten ==> r.state.headerWritten
    decreases |events|
  {
    if events == [] then TraceResult(s, None)
    else
      var step := Step(s, events[0], show);
      if step.outcome.Fatal? then TraceResult(step.state, Some(step.outcome.fault))
      else
        var r := Trace(step.state, events[1..], show);
        assert r.state.lines[..|s.lines|] == r.state.lines[..|step.state.lines|][..|s.lines|];
        r
  }

  /** The number of header lines. */
  function HeaderCount(lines: seq<Line>): nat
  {
    if lines == [] then 0
    else HeaderCount(lines[..|lines| - 1]) + (if lines[|lines| - 1].HeaderRow? then 1 else 0)
  }

  /** The shape of the output: one header line exactly when the flag is
      up, and every values line comes after it. */
  predicate HeaderFirst(s: State)
  {
    && HeaderCount(s.lines) == (if s.headerWritten then 1 else 0)
    && (forall j :: 0 <= j < |s.lines| && s.lines[j].ValuesRow? ==> HeaderCount(s.lines[..j]) == 1)
  }

  /** Every header line splits into the column names. */
  predicate HeadersRead(lines: seq<Line>)
  {
    forall i :: 0 <= i < |lines| && lines[i].HeaderRow? ==> IsHeaderLine(lines[i].text)
  }

  /** The output is well formed: header first, and it is the comma-join of
      the column names. */
  predicate WellFormed(s: State)
  {
    HeaderFirst(s) && HeadersRead(s.lines)
  }

  lemma HeaderCountAppend(lines: seq<Line>, l: Line)
    ensures HeaderCount(lines + [l]) == HeaderCount(lines) + (if l.HeaderRow? then 1 else 0)
  {
    assert (lines + [l])[..|lines|] == lines;
  }

  /** Counting headers over a longer prefix never gives fewer, and gives
      more when a header lies between the two ends. */
  lemma {:induction false} HeaderCountPrefix(lines: seq<Line>, i: nat, j: nat)
    requires i <= j <= |lines|
    ensures HeaderCount(lines[..i]) <= HeaderCount(lines[..j])
    ensures i < j && lines[i].HeaderRow? ==> HeaderCount(lines[..i]) < HeaderCount(lines[..j])
    decreases j - i
  {
    if i < j {
      HeaderCountPrefix(lines, i, j - 1);
      assert lines[..j] == lines[..j - 1] + [lines[j - 1]];
      HeaderCountAppend(lines[..j - 1], lines[j - 1]);
    }
  }

  lemma {:induction false} HeaderCountWitness(lines: seq<Line>)
    requires HeaderCount(lines) > 0
    ensures exists i :: 0 <= i < |lines| && lines[i].HeaderRow?
    decreases |lines|
  {
    var n := |lines| - 1;
    if !lines[n].HeaderRow? {
      HeaderCountWitness(lines[..n]);
      var i :| 0 <= i < n && lines[..n][i].HeaderRow?;
      assert lines[i].HeaderRow?;
    }
  }

  /** Appending an error line, or a values line once the header is out,
      keeps the header first. */
  lemma AppendKeepsHeaderFirst(s: State, l: Line)
    requires HeaderFirst(s)
    requires !l.HeaderRow? && (l.ValuesRow? ==> s.headerWritten)
    ensures HeaderFirst(State(s.headerWritten, s.lines + [l]))
  {
    var lines := s.lines + [l];
    HeaderCountAppend(s.lines, l);
    assert forall j :: 0 <= j < |s.lines| ==> lines[..j] == s.lines[..j];
    assert lines[..|s.lines|] == s.lines;
  }

  /** Before the header is written there is no values line. */
  lemma NoValuesBeforeHeader(s: State)
    requires HeaderFirst(s) && !s.headerWritten
    ensures forall j :: 0 <= j < |s.lines| ==> !s.lines[j].ValuesRow?
  {
    forall j | 0 <= j < |s.lines|
      ensures !s.lines[j].ValuesRow?
    {
      HeaderCountPrefix(s.lines, j, |s.lines|);
      assert s.lines[..|s.lines|] == s.lines;
    }
  }

  /** The first successful cycle appends the header and a values line,
      which keeps the header first. */
  lemma AppendHeaderKeepsHeaderFirst(s: State, h: Line, v: Line)
    requires HeaderFirst(s) && !s.headerWritten
    requires h.HeaderRow? && v.ValuesRow?
    ensures HeaderFirst(State(true, s.lines + [h, v]))
  {
    var n := |s.lines|;
    var lines := s.lines + [h, v];
    NoValuesBeforeHeader(s);
    HeaderCountAppend(s.lines, h);
    assert lines[..n + 1] == s.lines + [h];
    assert lines == lines[..n + 1] + [v];
    HeaderCountAppend(lines[..n + 1], v);
    assert forall j :: 0 <= j < n ==> lines[j] == s.lines[j];
  }

  /** Every pass of the loop keeps the header first. */
  lemma StepKeepsHeaderFirst(s: State, e: Event, show: Json -> string)
    requires HeaderFirst(s)
    ensures HeaderFirst(Step(s, e, show).state)
  {
    var r := Step(s, e, show);
    var n := |s.lines|;
    if r.outcome.Continue? {
      if e.ConnectionFailed? || s.headerWritten {
        assert r.state.lines == s.lines + [r.state.lines[n]];
        AppendKeepsHeaderFirst(s, r.state.lines[n]);
      } else {
        assert r.state.lines == s.lines + [r.state.lines[n], r.state.lines[n + 1]];
        AppendHeaderKeepsHeaderFirst(s, r.state.lines[n], r.state.lines[n + 1]);
      }
    }
  }

  /** Every pass of the loop writes, if anything, the same header line. */
  lemma StepKeepsHeaderText(s: State, e: Event, show: Json -> string)
    requires HeadersRead(s.lines)
    ensures HeadersRead(Step(s, e, show).state.lines)
  {
    var r := Step(s, e, show);
    var n := |s.lines|;
    forall i | 0 <= i < |r.state.lines| && r.state.lines[i].HeaderRow?
      ensures IsHeaderLine(r.state.lines[i].text)
    {
      if i < n {
        assert r.state.lines[..n][i] == s.lines[i];
      }
    }
  }

  /** Every pass of the loop keeps the output well formed. */
  lemma StepPreservesWellFormed(s: State, e: Event, show: Json -> string)
    requires WellFormed(s)
    ensures WellFormed(Step(s, e, show).state)
  {
    StepKeepsHeaderFirst(s, e, show);
    StepKeepsHeaderText(s, e, show);
  }

  /** Any run of the loop keeps the output well formed. */
  lemma {:induction false} TraceWellFormed(s: State, events: seq<Event>, show: Json -> string)
    requires WellFormed(s)
    ensures WellFormed(Trace(s, events, show).state)
    decreases |events|
  {
    if events != [] {
      StepPreservesWellFormed(s, events[0], show);
      var step := Step(s, events[0], show);
      if step.outcome.Continue? {
        TraceWellFormed(step.state, events[1..], show);
      }
    }
  }

  /** What well-formedness means line by line: at most one header line,
      a header line before every values line, and the flag up exactly when
      the header has been written. */
  lemma HeaderOnceBeforeValues(s: State)
    requires HeaderFirst(s)
    ensures forall i, j ::
              0 <= i < |s.lines| && 0 <= j < |s.lines| && s.lines[i].HeaderRow? && s.lines[j].HeaderRow? ==> i == j
    ensures forall j :: 0 <= j < |s.lines| && s.lines[j].ValuesRow? ==>
                          exists i :: 0 <= i < j && s.lines[i].HeaderRow?
    ensures s.headerWritten <==> exists i :: 0 <= i < |s.lines| && s.lines[i].HeaderRow?
  {
    var lines := s.lines;
    assert lines[..|lines|] == lines;
    forall i, j | 0 <= i < |lines| && 0 <= j < |lines| && lines[i].HeaderRow? && lines[j].HeaderRow?
      ensures i == j
    {
      if i != j {
        var lo, hi := if i < j then i else j, if i < j then j else i;
        HeaderCountPrefix(lines, 0, lo);
        HeaderCountPrefix(lines, lo, hi);
        HeaderCountPrefix(lines, hi, |lines|);
      }
    }
    forall j | 0 <= j < |lines| && lines[j].ValuesRow?
      ensures exists i :: 0 <= i < j && lines[i].HeaderRow?
    {
      HeaderCountWitness(lines[..j]);
      var i :| 0 <= i < j && lines[..j][i].HeaderRow?;
      assert lines[i].HeaderRow?;
    }
    if s.headerWritten {
      HeaderCountWitness(lines);
    }
    if exists i :: 0 <= i < |lines| && lines[i].HeaderRow? {
      var i :| 0 <= i < |lines| && lines[i].HeaderRow?;
      HeaderCountPrefix(lines, i, |lines|);
    }
  }

  /** From the start of the program, however the passes go: the header
      line is written at most once, it precedes every values line, and it
      splits into the 29 column names, which makes it the header line
      (`HeaderLineUnique`). */
  lemma HeaderWrittenOnce(events: seq<Event>, show: Json -> string)
    ensures var out := Trace(Initial, events, show).state.lines;
            && (forall i, j ::
                  0 <= i < |out| && 0 <= j < |out| && out[i].HeaderRow? && out[j].HeaderRow? ==> i == j)
            && (forall j :: 0 <= j < |out| && out[j].ValuesRow? ==>
                              exists i :: 0 <= i < j && out[i].HeaderRow?)
            && (forall i :: 0 <= i < |out| && out[i].HeaderRow? ==> IsHeaderLine(out[i].text))
  {
    TraceWellFormed(Initial, events, show);
    HeaderOnceBeforeValues(Trace(Initial, events, show).state);
  }

  /** A pass the loop survives: a connection error, or a sample from which
      the whole list can be built. */
  predicate Survivable(e: Event)
  {
    e.ConnectionFailed? || (e.Sampled? && BuildData(e.sample).Ok?)
  }

  /** Over passes that all survive, the output grows by one line per pass,
      plus the header line once, at the first successful sample, if it had
      not been written yet. */
  lemma {:induction false} LineCount(s: State, events: seq<Event>, show: Json -> string)
    requires forall i :: 0 <= i < |events| ==> Survivable(events[i])
    ensures Trace(s, events, show).fault == None
    ensures |Trace(s, events, show).state.lines| ==
              |s.lines| + |events| +
              (if !s.headerWritten && exists i :: 0 <= i < |events| && events[i].Sampled? then 1 else 0)
    decreases |events|
  {
    if events != [] {
      var step := Step(s, events[0], show);
      var rest := events[1..];
      assert forall i :: 0 <= i < |rest| ==> rest[i] == events[i + 1];
      LineCount(step.state, rest, show);
      if !s.headerWritten && !events[0].Sampled? {
        if exists i :: 0 <= i < |events| && events[i].Sampled? {
          var i :| 0 <= i < |events| && events[i].Sampled?;
          assert rest[i - 1].Sampled?;
        }
      }
    }
  }

  /** A caught error line splits into two fields when neither the
      timestamp nor the exception text holds a comma. */
  lemma ErrorLineFields(timestamp: string, message: string)
    requires ',' !in timestamp && ',' !in message
    ensures Csv.Split(',', ErrorLine(timestamp, message)) ==
            [timestamp, ['"'] + OpenBanner + message + CloseBanner + ['"']]
  {
    OpenPiece();
    ClosePiece();
    var rest := ErrorOpen[1..] + message + ErrorClose;
    assert ErrorLine(timestamp, message) == timestamp + [','] + rest;
    assert rest == ['"'] + OpenBanner + message + CloseBanner + ['"'];
    assert ',' !in rest;
    Csv.SplitLeadingField(',', timestamp, rest);
    Csv.SplitField(',', rest);
  }

  /** `split` breaks the error line at every comma of the timestamp and of
      the exception text, and at the one after the timestamp. */
  lemma ErrorLineFieldCount(timestamp: string, message: string)
    ensures |Csv.Split(',', ErrorLine(timestamp, message))| ==
            Csv.Occurrences(',', timestamp) + Csv.Occurrences(',', message) + 2
  {
    OpenPiece();
    ClosePiece();
    Csv.OccurrencesAppend(',', timestamp, ErrorOpen);
    Csv.OccurrencesAppend(',', timestamp + ErrorOpen, message);
    Csv.OccurrencesAppend(',', timestamp + ErrorOpen + message, ErrorClose);
  }

  /** So an exception text holding 27 commas gives an error line that
      `split` cuts into as many fields as the header line. */
  lemma ErrorLineAsWideAsHeader(timestamp: string, message: string)
    requires ',' !in timestamp
    requires Csv.Occurrences(',', message) == |ColumnNames| - 2
    ensures |Csv.Split(',', ErrorLine(timestamp, message))| == |Csv.Split(',', HeaderLine())|
  {
    ErrorLineFieldCount(timestamp, message);
    Csv.OccurrencesAbsent(',', timestamp);
    HeaderFields();
  }

  /** A CSV reader honours the quotes `main` puts around the exception
      text. Whatever commas the text holds, it sees two fields in an error
      line, unlike the 29 of the header line, as long as neither the
      timestamp nor the text holds a double quote. */
  lemma ErrorLineIsNotARow(timestamp: string, message: string)
    requires ',' !in timestamp && '"' !in timestamp && '"' !in message
    ensures Csv.QuotedFieldCount(',', ErrorLine(timestamp, message)) == 2
    ensures Csv.QuotedFieldCount(',', ErrorLine(timestamp, message)) != Csv.QuotedFieldCount(',', HeaderLine())
  {
    OpenPiece();
    ClosePiece();
    Csv.OccurrencesAbsent(',', timestamp);
    Csv.BoundariesUnquoted(',', timestamp, false);
    Csv.BoundariesUnquoted(',', message, true);
    Csv.BoundariesAppend(',', timestamp, ErrorOpen, false);
    Csv.QuotedAfterAppend(timestamp, ErrorOpen, false);
    Csv.BoundariesAppend(',', timestamp + ErrorOpen, message, false);
    Csv.QuotedAfterAppend(timestamp + ErrorOpen, message, false);
    Csv.BoundariesAppend(',', timestamp + ErrorOpen + message, ErrorClose, false);
    HeaderQuotedFields();
  }

  /** The monitor's mutable state: the `header` flag and the output stream,
      with each written line's kind kept alongside as ghost state. */
  class Recorder {
    var headerWritten: bool
    var output: seq<string>
    ghost var lines: seq<Line>

    ghost function Current(): State
      reads this
    {
      State(headerWritten, lines)
    }

    ghost predicate Valid()
      reads this
    {
      output == Texts(lines) && WellFormed(Current())
    }

    constructor ()
      ensures Valid() && Current() == Initial && output == []
    {
      headerWritten := false;
      output := [];
      lines := [];
    }

    /** Appends one line of the given kind to the output stream. */
    method Write(line: Line)
      modifies this
      ensures headerWritten == old(headerWritten)
      ensures lines == old(lines) + [line] && output == old(output) + [line.text]
      ensures old(output) == Texts(old(lines)) ==> output == Texts(lines)
    {
      output := output + [line.text];
      lines := lines + [line];
      TextsAppend(old(lines), line);
    }

    /** `record_stats` once the fetches have returned. */
    method RecordStats(sample: Sample, show: Json -> string) returns (outcome: Outcome)
      requires Valid()
      modifies this
      ensures Valid()
      ensures Current() == RecordStep(old(Current()), sample, show).state
      ensures outcome == RecordStep(old(Current()), sample, show).outcome
    {
      var built := BuildData(sample);
      if built.Err? {
        return Fatal(Extraction(built.error));
      }
      var columnNames, values := SplitData(built.value, show);
      assert columnNames == ColumnNamesOf(built.value);
      assert values == ValuesOf(built.value, show);
      if !headerWritten {
        var headerLine := Csv.Join(',', columnNames);
        Write(HeaderRow(headerLine));
        headerWritten := true;
      }
      var valuesLine := Csv.Join(',', values);
      Write(ValuesRow(valuesLine));
      outcome := Continue;
      StepPreservesWellFormed(old(Current()), Sampled(sample), show);
    }

    /** The body of the `while True` loop of `main`, without the sleep. */
    method Cycle(event: Event, show: Json -> string) returns (outcome: Outcome)
      requires Valid()
      modifies this
      ensures Valid()
      ensures Current() == Step(old(Current()), event, show).state
      ensures outcome == Step(old(Current()), event, show).outcome
    {
      match event
      case Sampled(sample) =>
        outcome := RecordStats(sample, show);
      case ConnectionFailed(timestamp, message) =>
        Write(ErrorRow(ErrorLine(timestamp, message)));
        outcome := Continue;
        StepPreservesWellFormed(old(Current()), event, show);
      case FetchFailed(reason) =>
        outcome := Fatal(Uncaught(reason));
    }

    /** The loop run over the given passes, until the first exception that
      is not caught. */
    method RunCycles(events: seq<Event>, show: Json -> string) returns (fault: Option<Fault>)
      requires Valid()
      modifies this
      ensures Valid()
      ensures Current() == Trace(old(Current()), events, show).state
      ensures fault == Trace(old(Current()), events, show).fault
    {
      var i := 0;
      while i < |events|
        invariant 0 <= i <= |events| && Valid()
        invariant Trace(old(Current()), events, show) == Trace(Current(), events[i..], show)
        decreases |events| - i
      {
        ghost var before := Current();
        assert events[i..][0] == events[i] && events[i..][1..] == events[i + 1..];
        var outcome := Cycle(events[i], show);
        if outcome.Fatal? {
          return Some(outcome.fault);
        }
        i := i + 1;
      }
      return None;
    }
  }

  /** How a run of the program ends, as far as it has been followed:
      the usage message, an interval that is not an integer, no address for
      the target, an exception out of the loop, or still sampling. */
  datatype Termination = UsageError | BadInterval | NoTargetAddress | Crashed(fault: Fault) | StillSampling

  datatype Exit = Exit(termination: Termination, outputOpened: bool, output: seq<string>)

  /** The process exit status: 1 for the usage message (`sys.exit(1)`) and
      for any uncaught exception, 0 when `main` returns. */
  function ExitStatus(t: Termination): int
    requires !t.StillSampling?
  {
    match t
    case NoTargetAddress => 0
    case _ => 1
  }

  /** `main`: check the argument count, parse the interval, open the
      output, resolve the target and loop. `intervalParses` stands for
      `int(sys.argv[1])` succeeding and `resolved` for the A-record query
      returning a record set. */
  method Launch(argv: seq<string>, intervalParses: bool, resolved: bool, events: seq<Event>, show: Json -> string)
    returns (r: Exit)
    ensures |argv| != 3 ==> r == Exit(UsageError, false, []) && ExitStatus(r.termination) == 1
    ensures |argv| == 3 && !intervalParses ==> r == Exit(BadInterval, false, [])
    ensures |argv| == 3 && intervalParses ==> r.outputOpened
    ensures |argv| == 3 && intervalParses && !resolved ==> r.termination == NoTargetAddress && r.output == []
    ensures |argv| == 3 && intervalParses && resolved ==>
              r.output == Texts(Trace(Initial, events, show).state.lines) &&
              r.termination == match Trace(Initial, events, show).fault
                               case None => StillSampling
                               case Some(f) => Crashed(f)
    ensures !r.termination.StillSampling? ==>
              (ExitStatus(r.termination) == 1 <==>
                 |argv| != 3 || !intervalParses || (resolved && Trace(Initial, events, show).fault.Some?))
    ensures r.termination.StillSampling? <==>
              |argv| == 3 && intervalParses && resolved && Trace(Initial, events, show).fault.None?
  {
    if |argv| != 3 {
      return Exit(UsageError, false, []);
    }
    if !intervalParses {
      return Exit(BadInterval, false, []);
    }
    var recorder := new Recorder();
    if !resolved {
      return Exit(NoTargetAddress, true, recorder.output);
    }
    var fault := recorder.RunCycles(events, show);
    var termination := match fault
      case None => StillSampling
      case Some(f) => Crashed(f);
    r := Exit(termination, true, recorder.output);
  }
}
