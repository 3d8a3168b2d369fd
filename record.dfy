/** The sample record of one cycle: the fixed list of 29 named fields of
    `record_stats`, where each value comes from, how the list is evaluated,
    and how it is split into a header line and a values line. */
module Record {
  import opened Json
  import Csv

  /** The five values measured by the monitor itself rather than read from
      the router. */
  datatype Measurement = Now | RttAvgMs | RetrievalSeconds | StatusCode | PageSize

  /** The two router documents: the radio status and the statistics page. */
  datatype Document = RadioStatus | Statistics

  datatype Source = Measured(m: Measurement) | Router(doc: Document, path: seq<Selector>)

  datatype Field = Field(name: string, source: Source)

  /** What one cycle has fetched: the measured values, each already in the
      text form `str()` gives it, and the two parsed router documents. */
  datatype Sample = Sample(
    now: string,
    rttAvgMs: string,
    retrievalSeconds: string,
    statusCode: string,
    pageSize: string,
    radioStatus: Json,
    statistics: Json)

  /** An entry of the `data` list before `str()`: its name and its value. */
  datatype Value = Text(text: string) | Doc(json: Json)
  datatype Entry = Entry(name: string, value: Value)

  function CellularPath(key: string): Source
  {
    Router(RadioStatus, [Key("cellular_stats"), Index(0), Key(key)])
  }

  function Cell5GPath(key: string): Source
  {
    Router(RadioStatus, [Key("cell_5G_stats_cfg"), Index(0), Key("stat"), Key(key)])
  }

  function CellLtePath(key: string): Source
  {
    Router(RadioStatus, [Key("cell_LTE_stats_cfg"), Index(0), Key("stat"), Key(key)])
  }

  function WanPath(key: string): Source
  {
    Router(Statistics, [Key("WAN"), Index(0), Key("Service"), Index(0), Key(key)])
  }

  /** The column names of the `data` list of `record_stats`, in order. */
  const ColumnNames: seq<string> := [
    "datetime",
    "ping_time",
    "web_page_retrieval_seconds",
    "web_page_status",
    "web_page_size",
    "cellular_bytes_received",
    "cellular_bytes_sent",
    "cell_5g_stats_PhysicalCellID",
    "cell_5g_stats_SNRCurrent",
    "cell_5g_stats_RSRPCurrent",
    "cell_5g_stats_RSRQCurrent",
    "cell_5g_stats_RSRPStrengthIndexCurrent",
    "cell_5g_stats_Downlink_NR_ARFCN",
    "cell_5g_stats_Band",
    "cell_lte_stats_PhysicalCellID",
    "cell_lte_stats_SNRCurrent",
    "cell_lte_stats_RSRPCurrent",
    "cell_lte_stats_RSRQCurrent",
    "cell_lte_stats_RSRPStrengthIndexCurrent",
    "cell_lte_stats_DownlinkEarfcn",
    "cell_lte_stats_Band",
    "cellular_stats_bytes_sent",
    "cellular_stats_bytes_received",
    "cellular_stats_packets_sent",
    "cellular_stats_packets_received",
    "cellular_stats_errors_sent",
    "cellular_stats_errors_received",
    "cellular_stats_discard_packets_sent",
    "cellular_stats_discard_packets_received"
  ]

  /** Where the value of each column comes from, in the same order. */
  const Sources: seq<Source> := [
    Measured(Now),                             // datetime
    Measured(RttAvgMs),                        // ping_time
    Measured(RetrievalSeconds),                // web_page_retrieval_seconds
    Measured(StatusCode),                      // web_page_status
    Measured(PageSize),                        // web_page_size
    CellularPath("BytesReceived"),             // cellular_bytes_received
    CellularPath("BytesSent"),                 // cellular_bytes_sent
    Cell5GPath("PhysicalCellID"),              // cell_5g_stats_PhysicalCellID
    Cell5GPath("SNRCurrent"),                  // cell_5g_stats_SNRCurrent
    Cell5GPath("RSRPCurrent"),                 // cell_5g_stats_RSRPCurrent
    Cell5GPath("RSRQCurrent"),                 // cell_5g_stats_RSRQCurrent
    Cell5GPath("RSRPStrengthIndexCurrent"),    // cell_5g_stats_RSRPStrengthIndexCurrent
    Cell5GPath("Downlink_NR_ARFCN"),           // cell_5g_stats_Downlink_NR_ARFCN
    Cell5GPath("Band"),                        // cell_5g_stats_Band
    CellLtePath("PhysicalCellID"),             // cell_lte_stats_PhysicalCellID
    CellLtePath("SNRCurrent"),                 // cell_lte_stats_SNRCurrent
    CellLtePath("RSRPCurrent"),                // cell_lte_stats_RSRPCurrent
    CellLtePath("RSRQCurrent"),                // cell_lte_stats_RSRQCurrent
    CellLtePath("RSRPStrengthIndexCurrent"),   // cell_lte_stats_RSRPStrengthIndexCurrent
    CellLtePath("DownlinkEarfcn"),             // cell_lte_stats_DownlinkEarfcn
    CellLtePath("Band"),                       // cell_lte_stats_Band
    WanPath("EthernetBytesSent"),              // cellular_stats_bytes_sent
    WanPath("EthernetBytesReceived"),          // cellular_stats_bytes_received
    WanPath("EthernetPacketsSent"),            // cellular_stats_packets_sent
    WanPath("EthernetPacketsReceived"),        // cellular_stats_packets_received
    WanPath("EthernetErrorsSent"),             // cellular_stats_errors_sent
    WanPath("EthernetErrorsReceived"),         // cellular_stats_errors_received
    WanPath("EthernetDiscardPacketsSent"),     // cellular_stats_discard_packets_sent
    WanPath("EthernetDiscardPacketsReceived")  // cellular_stats_discard_packets_received
  ]

  /** The keys each group of router entries looks up, in list order. */
  const CellularKeys: seq<string> := ["BytesReceived", "BytesSent"]
  const Stat5GKeys: seq<string> := ["PhysicalCellID", "SNRCurrent", "RSRPCurrent", "RSRQCurrent", "RSRPStrengthIndexCurrent", "Downlink_NR_ARFCN", "Band"]
  const StatLteKeys: seq<string> := ["PhysicalCellID", "SNRCurrent", "RSRPCurrent", "RSRQCurrent", "RSRPStrengthIndexCurrent", "DownlinkEarfcn", "Band"]
  const ServiceKeys: seq<string> := ["EthernetBytesSent", "EthernetBytesReceived", "EthernetPacketsSent", "EthernetPacketsReceived", "EthernetErrorsSent", "EthernetErrorsReceived", "EthernetDiscardPacketsSent", "EthernetDiscardPacketsReceived"]

  /** Entries 5 and 6 read `radio_status['cellular_stats'][0]` at the cellular keys. */
  lemma CellularEntries()
    ensures forall n :: 0 <= n < |CellularKeys| ==> Sources[5 + n] == CellularPath(CellularKeys[n])
  {
    assert Sources[5] == CellularPath(CellularKeys[0]);
    assert Sources[6] == CellularPath(CellularKeys[1]);
    forall n | 0 <= n < |CellularKeys| ensures Sources[5 + n] == CellularPath(CellularKeys[n]) {
      assert n == 0 || n == 1;
    }
  }

  /** Entries 7 to 13 read the 5G `stat` table at its keys, in order. */
  lemma Cell5GEntries()
    ensures forall n :: 0 <= n < |Stat5GKeys| ==> Sources[7 + n] == Cell5GPath(Stat5GKeys[n])
  {
    assert Sources[7] == Cell5GPath(Stat5GKeys[0]);
    assert Sources[8] == Cell5GPath(Stat5GKeys[1]);
    assert Sources[9] == Cell5GPath(Stat5GKeys[2]);
    assert Sources[10] == Cell5GPath(Stat5GKeys[3]);
    assert Sources[11] == Cell5GPath(Stat5GKeys[4]);
    assert Sources[12] == Cell5GPath(Stat5GKeys[5]);
    assert Sources[13] == Cell5GPath(Stat5GKeys[6]);
    forall n | 0 <= n < |Stat5GKeys| ensures Sources[7 + n] == Cell5GPath(Stat5GKeys[n]) {
      assert n == 0 || n == 1 || n == 2 || n == 3 || n == 4 || n == 5 || n == 6;
    }
  }

  /** Entries 14 to 20 read the LTE `stat` table at its keys, in order. */
  lemma CellLteEntries()
    ensures forall n :: 0 <= n < |StatLteKeys| ==> Sources[14 + n] == CellLtePath(StatLteKeys[n])
  {
    assert Sources[14] == CellLtePath(StatLteKeys[0]);
    assert Sources[15] == CellLtePath(StatLteKeys[1]);
    assert Sources[16] == CellLtePath(StatLteKeys[2]);
    assert Sources[17] == CellLtePath(StatLteKeys[3]);
    assert Sources[18] == CellLtePath(StatLteKeys[4]);
    assert Sources[19] == CellLtePath(StatLteKeys[5]);
    assert Sources[20] == CellLtePath(StatLteKeys[6]);
    forall n | 0 <= n < |StatLteKeys| ensures Sources[14 + n] == CellLtePath(StatLteKeys[n]) {
      assert n == 0 || n == 1 || n == 2 || n == 3 || n == 4 || n == 5 || n == 6;
    }
  }

  /** Entries 21 to 28 read `statistics['WAN'][0]['Service'][0]` at its keys, in order. */
  lemma WanEntries()
    ensures forall n :: 0 <= n < |ServiceKeys| ==> Sources[21 + n] == WanPath(ServiceKeys[n])
  {
    assert Sources[21] == WanPath(ServiceKeys[0]);
    assert Sources[22] == WanPath(ServiceKeys[1]);
    assert Sources[23] == WanPath(ServiceKeys[2]);
    assert Sources[24] == WanPath(ServiceKeys[3]);
    assert Sources[25] == WanPath(ServiceKeys[4]);
    assert Sources[26] == WanPath(ServiceKeys[5]);
    assert Sources[27] == WanPath(ServiceKeys[6]);
    assert Sources[28] == WanPath(ServiceKeys[7]);
    forall n | 0 <= n < |ServiceKeys| ensures Sources[21 + n] == WanPath(ServiceKeys[n]) {
      assert n == 0 || n == 1 || n == 2 || n == 3 || n == 4 || n == 5 || n == 6 || n == 7;
    }
  }

  /** The five measured entries yield the five measurements, in the order
      of the list, and the other 24 entries are lookups: entries 5 to 20
      into the radio status, entries 21 to 28 into the statistics. */
  lemma SourcesTable(sample: Sample)
    ensures |Sources| == 29
    ensures Resolve(Sources[0], sample) == Ok(Text(sample.now))
    ensures Resolve(Sources[1], sample) == Ok(Text(sample.rttAvgMs))
    ensures Resolve(Sources[2], sample) == Ok(Text(sample.retrievalSeconds))
    ensures Resolve(Sources[3], sample) == Ok(Text(sample.statusCode))
    ensures Resolve(Sources[4], sample) == Ok(Text(sample.pageSize))
    ensures forall i :: 5 <= i < 21 ==> Sources[i].Router? && Sources[i].doc == RadioStatus
    ensures forall i :: 21 <= i < |Sources| ==> Sources[i].Router? && Sources[i].doc == Statistics
  {
    MeasuredSources();
    RadioSources();
    StatisticsSources();
  }

  lemma MeasuredSources()
    ensures |Sources| == 29
    ensures Sources[0] == Measured(Now) && Sources[1] == Measured(RttAvgMs)
    ensures Sources[2] == Measured(RetrievalSeconds) && Sources[3] == Measured(StatusCode)
    ensures Sources[4] == Measured(PageSize)
  {
  }

  lemma RadioSources()
    ensures forall i :: 5 <= i < 21 ==> Sources[i].Router? && Sources[i].doc == RadioStatus
  {
    CellularEntries();
    Cell5GEntries();
    CellLteEntries();
    forall i | 5 <= i < 21 ensures Sources[i].Router? && Sources[i].doc == RadioStatus {
      if i < 7 {
        assert Sources[5 + (i - 5)] == CellularPath(CellularKeys[i - 5]);
      } else if i < 14 {
        assert Sources[7 + (i - 7)] == Cell5GPath(Stat5GKeys[i - 7]);
      } else {
        assert Sources[14 + (i - 14)] == CellLtePath(StatLteKeys[i - 14]);
      }
    }
  }

  lemma StatisticsSources()
    ensures forall i :: 21 <= i < |Sources| ==> Sources[i].Router? && Sources[i].doc == Statistics
  {
    WanEntries();
    forall i | 21 <= i < |Sources| ensures Sources[i].Router? && Sources[i].doc == Statistics {
      assert Sources[21 + (i - 21)] == WanPath(ServiceKeys[i - 21]);
    }
  }

  /** Pairs each name with the source at the same position. */
  function Pair(names: seq<string>, sources: seq<Source>): (fields: seq<Field>)
    requires |names| == |sources|
    ensures |fields| == |names|
    ensures forall i :: 0 <= i < |names| ==> fields[i] == Field(names[i], sources[i])
  {
    seq(|names|, i requires 0 <= i < |names| => Field(names[i], sources[i]))
  }

  /** The `data` list itself: each column name with its source. */
  const Fields: seq<Field> := Pair(ColumnNames, Sources)

  function DocumentOf(doc: Document, sample: Sample): Json
  {
    match doc
    case RadioStatus => sample.radioStatus
    case Statistics => sample.statistics
  }

  /** The value of one entry of the list; only router lookups can fail. */
  function Resolve(source: Source, sample: Sample): (r: Result<Value>)
    ensures source == Measured(Now) ==> r == Ok(Text(sample.now))
    ensures source == Measured(RttAvgMs) ==> r == Ok(Text(sample.rttAvgMs))
    ensures source == Measured(RetrievalSeconds) ==> r == Ok(Text(sample.retrievalSeconds))
    ensures source == Measured(StatusCode) ==> r == Ok(Text(sample.statusCode))
    ensures source == Measured(PageSize) ==> r == Ok(Text(sample.pageSize))
    ensures source.Router? ==> (r.Ok? <==> Lookup(DocumentOf(source.doc, sample), source.path).Ok?)
    ensures source.Router? && r.Ok? ==> r.value == Doc(Lookup(DocumentOf(source.doc, sample), source.path).value)
    ensures source.Router? && r.Err? ==> r.error == Lookup(DocumentOf(source.doc, sample), source.path).error
  {
    match source
    case Measured(Now) => Ok(Text(sample.now))
    case Measured(RttAvgMs) => Ok(Text(sample.rttAvgMs))
    case Measured(RetrievalSeconds) => Ok(Text(sample.retrievalSeconds))
    case Measured(StatusCode) => Ok(Text(sample.statusCode))
    case Measured(PageSize) => Ok(Text(sample.pageSize))
    case Router(doc, path) =>
      match Lookup(DocumentOf(doc, sample), path)
      case Err(e) => Err(e)
      case Ok(j) => Ok(Doc(j))
  }

  /** Entry k is the first of `fields` whose value cannot be resolved, and
      it fails with `e`. */
  predicate FirstFailure(fields: seq<Field>, sample: Sample, k: int, e: LookupError)
  {
    && 0 <= k < |fields|
    && Resolve(fields[k].source, sample) == Err(e)
    && forall i :: 0 <= i < k ==> Resolve(fields[i].source, sample).Ok?
  }

  /** Evaluates the entries of a list literal left to right, as Python
      does: either every entry resolves and the result pairs each name with
      its value in order, or the first entry that fails decides the error. */
  function BuildFrom(fields: seq<Field>, sample: Sample): (r: Result<seq<Entry>>)
    ensures r.Ok? <==> forall i :: 0 <= i < |fields| ==> Resolve(fields[i].source, sample).Ok?
    ensures r.Ok? ==> |r.value| == |fields|
    ensures r.Ok? ==> forall i :: 0 <= i < |fields| ==>
                        r.value[i] == Entry(fields[i].name, Resolve(fields[i].source, sample).value)
    ensures r.Err? ==> exists k :: FirstFailure(fields, sample, k, r.error)
    decreases |fields|
  {
    if fields == [] then Ok([])
    else match Resolve(fields[0].source, sample)
      case Err(e) =>
        assert FirstFailure(fields, sample, 0, e);
        Err(e)
      case Ok(v) =>
        match BuildFrom(fields[1..], sample)
        case Err(e) =>
          ghost var k :| FirstFailure(fields[1..], sample, k, e);
          assert FirstFailure(fields, sample, k + 1, e);
          Err(e)
        case Ok(rest) => Ok([Entry(fields[0].name, v)] + rest)
  }

  /** The `data` list of one cycle, or the lookup error that aborts it. */
  function BuildData(sample: Sample): Result<seq<Entry>>
  {
    BuildFrom(Fields, sample)
  }

  /** `str(value)`, with the rendering of a JSON value given as `show`. */
  function Str(v: Value, show: Json -> string): string
  {
    match v
    case Text(t) => t
    case Doc(j) => show(j)
  }

  function ColumnNamesOf(data: seq<Entry>): seq<string>
  {
    seq(|data|, i requires 0 <= i < |data| => data[i].name)
  }

  function ValuesOf(data: seq<Entry>, show: Json -> string): seq<string>
  {
    seq(|data|, i requires 0 <= i < |data| => Str(data[i].value, show))
  }

  /** The loop that splits the `[name, value]` pairs into `column_names`
      and `values`: entry i of each comes from entry i of the data. */
  method SplitData(data: seq<Entry>, show: Json -> string) returns (columnNames: seq<string>, values: seq<string>)
    ensures |columnNames| == |data| && |values| == |data|
    ensures forall i :: 0 <= i < |data| ==> columnNames[i] == data[i].name
    ensures forall i :: 0 <= i < |data| ==> values[i] == Str(data[i].value, show)
  {
    columnNames, values := [], [];
    for n := 0 to |data|
      invariant |columnNames| == n && |values| == n
      invariant forall i :: 0 <= i < n ==> columnNames[i] == data[i].name
      invariant forall i :: 0 <= i < n ==> values[i] == Str(data[i].value, show)
    {
      columnNames := columnNames + [data[n].name];
      values := values + [Str(data[n].value, show)];
    }
  }

  /** The header line written before the first values line. */
  function HeaderLine(): string
  {
    Csv.Join(',', ColumnNames)
  }

  /** Every successful cycle yields the column names in the order of the
      list, whatever the documents hold. */
  lemma DataNamesAreColumns(sample: Sample)
    requires BuildData(sample).Ok?
    ensures ColumnNamesOf(BuildData(sample).value) == ColumnNames
  {
  }

  /** A header line: one that splits into exactly the column names. */
  predicate IsHeaderLine(line: string)
  {
    Csv.Split(',', line) == ColumnNames
  }

  /** The header line is the only line that splits into the column names. */
  lemma HeaderLineUnique(line: string)
    ensures IsHeaderLine(line) <==> line == HeaderLine()
  {
    HeaderFields();
    if IsHeaderLine(line) {
      Csv.JoinSplit(',', line);
    }
  }

  /** The header line built from a successful cycle's data is that line. */
  lemma HeaderOfData(sample: Sample)
    requires BuildData(sample).Ok?
    ensures IsHeaderLine(Csv.Join(',', ColumnNamesOf(BuildData(sample).value)))
  {
    DataNamesAreColumns(sample);
    HeaderFields();
  }

  /** A name that holds neither a comma nor a double quote. */
  predicate Plain(name: string)
  {
    forall k :: 0 <= k < |name| ==> name[k] != ',' && name[k] != '"'
  }

  /** There are 29 columns, none of whose names holds a comma or a double
      quote. The names are checked four at a time, each against its
      literal, because one proof over all 29 literals is beyond the
      solver's budget; the final case split only gathers those facts. */
  lemma ColumnNamesPlain()
    ensures |ColumnNames| == 29
    ensures forall i :: 0 <= i < |ColumnNames| ==> ',' !in ColumnNames[i]
    ensures forall i :: 0 <= i < |ColumnNames| ==> '"' !in ColumnNames[i]
  {
    NamesPlain0();
    NamesPlain4();
    NamesPlain8();
    NamesPlain12();
    NamesPlain16();
    NamesPlain20();
    NamesPlain24();
    NamesPlain28();
    forall i | 0 <= i < |ColumnNames| ensures Plain(ColumnNames[i]) {
      assert i == 0 || i == 1 || i == 2 || i == 3 || i == 4 || i == 5 || i == 6 || i == 7 || i == 8 || i == 9 || i == 10 || i == 11 || i == 12 || i == 13 || i == 14 || i == 15 || i == 16 || i == 17 || i == 18 || i == 19 || i == 20 || i == 21 || i == 22 || i == 23 || i == 24 || i == 25 || i == 26 || i == 27 || i == 28;
    }
  }

  lemma NamesPlain0()
    ensures Plain(ColumnNames[0]) && Plain(ColumnNames[1]) && Plain(ColumnNames[2]) && Plain(ColumnNames[3])
  {
    assert ColumnNames[0] == "datetime" && Plain("datetime");
    assert ColumnNames[1] == "ping_time" && Plain("ping_time");
    assert ColumnNames[2] == "web_page_retrieval_seconds" && Plain("web_page_retrieval_seconds");
    assert ColumnNames[3] == "web_page_status" && Plain("web_page_status");
  }

  lemma NamesPlain4()
    ensures Plain(ColumnNames[4]) && Plain(ColumnNames[5]) && Plain(ColumnNames[6]) && Plain(ColumnNames[7])
  {
    assert ColumnNames[4] == "web_page_size" && Plain("web_page_size");
    assert ColumnNames[5] == "cellular_bytes_received" && Plain("cellular_bytes_received");
    assert ColumnNames[6] == "cellular_bytes_sent" && Plain("cellular_bytes_sent");
    assert ColumnNames[7] == "cell_5g_stats_PhysicalCellID" && Plain("cell_5g_stats_PhysicalCellID");
  }

  lemma NamesPlain8()
    ensures Plain(ColumnNames[8]) && Plain(ColumnNames[9]) && Plain(ColumnNames[10]) && Plain(ColumnNames[11])
  {
    assert ColumnNames[8] == "cell_5g_stats_SNRCurrent" && Plain("cell_5g_stats_SNRCurrent");
    assert ColumnNames[9] == "cell_5g_stats_RSRPCurrent" && Plain("cell_5g_stats_RSRPCurrent");
    assert ColumnNames[10] == "cell_5g_stats_RSRQCurrent" && Plain("cell_5g_stats_RSRQCurrent");
    assert ColumnNames[11] == "cell_5g_stats_RSRPStrengthIndexCurrent" && Plain("cell_5g_stats_RSRPStrengthIndexCurrent");
  }

  lemma NamesPlain12()
    ensures Plain(ColumnNames[12]) && Plain(ColumnNames[13]) && Plain(ColumnNames[14]) && Plain(ColumnNames[15])
  {
    assert ColumnNames[12] == "cell_5g_stats_Downlink_NR_ARFCN" && Plain("cell_5g_stats_Downlink_NR_ARFCN");
    assert ColumnNames[13] == "cell_5g_stats_Band" && Plain("cell_5g_stats_Band");
    assert ColumnNames[14] == "cell_lte_stats_PhysicalCellID" && Plain("cell_lte_stats_PhysicalCellID");
    assert ColumnNames[15] == "cell_lte_stats_SNRCurrent" && Plain("cell_lte_stats_SNRCurrent");
  }

  lemma NamesPlain16()
    ensures Plain(ColumnNames[16]) && Plain(ColumnNames[17]) && Plain(ColumnNames[18]) && Plain(ColumnNames[19])
  {
    assert ColumnNames[16] == "cell_lte_stats_RSRPCurrent" && Plain("cell_lte_stats_RSRPCurrent");
    assert ColumnNames[17] == "cell_lte_stats_RSRQCurrent" && Plain("cell_lte_stats_RSRQCurrent");
    assert ColumnNames[18] == "cell_lte_stats_RSRPStrengthIndexCurrent" && Plain("cell_lte_stats_RSRPStrengthIndexCurrent");
    assert ColumnNames[19] == "cell_lte_stats_DownlinkEarfcn" && Plain("cell_lte_stats_DownlinkEarfcn");
  }

  lemma NamesPlain20()
    ensures Plain(ColumnNames[20]) && Plain(ColumnNames[21]) && Plain(ColumnNames[22]) && Plain(ColumnNames[23])
  {
    assert ColumnNames[20] == "cell_lte_stats_Band" && Plain("cell_lte_stats_Band");
    assert ColumnNames[21] == "cellular_stats_bytes_sent" && Plain("cellular_stats_bytes_sent");
    assert ColumnNames[22] == "cellular_stats_bytes_received" && Plain("cellular_stats_bytes_received");
    assert ColumnNames[23] == "cellular_stats_packets_sent" && Plain("cellular_stats_packets_sent");
  }

  lemma NamesPlain24()
    ensures Plain(ColumnNames[24]) && Plain(ColumnNames[25]) && Plain(ColumnNames[26]) && Plain(ColumnNames[27])
  {
    assert ColumnNames[24] == "cellular_stats_packets_received" && Plain("cellular_stats_packets_received");
    assert ColumnNames[25] == "cellular_stats_errors_sent" && Plain("cellular_stats_errors_sent");
    assert ColumnNames[26] == "cellular_stats_errors_received" && Plain("cellular_stats_errors_received");
    assert ColumnNames[27] == "cellular_stats_discard_packets_sent" && Plain("cellular_stats_discard_packets_sent");
  }

  lemma NamesPlain28()
    ensures Plain(ColumnNames[28])
  {
    assert ColumnNames[28] == "cellular_stats_discard_packets_received" && Plain("cellular_stats_discard_packets_received");
  }

  /** The header line splits back into the 29 column names, in order. */
  lemma HeaderFields()
    ensures Csv.Split(',', HeaderLine()) == ColumnNames
    ensures |Csv.Split(',', HeaderLine())| == 29
  {
    ColumnNamesPlain();
    Csv.SplitJoin(',', ColumnNames);
  }

  /** A CSV reader, too, sees 29 fields in the header line. */
  lemma HeaderQuotedFields()
    ensures Csv.QuotedFieldCount(',', HeaderLine()) == 29
  {
    ColumnNamesPlain();
    Csv.JoinAbsent('"', ',', ColumnNames);
    Csv.QuotedFieldCountUnquoted(',', HeaderLine());
    HeaderFields();
  }

  /** When no value text holds a comma, the values line of a successful
      cycle splits into its values, as many fields as the header line. */
  lemma ValuesLineFields(sample: Sample, show: Json -> string)
    requires BuildData(sample).Ok?
    requires forall i :: 0 <= i < |ValuesOf(BuildData(sample).value, show)| ==>
               ',' !in ValuesOf(BuildData(sample).value, show)[i]
    ensures Csv.Split(',', Csv.Join(',', ValuesOf(BuildData(sample).value, show))) ==
            ValuesOf(BuildData(sample).value, show)
    ensures |Csv.Split(',', Csv.Join(',', ValuesOf(BuildData(sample).value, show)))| ==
            |Csv.Split(',', HeaderLine())|
  {
    Csv.SplitJoin(',', ValuesOf(BuildData(sample).value, show));
    HeaderFields();
  }

  /** Only the first column reads the clock: the other 28 sources are not
      `Now`. The case split lets the solver evaluate each entry of the
      literal list on its own. */
  lemma OnlyFirstColumnIsClock()
    ensures Sources[0] == Measured(Now)
    ensures forall i :: 1 <= i < |Sources| ==> Sources[i] != Measured(Now)
  {
    forall i | 1 <= i < |Sources|
      ensures Sources[i] != Measured(Now)
    {
      assert i == 1 || i == 2 || i == 3 || i == 4 || i == 5 || i == 6 || i == 7 || i == 8 || i == 9 || i == 10 || i == 11 || i == 12 || i == 13 || i == 14 || i == 15 || i == 16 || i == 17 || i == 18 || i == 19 || i == 20 || i == 21 || i == 22 || i == 23 || i == 24 || i == 25 || i == 26 || i == 27 || i == 28;
    }
  }

  /** A list without a clock entry evaluates the same at any time. */
  lemma {:induction false} BuildFromIgnoresClock(fields: seq<Field>, a: Sample, t: string)
    requires forall i :: 0 <= i < |fields| ==> fields[i].source != Measured(Now)
    ensures BuildFrom(fields, a.(now := t)) == BuildFrom(fields, a)
    decreases |fields|
  {
    if fields != [] {
      assert Resolve(fields[0].source, a.(now := t)) == Resolve(fields[0].source, a);
      BuildFromIgnoresClock(fields[1..], a, t);
    }
  }

  lemma ValuesOfCons(e: Entry, rest: seq<Entry>, show: Json -> string)
    ensures ValuesOf([e] + rest, show) == [Str(e.value, show)] + ValuesOf(rest, show)
  {
    assert forall i :: 0 <= i < |rest| ==> ([e] + rest)[i + 1] == rest[i];
  }

  /** Two cycles whose samples differ only in the time of day produce the
      same values line except for its first field. */
  lemma OnlyTimestampDiffers(a: Sample, t: string, show: Json -> string)
    requires BuildData(a).Ok?
    ensures BuildData(a.(now := t)).Ok?
    ensures ValuesOf(BuildData(a.(now := t)).value, show) == [t] + ValuesOf(BuildData(a).value, show)[1..]
  {
    var b := a.(now := t);
    var rest := Fields[1..];
    OnlyFirstColumnIsClock();
    assert forall i :: 0 <= i < |rest| ==> rest[i].source == Sources[i + 1];
    BuildFromIgnoresClock(rest, a, t);
    var first := Fields[0];
    assert first.source == Measured(Now);
    var ra := BuildFrom(rest, a);
    assert ra.Ok?;
    assert BuildData(a).value == [Entry(first.name, Text(a.now))] + ra.value;
    assert BuildData(b).value == [Entry(first.name, Text(t))] + ra.value;
    ValuesOfCons(Entry(first.name, Text(a.now)), ra.value, show);
    ValuesOfCons(Entry(first.name, Text(t)), ra.value, show);
  }

  /** An empty `cellular_stats` list aborts the cycle with the IndexError
      of its `[0]`, the first router entry of the list. */
  lemma EmptyCellularStatsAborts(sample: Sample)
    requires sample.radioStatus.JObject?
    requires "cellular_stats" in sample.radioStatus.members
    requires sample.radioStatus.members["cellular_stats"] == JArray([])
    ensures BuildData(sample) == Err(IndexError(0))
  {
    assert Resolve(Fields[5].source, sample) == Err(IndexError(0));
    var r := BuildData(sample);
    assert r.Err?;
    var k :| FirstFailure(Fields, sample, k, r.error);
    assert k == 5;
  }
}
