/** A sample from which the whole `data` list of `record_stats` can be
    built: the facts proved about successful cycles are not vacuous, since
    one router whose two documents hold every key the list names exists. */
module Witness {
  import opened Json
  import opened Record

  /** A dictionary holding `null` under each of `keys`. */
  function Holding(keys: seq<string>): (j: Json)
    ensures j.JObject? && forall k :: k in keys ==> k in j.members
  {
    JObject(map k | k in keys :: JNull)
  }

  /** A sample whose radio status holds the given keys under each of its
      three tables and whose statistics hold the given WAN service keys. */
  function SampleHolding(cellular: seq<string>, cell5G: seq<string>, cellLte: seq<string>, service: seq<string>): Sample
  {
    var radio := JObject(map[
      "cellular_stats" := JArray([Holding(cellular)]),
      "cell_5G_stats_cfg" := JArray([JObject(map["stat" := Holding(cell5G)])]),
      "cell_LTE_stats_cfg" := JArray([JObject(map["stat" := Holding(cellLte)])])]);
    var statistics := JObject(map["WAN" := JArray([JObject(map["Service" := JArray([Holding(service)])])])]);
    Sample("", "", "", "", "", radio, statistics)
  }

  /** Looking `key` up in a dictionary holding it finds `null`. */
  lemma HoldingKey(keys: seq<string>, key: string)
    requires key in keys
    ensures Lookup(Holding(keys), [Key(key)]) == Ok(JNull)
  {
    assert [Key(key)][1..] == [];
  }

  /** A one-step descent: if `rest` leads from `inner` to `leaf`, then
      `[s] + rest` leads from a document whose `[s]` is `inner`. */
  lemma Descend(j: Json, s: Selector, inner: Json, rest: seq<Selector>, leaf: Json)
    requires Select(j, s) == Ok(inner) && Lookup(inner, rest) == Ok(leaf)
    ensures Lookup(j, [s] + rest) == Ok(leaf)
  {
    assert ([s] + rest)[0] == s && ([s] + rest)[1..] == rest;
  }

  /** The cellular lookups succeed on a sample holding their keys. */
  lemma CellularHolding(cellular: seq<string>, cell5G: seq<string>, cellLte: seq<string>, service: seq<string>, key: string)
    requires key in cellular
    ensures Resolve(CellularPath(key), SampleHolding(cellular, cell5G, cellLte, service)).Ok?
  {
    var radio := SampleHolding(cellular, cell5G, cellLte, service).radioStatus;
    var table := JArray([Holding(cellular)]);
    HoldingKey(cellular, key);
    Descend(table, Index(0), Holding(cellular), [Key(key)], JNull);
    Descend(radio, Key("cellular_stats"), table, [Index(0), Key(key)], JNull);
  }

  /** The 5G lookups succeed on a sample holding their keys. */
  lemma Cell5GHolding(cellular: seq<string>, cell5G: seq<string>, cellLte: seq<string>, service: seq<string>, key: string)
    requires key in cell5G
    ensures Resolve(Cell5GPath(key), SampleHolding(cellular, cell5G, cellLte, service)).Ok?
  {
    var radio := SampleHolding(cellular, cell5G, cellLte, service).radioStatus;
    var entry := JObject(map["stat" := Holding(cell5G)]);
    var table := JArray([entry]);
    HoldingKey(cell5G, key);
    Descend(entry, Key("stat"), Holding(cell5G), [Key(key)], JNull);
    Descend(table, Index(0), entry, [Key("stat"), Key(key)], JNull);
    Descend(radio, Key("cell_5G_stats_cfg"), table, [Index(0), Key("stat"), Key(key)], JNull);
  }

  /** The LTE lookups succeed on a sample holding their keys. */
  lemma CellLteHolding(cellular: seq<string>, cell5G: seq<string>, cellLte: seq<string>, service: seq<string>, key: string)
    requires key in cellLte
    ensures Resolve(CellLtePath(key), SampleHolding(cellular, cell5G, cellLte, service)).Ok?
  {
    var radio := SampleHolding(cellular, cell5G, cellLte, service).radioStatus;
    var entry := JObject(map["stat" := Holding(cellLte)]);
    var table := JArray([entry]);
    HoldingKey(cellLte, key);
    Descend(entry, Key("stat"), Holding(cellLte), [Key(key)], JNull);
    Descend(table, Index(0), entry, [Key("stat"), Key(key)], JNull);
    Descend(radio, Key("cell_LTE_stats_cfg"), table, [Index(0), Key("stat"), Key(key)], JNull);
  }

  /** The WAN service lookups succeed on a sample holding their keys. */
  lemma WanHolding(cellular: seq<string>, cell5G: seq<string>, cellLte: seq<string>, service: seq<string>, key: string)
    requires key in service
    ensures Resolve(WanPath(key), SampleHolding(cellular, cell5G, cellLte, service)).Ok?
  {
    var statistics := SampleHolding(cellular, cell5G, cellLte, service).statistics;
    var services := JArray([Holding(service)]);
    var wan := JObject(map["Service" := services]);
    var table := JArray([wan]);
    HoldingKey(service, key);
    Descend(services, Index(0), Holding(service), [Key(key)], JNull);
    Descend(wan, Key("Service"), services, [Index(0), Key(key)], JNull);
    Descend(table, Index(0), wan, [Key("Service"), Index(0), Key(key)], JNull);
    Descend(statistics, Key("WAN"), table, [Index(0), Key("Service"), Index(0), Key(key)], JNull);
  }

  /** The measured entries always resolve. */
  lemma MeasuredFound(sample: Sample)
    ensures forall i :: 0 <= i < 5 ==> Resolve(Sources[i], sample).Ok?
  {
    forall i | 0 <= i < 5 ensures Resolve(Sources[i], sample).Ok? {
      assert i == 0 || i == 1 || i == 2 || i == 3 || i == 4;
    }
  }

  /** Each group of entries resolves once all of its lookups do. */
  lemma CellularFound(sample: Sample)
    requires forall n :: 0 <= n < |CellularKeys| ==> Resolve(CellularPath(CellularKeys[n]), sample).Ok?
    ensures forall i :: 5 <= i < 7 ==> Resolve(Sources[i], sample).Ok?
  {
    CellularEntries();
    forall i | 5 <= i < 7 ensures Resolve(Sources[i], sample).Ok? {
      assert Sources[5 + (i - 5)] == CellularPath(CellularKeys[i - 5]);
    }
  }

  lemma Cell5GFound(sample: Sample)
    requires forall n :: 0 <= n < |Stat5GKeys| ==> Resolve(Cell5GPath(Stat5GKeys[n]), sample).Ok?
    ensures forall i :: 7 <= i < 14 ==> Resolve(Sources[i], sample).Ok?
  {
    Cell5GEntries();
    forall i | 7 <= i < 14 ensures Resolve(Sources[i], sample).Ok? {
      assert Sources[7 + (i - 7)] == Cell5GPath(Stat5GKeys[i - 7]);
    }
  }

  lemma CellLteFound(sample: Sample)
    requires forall n :: 0 <= n < |StatLteKeys| ==> Resolve(CellLtePath(StatLteKeys[n]), sample).Ok?
    ensures forall i :: 14 <= i < 21 ==> Resolve(Sources[i], sample).Ok?
  {
    CellLteEntries();
    forall i | 14 <= i < 21 ensures Resolve(Sources[i], sample).Ok? {
      assert Sources[14 + (i - 14)] == CellLtePath(StatLteKeys[i - 14]);
    }
  }

  lemma WanFound(sample: Sample)
    requires forall n :: 0 <= n < |ServiceKeys| ==> Resolve(WanPath(ServiceKeys[n]), sample).Ok?
    ensures forall i :: 21 <= i < 29 ==> Resolve(Sources[i], sample).Ok?
  {
    WanEntries();
    forall i | 21 <= i < 29 ensures Resolve(Sources[i], sample).Ok? {
      assert Sources[21 + (i - 21)] == WanPath(ServiceKeys[i - 21]);
    }
  }

  /** A sample resolves every entry of the list once it resolves every
      router path the list names. */
  lemma BuildsWhenAllFound(sample: Sample)
    requires forall n :: 0 <= n < |CellularKeys| ==> Resolve(CellularPath(CellularKeys[n]), sample).Ok?
    requires forall n :: 0 <= n < |Stat5GKeys| ==> Resolve(Cell5GPath(Stat5GKeys[n]), sample).Ok?
    requires forall n :: 0 <= n < |StatLteKeys| ==> Resolve(CellLtePath(StatLteKeys[n]), sample).Ok?
    requires forall n :: 0 <= n < |ServiceKeys| ==> Resolve(WanPath(ServiceKeys[n]), sample).Ok?
    ensures BuildData(sample).Ok?
  {
    MeasuredFound(sample);
    CellularFound(sample);
    Cell5GFound(sample);
    CellLteFound(sample);
    WanFound(sample);
    assert forall i :: 0 <= i < |Fields| ==> Fields[i].source == Sources[i];
  }

  /** Some sample lets every entry of the list resolve. */
  lemma SomeCycleSucceeds()
    ensures exists sample :: BuildData(sample).Ok?
  {
    var sample := SampleHolding(CellularKeys, Stat5GKeys, StatLteKeys, ServiceKeys);
    forall n | 0 <= n < |CellularKeys|
      ensures Resolve(CellularPath(CellularKeys[n]), sample).Ok?
    {
      CellularHolding(CellularKeys, Stat5GKeys, StatLteKeys, ServiceKeys, CellularKeys[n]);
    }
    forall n | 0 <= n < |Stat5GKeys|
      ensures Resolve(Cell5GPath(Stat5GKeys[n]), sample).Ok?
    {
      Cell5GHolding(CellularKeys, Stat5GKeys, StatLteKeys, ServiceKeys, Stat5GKeys[n]);
    }
    forall n | 0 <= n < |StatLteKeys|
      ensures Resolve(CellLtePath(StatLteKeys[n]), sample).Ok?
    {
      CellLteHolding(CellularKeys, Stat5GKeys, StatLteKeys, ServiceKeys, StatLteKeys[n]);
    }
    forall n | 0 <= n < |ServiceKeys|
      ensures Resolve(WanPath(ServiceKeys[n]), sample).Ok?
    {
      WanHolding(CellularKeys, Stat5GKeys, StatLteKeys, ServiceKeys, ServiceKeys[n]);
    }
    BuildsWhenAllFound(sample);
  }
}
