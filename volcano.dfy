/** The chart object of `createVolcano`: its event registry, `init`'s data
    pipeline and `makeNestedData`, which groups the cleaned records by plot
    name and bins each group into annotated hexagon cells. */
module Volcano {
  import opened Settings
  import opened Nesting
  import opened Cleaning
  import opened Hexes

  /** The hexagon a point falls in: `d3.hexbin` identifies a cell by its
      column and row. */
  type HexId = (int, int)

  /** Each record keyed by its plot name, the key of the outer `d3.nest`. */
  function ByPlotName(rs: seq<Record>): (ps: seq<(string, Record)>)
    reads set r | r in rs
    ensures |ps| == |rs|
  {
    seq(|rs|, i reads set r | r in rs requires 0 <= i < |rs| => (rs[i].plotName, rs[i]))
  }

  /** Each record keyed by the hexagon its (ratio, p) point falls in. */
  function ByHex(rs: seq<Record>, hexOf: (real, real) -> HexId): (ps: seq<(HexId, Record)>)
    reads set r | r in rs
    ensures |ps| == |rs|
  {
    seq(|rs|, i reads set r | r in rs requires 0 <= i < |rs| => (hexOf(rs[i].ratio, rs[i].p), rs[i]))
  }

  /** `d3.nest().key(d => d.plotName).entries(data)`. */
  function PlotGroups(rs: seq<Record>): (gs: seq<Entry<string, Record>>)
    reads set r | r in rs
    ensures forall g :: g in gs ==> g.values != []
  {
    NestValues(ByPlotName(rs));
    Nest(ByPlotName(rs))
  }

  /** `chart.hexbin(values)`, with the hexagon geometry abstracted into
      `hexOf`: the points of a group collected by hexagon, in the order each
      hexagon is first hit. */
  function HexCells(rs: seq<Record>, hexOf: (real, real) -> HexId): (cs: seq<Entry<HexId, Record>>)
    reads set r | r in rs
    ensures forall c :: c in cs ==> c.values != []
  {
    NestValues(ByHex(rs, hexOf));
    Nest(ByHex(rs, hexOf))
  }

  lemma ByPlotNamePairs(rs: seq<Record>)
    ensures PairValues(ByPlotName(rs)) == rs
    ensures forall i :: 0 <= i < |rs| ==> PairKeys(ByPlotName(rs))[i] == rs[i].plotName
    ensures forall k, r :: (k, r) in ByPlotName(rs) ==> r in rs && k == r.plotName
  {
    assert PairValues(ByPlotName(rs)) == rs;
  }

  lemma ByHexPairs(rs: seq<Record>, hexOf: (real, real) -> HexId)
    ensures PairValues(ByHex(rs, hexOf)) == rs
    ensures forall k, r :: (k, r) in ByHex(rs, hexOf) ==> r in rs && k == hexOf(r.ratio, r.p)
  {
    assert PairValues(ByHex(rs, hexOf)) == rs;
  }

  /** Grouping by plot name is a partition: every record is in exactly one
      group, and a group holds at least one record and only records of its
      plot name. */
  lemma PlotGroupsPartition(rs: seq<Record>)
    ensures multiset(Flatten(PlotGroups(rs))) == multiset(rs)
    ensures forall i :: 0 <= i < |PlotGroups(rs)| ==>
              PlotGroups(rs)[i].values != [] &&
              forall r :: r in PlotGroups(rs)[i].values ==> r in rs && r.plotName == PlotGroups(rs)[i].key
  {
    var ps := ByPlotName(rs);
    ByPlotNamePairs(rs);
    NestPartition(ps);
    NestMembers(ps);
  }

  /** Groups have distinct plot names, every plot name of the records has a
      group, and groups come in the order their names first occur. */
  lemma PlotGroupsKeys(rs: seq<Record>)
    ensures Distinct(EntryKeys(PlotGroups(rs)))
    ensures forall r :: r in rs ==> r.plotName in EntryKeys(PlotGroups(rs))
    ensures forall i, j :: 0 <= i < j < |PlotGroups(rs)| ==>
              IndexOf(PairKeys(ByPlotName(rs)), PlotGroups(rs)[i].key) <
              IndexOf(PairKeys(ByPlotName(rs)), PlotGroups(rs)[j].key)
  {
    var ps := ByPlotName(rs);
    ByPlotNamePairs(rs);
    NestKeys(ps);
    NestFirstSeen(ps);
    forall r | r in rs
      ensures r.plotName in PairKeys(ps)
    {
      var i :| 0 <= i < |rs| && rs[i] == r;
      assert PairKeys(ps)[i] == r.plotName;
    }
  }

  /** Binning is a partition of a group: every record is in exactly one cell,
      a cell holds at least one record and only records of its hexagon, and
      no two cells share a hexagon. */
  lemma HexCellsPartition(rs: seq<Record>, hexOf: (real, real) -> HexId)
    ensures multiset(Flatten(HexCells(rs, hexOf))) == multiset(rs)
    ensures Distinct(EntryKeys(HexCells(rs, hexOf)))
    ensures forall i :: 0 <= i < |HexCells(rs, hexOf)| ==>
              HexCells(rs, hexOf)[i].values != [] &&
              forall r :: r in HexCells(rs, hexOf)[i].values ==>
                r in rs && hexOf(r.ratio, r.p) == HexCells(rs, hexOf)[i].key
  {
    var ps := ByHex(rs, hexOf);
    ByHexPairs(rs, hexOf);
    NestPartition(ps);
    NestKeys(ps);
    NestMembers(ps);
  }

  /** One element of `nested`: a plot name, its records, and its cells. */
  class Group {
    const key: string
    const values: seq<Record>
    var hexData: seq<Cell>

    constructor (key: string, values: seq<Record>)
      ensures this.key == key && this.values == values && hexData == []
    {
      this.key, this.values := key, values;
      hexData := [];
    }

    /** The cells are the group's hexbin cells, each annotated. */
    ghost predicate Binned(countRange: Range, hexOf: (real, real) -> HexId, colorScale: string -> string)
      reads this, set c | c in hexData, set c | c in hexData :: c.levels, set r | r in values
      reads set c, r | c in hexData && r in c.members :: r
    {
      |hexData| == |HexCells(values, hexOf)| &&
      (forall j, k :: 0 <= j < k < |hexData| ==> hexData[j] != hexData[k]) &&
      forall j :: 0 <= j < |hexData| ==>
        hexData[j].members == HexCells(values, hexOf)[j].values &&
        hexData[j].Annotated(countRange, colorScale)
    }

    /** The `nested.forEach` callback: bins the group's records into fresh
        cells, then annotates each cell. */
    method Bin(countRange: Range, hexOf: (real, real) -> HexId, colorScale: string -> string)
      modifies this
      ensures forall c :: c in hexData ==> fresh(c)
      ensures Binned(countRange, hexOf, colorScale)
    {
      var cells := HexCells(values, hexOf);
      assert forall k :: 0 <= k < |cells| ==> cells[k] in cells;
      hexData := NewCells(cells);
      AnnotateAll(hexData, countRange, colorScale);
    }
  }

  /** The cells `d3.hexbin` returns, one fresh cell per entry. */
  method NewCells(cells: seq<Entry<HexId, Record>>) returns (data: seq<Cell>)
    ensures |data| == |cells|
    ensures forall k :: 0 <= k < |data| ==> fresh(data[k]) && data[k].members == cells[k].values
    ensures forall k, m :: 0 <= k < m < |data| ==> data[k] != data[m]
  {
    data := [];
    for j := 0 to |cells|
      invariant |data| == j
      invariant forall k :: 0 <= k < j ==> fresh(data[k]) && data[k].members == cells[k].values
      invariant forall k, m :: 0 <= k < m < j ==> data[k] != data[m]
    {
      var c := new Cell(cells[j].values);
      data := data + [c];
    }
  }

  /** `hexData.forEach(...)`: annotates every cell. */
  method AnnotateAll(data: seq<Cell>, countRange: Range, colorScale: string -> string)
    requires forall k :: 0 <= k < |data| ==> data[k].members != []
    requires forall k, m :: 0 <= k < m < |data| ==> data[k] != data[m]
    modifies set c | c in data
    ensures forall k :: 0 <= k < |data| ==> data[k].Annotated(countRange, colorScale)
  {
    for j := 0 to |data|
      invariant forall k :: 0 <= k < j ==> data[k].Annotated(countRange, colorScale)
    {
      data[j].Annotate(countRange, colorScale);
    }
  }

  /** The groups are the plot-name groups of `clean`, in order. */
  ghost predicate Nested(nested: seq<Group>, clean: seq<Record>)
    reads set g | g in nested, set r | r in clean
  {
    |nested| == |PlotGroups(clean)| &&
    (forall i, j :: 0 <= i < j < |nested| ==> nested[i] != nested[j]) &&
    forall i :: 0 <= i < |nested| ==>
      nested[i].key == PlotGroups(clean)[i].key && nested[i].values == PlotGroups(clean)[i].values
  }

  /** The `d3.nest` of `makeNestedData` as objects: one fresh group per
      entry, without cells yet. */
  method NewGroups(groups: seq<Entry<string, Record>>) returns (nested: seq<Group>)
    ensures |nested| == |groups|
    ensures forall k :: 0 <= k < |nested| ==>
              fresh(nested[k]) && nested[k].key == groups[k].key && nested[k].values == groups[k].values
    ensures forall k, m :: 0 <= k < m < |nested| ==> nested[k] != nested[m]
  {
    nested := [];
    for i := 0 to |groups|
      invariant |nested| == i
      invariant forall k :: 0 <= k < i ==>
                  fresh(nested[k]) && nested[k].key == groups[k].key && nested[k].values == groups[k].values
      invariant forall k, m :: 0 <= k < m < i ==> nested[k] != nested[m]
    {
      var g := new Group(groups[i].key, groups[i].values);
      nested := nested + [g];
    }
  }

  /** `nested.forEach(...)`: bins every group. */
  method BinAll(nested: seq<Group>, countRange: Range, hexOf: (real, real) -> HexId, colorScale: string -> string)
    requires forall k, m :: 0 <= k < m < |nested| ==> nested[k] != nested[m]
    modifies set g | g in nested
    ensures forall g :: g in nested ==> g.Binned(countRange, hexOf, colorScale)
  {
    for i := 0 to |nested|
      invariant forall k :: 0 <= k < i ==> nested[k].Binned(countRange, hexOf, colorScale)
    {
      nested[i].Bin(countRange, hexOf, colorScale);
    }
  }

  /** `makeNestedData`: groups the cleaned records by plot name, then bins
      and annotates every group. Records are read, never changed. */
  method MakeNestedData(clean: seq<Record>, countRange: Range, hexOf: (real, real) -> HexId,
                        colorScale: string -> string)
    returns (nested: seq<Group>)
    ensures forall g :: g in nested ==> fresh(g)
    ensures Nested(nested, clean)
    ensures forall g :: g in nested ==> g.Binned(countRange, hexOf, colorScale)
  {
    nested := NewGroups(PlotGroups(clean));
    BinAll(nested, countRange, hexOf, colorScale);
  }

  /** A handler held in `events`: the no-op installed by `createVolcano`, or
      a callback registered through `on`, identified by a number. */
  datatype Handler = Noop | Callback(id: nat)

  /** `possible_events`: the only names `on` accepts. */
  const EVENT_NAMES: seq<string> := ["init", "complete"]

  /** The `events` object after `on(event, callback)`; `None` stands for a
      falsy callback. */
  function Register(events: map<string, Handler>, event: string, callback: Option<Handler>): (r: map<string, Handler>)
    // no entry other than `event` is touched
    ensures forall e :: e != event ==> (e in r <==> e in events) && (e in r ==> r[e] == events[e])
    // the entry of `event` changes exactly when the name is known and the callback truthy
    ensures event in EVENT_NAMES && callback.Some? ==> event in r && r[event] == callback.value
    ensures event !in EVENT_NAMES || callback.None? ==> r == events
  {
    if event !in EVENT_NAMES then events
    else if callback.Some? then events[event := callback.value]
    else events
  }

  /** The handlers of a fresh chart. */
  const INITIAL_EVENTS: map<string, Handler> := map["init" := Noop, "complete" := Noop]

  /** The registry always holds exactly the two event names. */
  ghost predicate EventsWellFormed(events: map<string, Handler>) {
    forall e :: e in events <==> e in EVENT_NAMES
  }

  lemma InitialEventsWellFormed()
    ensures EventsWellFormed(INITIAL_EVENTS)
  {
    forall e
      ensures e in INITIAL_EVENTS <==> e in EVENT_NAMES
    {
      assert e in EVENT_NAMES <==> e == "init" || e == "complete";
    }
  }

  /** Registering keeps the registry's set of names. */
  lemma RegisterWellFormed(events: map<string, Handler>, event: string, callback: Option<Handler>)
    requires EventsWellFormed(events)
    ensures EventsWellFormed(Register(events, event, callback))
  {
  }

  /** A later registration for the same event replaces an earlier one. */
  lemma RegisterLastWins(events: map<string, Handler>, event: string, first: Handler, second: Handler)
    ensures Register(Register(events, event, Some(first)), event, Some(second))
         == Register(events, event, Some(second))
  {
  }

  /** Registrations for different events do not interfere. */
  lemma RegisterCommutes(events: map<string, Handler>, e1: string, c1: Option<Handler>, e2: string, c2: Option<Handler>)
    requires e1 != e2
    ensures Register(Register(events, e1, c1), e2, c2) == Register(Register(events, e2, c2), e1, c1)
  {
  }

  /** The object `createVolcano` returns, reduced to its configuration, its
      data and its event registry. */
  class Chart {
    const config: Config
    var events: map<string, Handler>

    ghost predicate Valid()
      reads this
    {
      EventsWellFormed(events)
    }

    /** `createVolcano(element, config)`. */
    constructor (config: Config)
      ensures this.config == config
      ensures events == INITIAL_EVENTS && Valid()
    {
      this.config := config;
      events := INITIAL_EVENTS;
      InitialEventsWellFormed();
    }

    /** `volcano.on(event, callback)`. */
    method On(event: string, callback: Option<Handler>)
      requires Valid()
      modifies this
      ensures events == Register(old(events), event, callback) && Valid()
    {
      if event !in EVENT_NAMES {
        return;
      }
      if callback.Some? {
        events := events[event := callback.value];
      }
      RegisterWellFormed(old(events), event, callback);
    }

    /** The data pipeline of `init(data)`: fills in the defaults, cleans the
        records in place and nests them, returning what `init` stores as
        `data.clean` and `data.nested`. The scales `makeScales` derives from
        the data are given as `hexOf` and `colorScale`. */
    method Init(data: array<Record>, hexOf: (real, real) -> HexId, colorScale: string -> string)
      returns (clean: array<Record>, nested: seq<Group>)
      modifies config, set i | 0 <= i < data.Length :: data[i]
      ensures config.Value() == WithDefaults(old(config.Value()))
      ensures fresh(clean) && clean[..] == data[..]
      ensures forall i :: 0 <= i < data.Length ==>
                data[i].Value() == Cleaned(old(data[i].Value()), config.ratioLimit.value)
      ensures Nested(nested, clean[..])
      ensures forall g :: g in nested ==> fresh(g) && g.Binned(config.hexbin.value.countRange.value, hexOf, colorScale)
    {
      config.SetDefaults();
      clean := MakeCleanData(data, config.ratioLimit.value);
      nested := MakeNestedData(clean[..], config.hexbin.value.countRange.value, hexOf, colorScale);
    }
  }
}
