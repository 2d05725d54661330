/**
 The script end to end, with file reading, the external builders and the
 writer left out: enrich the dataset, report unused SCTG codes, append the
 reference-flow template, reconcile the flow table, and build one partition
 per process id.
 */
module Pipeline {
  import opened Wrappers
  import opened Exchange
  import Sctg
  import Metadata
  import Flows
  import opened Partitions

  /** What the script hands to `build_process_dict` and `write_objects`. */
  datatype Output = Output(
    table: seq<Row>,
    missing: set<Sctg.Code>,
    flows: Flows.Reconciled,
    partitions: seq<Partition>)

  /** The `SCTG` column of the exchange table. */
  function SctgColumn(rows: seq<Row>): (column: seq<Option<Sctg.Code>>)
    ensures |column| == |rows|
    ensures forall i :: 0 <= i < |rows| ==> column[i] == rows[i].sctg
  {
    seq(|rows|, i requires 0 <= i < |rows| => rows[i].sctg)
  }

  /** Row `i` is the first row of its process id. */
  predicate FirstOfId(rows: seq<Row>, i: int)
    requires 0 <= i < |rows|
  {
    forall j :: 0 <= j < i ==> rows[j].processId != rows[i].processId
  }

  /**
   The first row of every process id other than "nan" has an SCTG code: the
   code that replaces `[SCTG]` in that process's metadata.
   */
  predicate FirstRowsClassified(rows: seq<Row>) {
    forall i :: 0 <= i < |rows| && rows[i].processId != Nan && FirstOfId(rows, i) ==> rows[i].sctg.Some?
  }

  /** No transport mode maps to a flow named like the reference flow. */
  predicate NoMappingNamedRef(s: Settings) {
    forall m :: m in s.flowDict ==> s.flowDict[m].name != RefFlowName
  }

  /** `df_olca` after `pd.concat([df_olca, refFlow_df])`. */
  function Table(inputs: seq<Row>, s: Settings, uuid: Uuid): (table: seq<Row>)
    ensures |table| == |inputs| + 1 && table[..|inputs|] == inputs
    ensures Ids(table) == Ids(inputs) + [Nan]
  {
    inputs + [Template(s, uuid)]
  }

  /** For an id other than "nan", the appended template is not among its rows. */
  lemma FilterTable(inputs: seq<Row>, s: Settings, uuid: Uuid, pid: string)
    requires pid != Nan
    ensures Filter(Table(inputs, s, uuid), pid) == Filter(inputs, pid)
  {
    var t := [Template(s, uuid)];
    FilterConcat(inputs, t, pid);
    assert Filter(t, pid) == [] by {
      assert t[1..] == [];
    }
  }

  /** The rows of an id that occurs among the inputs start with its first row. */
  lemma FilterStartsAtFirstRow(inputs: seq<Row>, s: Settings, uuid: Uuid, pid: string)
    requires pid != Nan
    requires pid in Ids(inputs)
    ensures var i := FirstPos(Ids(inputs), pid);
            var f := Filter(Table(inputs, s, uuid), pid);
            FirstOfId(inputs, i) && |f| > 0 && f[0] == inputs[i]
  {
    var i := FirstPos(Ids(inputs), pid);
    FilterTable(inputs, s, uuid, pid);
    FilterHead(inputs, pid, i);
  }

  /** Every id the loop acts on has a classified first row. */
  lemma HeadsClassified(inputs: seq<Row>, s: Settings, uuid: Uuid)
    requires FirstRowsClassified(inputs)
    ensures forall x :: x in Visited(Table(inputs, s, uuid)) ==> HeadClassified(Table(inputs, s, uuid), x)
  {
    var table := Table(inputs, s, uuid);
    forall x | x in Visited(table)
      ensures HeadClassified(table, x)
    {
      var k :| 0 <= k < |table| && Ids(table)[k] == x;
      assert k < |inputs| && inputs[k].processId == x;
      FilterStartsAtFirstRow(inputs, s, uuid, x);
    }
  }

  /** `parts` is what the loop over the ids of `table` produces. */
  predicate IsLoopResult(table: seq<Row>, parts: seq<Partition>, s: Settings, uuid: Uuid, meta: Metadata.Meta) {
    && (forall x :: x in Visited(table) ==> HeadClassified(table, x))
    && BuildAll(table, Visited(table), s, uuid, meta) == Success(parts)
  }

  /**
   The whole script on a dataset: `recs` are its rows, `meta` the process
   metadata template, `built` the flows `build_flow_dict` returns and
   `fetched` the flow objects of the transport mapping.
   */
  function Run(recs: seq<Record>, s: Settings, uuid: Uuid, meta: Metadata.Meta,
               built: map<string, Flows.Flow>, fetched: seq<Flows.Flow>): (r: Result<Output, Error>)
    requires FirstRowsClassified(EnrichAll(recs, s, uuid))
    ensures r.Success? ==>
              && r.value.table == EnrichAll(recs, s, uuid) + [Template(s, uuid)]
              && r.value.missing == Sctg.MissingCodes(SctgColumn(EnrichAll(recs, s, uuid)))
              && r.value.flows == Flows.Reconcile(built, Flows.ApiFlows(fetched))
              && IsLoopResult(r.value.table, r.value.partitions, s, uuid, meta)
    ensures r.Success? ==> PartitionIds(r.value.partitions) == Visited(r.value.table)
    ensures r.Failure? <==>
              exists row :: row in EnrichAll(recs, s, uuid) && row.processId != Nan &&
                OnlyRefNamed(EnrichAll(recs, s, uuid), row.processId)
  {
    var inputs := EnrichAll(recs, s, uuid);
    var table := Table(inputs, s, uuid);
    HeadsClassified(inputs, s, uuid);
    LoopFailsIffSomeIdHasNoDonor(inputs, s, uuid, meta);
    match BuildAll(table, Visited(table), s, uuid, meta)
    case Failure(e) => Failure(e)
    case Success(parts) =>
      LoopResultIds(table, parts, s, uuid, meta);
      var missing := Sctg.MissingCodes(SctgColumn(inputs));
      var flows := Flows.Reconcile(built, Flows.ApiFlows(fetched));
      Success(Output(table, missing, flows, parts))
  }

  /** A code misses from the dataset's SCTG column exactly when no row has its label as commodity. */
  lemma MissingCodesOfDataset(recs: seq<Record>, s: Settings, uuid: Uuid, k: Sctg.Code)
    ensures k in Sctg.MissingCodes(SctgColumn(EnrichAll(recs, s, uuid))) <==>
              k in Sctg.Codes && forall i :: 0 <= i < |recs| ==> recs[i].commodity != Sctg.Codes[k]
  {
    var inputs := EnrichAll(recs, s, uuid);
    var commodities := seq(|recs|, i requires 0 <= i < |recs| => recs[i].commodity);
    assert SctgColumn(inputs) == Sctg.Column(commodities);
    Sctg.MissingIffNoCommodityHasLabel(commodities, k);
  }

  /**
   A code is reported missing exactly when no row of the dataset has its
   label as commodity.
   */
  lemma RunReportsMissingCodes(recs: seq<Record>, s: Settings, uuid: Uuid, meta: Metadata.Meta,
                               built: map<string, Flows.Flow>, fetched: seq<Flows.Flow>, k: Sctg.Code)
    requires FirstRowsClassified(EnrichAll(recs, s, uuid))
    requires Run(recs, s, uuid, meta, built, fetched).Success?
    ensures k in Run(recs, s, uuid, meta, built, fetched).value.missing <==>
              k in Sctg.Codes && forall i :: 0 <= i < |recs| ==> recs[i].commodity != Sctg.Codes[k]
  {
    MissingCodesOfDataset(recs, s, uuid, k);
  }

  /** The ids of the partitions, in order. */
  function PartitionIds(parts: seq<Partition>): (ids: seq<string>)
    ensures |ids| == |parts|
    ensures forall j :: 0 <= j < |parts| ==> ids[j] == parts[j].pid
  {
    seq(|parts|, j requires 0 <= j < |parts| => parts[j].pid)
  }

  /** The partitions of the loop are those of the visited ids, in order. */
  lemma LoopResultIds(table: seq<Row>, parts: seq<Partition>, s: Settings, uuid: Uuid, meta: Metadata.Meta)
    requires IsLoopResult(table, parts, s, uuid, meta)
    ensures PartitionIds(parts) == Visited(table)
  {
  }

  /** Every partition of the loop is built from `table` for an id other than "nan". */
  lemma LoopResultBuilt(table: seq<Row>, parts: seq<Partition>, s: Settings, uuid: Uuid, meta: Metadata.Meta)
    requires IsLoopResult(table, parts, s, uuid, meta)
    ensures forall j :: 0 <= j < |parts| ==> parts[j].pid != Nan && IsBuilt(table, parts[j], s, uuid, meta)
  {
    var kept := Visited(table);
    assert forall j :: 0 <= j < |kept| ==> kept[j] in kept;
  }

  /** The appended template adds only "nan" to the ids, which the loop skips. */
  lemma VisitedOfTable(inputs: seq<Row>, s: Settings, uuid: Uuid)
    ensures forall x :: x in Visited(Table(inputs, s, uuid)) <==> x != Nan && x in Ids(inputs)
  {
    assert Ids(Table(inputs, s, uuid)) == Ids(inputs) + [Nan];
  }

  /** The loop takes the ids in the order in which they first occur among the dataset's rows. */
  lemma VisitedOrderOfTable(inputs: seq<Row>, s: Settings, uuid: Uuid)
    ensures InFirstOccurrenceOrder(Visited(Table(inputs, s, uuid)), Ids(inputs))
  {
  }

  /**
   The loop visits each distinct process id once and skips "nan": the
   partition ids are distinct, they are exactly the ids of the dataset's
   rows other than "nan", so the appended template never forms a partition,
   and they come in the order in which the ids first occur in the dataset.
   */
  lemma RunVisitsEachIdOnce(recs: seq<Record>, s: Settings, uuid: Uuid, meta: Metadata.Meta,
                            built: map<string, Flows.Flow>, fetched: seq<Flows.Flow>)
    requires FirstRowsClassified(EnrichAll(recs, s, uuid))
    requires Run(recs, s, uuid, meta, built, fetched).Success?
    ensures var ids := PartitionIds(Run(recs, s, uuid, meta, built, fetched).value.partitions);
            && (forall j, k :: 0 <= j < k < |ids| ==> ids[j] != ids[k])
            && (forall x :: x in ids <==> x != Nan && x in Ids(EnrichAll(recs, s, uuid)))
            && InFirstOccurrenceOrder(ids, Ids(EnrichAll(recs, s, uuid)))
  {
    var inputs := EnrichAll(recs, s, uuid);
    var out := Run(recs, s, uuid, meta, built, fetched).value;
    var v := Visited(Table(inputs, s, uuid));
    assert PartitionIds(out.partitions) == v;
    VisitedOfTable(inputs, s, uuid);
    VisitedOrderOfTable(inputs, s, uuid);
  }

  /** A dataset row never carries the reference flow name when no mapping does. */
  lemma InputsAreNotNamedRef(recs: seq<Record>, s: Settings, uuid: Uuid, row: Row)
    requires row in EnrichAll(recs, s, uuid)
    ensures IsInputExchange(row)
    ensures NoMappingNamedRef(s) ==> row.flowName != Some(RefFlowName)
  {
    var k :| 0 <= k < |recs| && EnrichAll(recs, s, uuid)[k] == row;
  }

  /**
   Every partition of a run holds the rows of its id followed by one
   reference row: one kilogram, unit "kg", an output bound to the id, with
   the fixed reference flow, and the process name and quality entry of the
   first row whose flow name is not the reference flow's. Rows carrying the
   reference flow name are stamped likewise. The metadata is the shared
   template rendered with the first row's commodity and code.
   */
  lemma PartitionOfRun(recs: seq<Record>, s: Settings, uuid: Uuid, meta: Metadata.Meta, p: Partition)
    requires p.pid != Nan
    requires IsBuilt(Table(EnrichAll(recs, s, uuid), s, uuid), p, s, uuid, meta)
    ensures var f := Filter(EnrichAll(recs, s, uuid), p.pid);
            && |p.rows| == |f| + 1
            && FirstDonor(f).Some?
            && (forall i :: 0 <= i < |f| ==> p.rows[i] == Stamp(f[i], f[FirstDonor(f).value]))
            && p.rows[|f|].reference && !p.rows[|f|].isInput
            && p.rows[|f|].amount == 1.0 && p.rows[|f|].unit == RefUnit
            && p.rows[|f|].processId == p.pid
            && p.rows[|f|].flowName == Some(RefFlowName)
            && p.rows[|f|].flowUuid == Some(uuid([RefFlowName, DatasetName]))
            && p.rows[|f|].processName == f[FirstDonor(f).value].processName
            && p.rows[|f|].exchangeDqi == f[FirstDonor(f).value].exchangeDqi
            && f[0].sctg.Some?
            && p.meta == Metadata.Render(meta, f[0].commodity, f[0].sctg.value)
  {
    var inputs := EnrichAll(recs, s, uuid);
    var table := Table(inputs, s, uuid);
    FilterTable(inputs, s, uuid, p.pid);
    PartitionInputRows(table, p.pid, s, uuid, meta);
    PartitionReferenceRow(table, p.pid, s, uuid, meta);
    PartitionMeta(table, p.pid, s, uuid, meta);
  }

  /** Exactly one row of each partition, its last, is a reference row. */
  lemma OneReferenceRowPerPartition(recs: seq<Record>, s: Settings, uuid: Uuid, meta: Metadata.Meta, p: Partition)
    requires p.pid != Nan
    requires IsBuilt(Table(EnrichAll(recs, s, uuid), s, uuid), p, s, uuid, meta)
    ensures |p.rows| > 0
    ensures forall i :: 0 <= i < |p.rows| ==> (p.rows[i].reference <==> i == |p.rows| - 1)
  {
    var inputs := EnrichAll(recs, s, uuid);
    var f := Filter(inputs, p.pid);
    PartitionOfRun(recs, s, uuid, meta, p);
    forall i | 0 <= i < |f|
      ensures !f[i].reference
    {
      FilterFromRows(inputs, p.pid, i);
      InputsAreNotNamedRef(recs, s, uuid, f[i]);
    }
    OnlyLastIsReference(f, p.rows, f[FirstDonor(f).value]);
  }

  /**
   When no mapping names a flow like the reference flow, the input rows of a
   partition are the rows of its id unchanged, in order, and the donor of
   the reference row's name and quality entry is the first of them.
   */
  lemma PartitionInputsUnchanged(recs: seq<Record>, s: Settings, uuid: Uuid, meta: Metadata.Meta, p: Partition)
    requires p.pid != Nan && NoMappingNamedRef(s)
    requires IsBuilt(Table(EnrichAll(recs, s, uuid), s, uuid), p, s, uuid, meta)
    ensures var f := Filter(EnrichAll(recs, s, uuid), p.pid);
            && |f| > 0
            && |p.rows| == |f| + 1
            && p.rows[..|f|] == f
            && p.rows[|f|].processName == f[0].processName
            && p.rows[|f|].exchangeDqi == f[0].exchangeDqi
  {
    var inputs := EnrichAll(recs, s, uuid);
    var f := Filter(inputs, p.pid);
    PartitionOfRun(recs, s, uuid, meta, p);
    forall i | 0 <= i < |f|
      ensures f[i].flowName != Some(RefFlowName)
    {
      FilterFromRows(inputs, p.pid, i);
      InputsAreNotNamedRef(recs, s, uuid, f[i]);
    }
    assert FirstDonor(f) == Some(0);
    assert forall i :: 0 <= i < |f| ==> p.rows[i] == f[i];
    assert p.rows[..|f|] == f;
  }

  /** Every row of `pid` among `rows` carries the reference flow name, so none can donate. */
  predicate OnlyRefNamed(rows: seq<Row>, pid: string) {
    forall r :: r in rows && r.processId == pid ==> r.flowName == Some(RefFlowName)
  }

  /** For an id other than "nan", building its partition fails exactly when none of its rows can donate. */
  lemma PartitionFailsIffOnlyRefNamed(inputs: seq<Row>, s: Settings, uuid: Uuid, meta: Metadata.Meta, x: string)
    requires x != Nan && HeadClassified(Table(inputs, s, uuid), x)
    ensures BuildPartition(Table(inputs, s, uuid), x, s, uuid, meta).Failure? <==> OnlyRefNamed(inputs, x)
  {
    FilterTable(inputs, s, uuid, x);
    FilterMembers(inputs, x);
    var f := Filter(inputs, x);
    if OnlyRefNamed(inputs, x) {
      assert forall i :: 0 <= i < |f| ==> f[i] in f;
    }
  }

  /** The ids the loop acts on are the ids of the dataset rows other than "nan". */
  lemma LoopIds(inputs: seq<Row>, s: Settings, uuid: Uuid)
    ensures forall x :: x in Visited(Table(inputs, s, uuid)) <==>
              x != Nan && exists r :: r in inputs && r.processId == x
  {
    var table := Table(inputs, s, uuid);
    assert Ids(table) == Ids(inputs) + [Nan];
    forall x | x != Nan
      ensures x in Ids(inputs) <==> exists r :: r in inputs && r.processId == x
    {
      if x in Ids(inputs) {
        var k :| 0 <= k < |inputs| && Ids(inputs)[k] == x;
        assert inputs[k] in inputs;
      }
      if exists r :: r in inputs && r.processId == x {
        var r :| r in inputs && r.processId == x;
        var k :| 0 <= k < |inputs| && inputs[k] == r;
        assert Ids(inputs)[k] == x;
      }
    }
  }

  /** The loop over the table fails exactly when some id other than "nan" has no donor row. */
  lemma LoopFailsIffSomeIdHasNoDonor(inputs: seq<Row>, s: Settings, uuid: Uuid, meta: Metadata.Meta)
    requires forall x :: x in Visited(Table(inputs, s, uuid)) ==> HeadClassified(Table(inputs, s, uuid), x)
    ensures var table := Table(inputs, s, uuid);
            BuildAll(table, Visited(table), s, uuid, meta).Failure? <==>
              exists r :: r in inputs && r.processId != Nan && OnlyRefNamed(inputs, r.processId)
  {
    var table := Table(inputs, s, uuid);
    var ids := Visited(table);
    BuildAllFailsIffSomeIdHasNoDonor(table, ids, s, uuid, meta);
    LoopIds(inputs, s, uuid);
    forall x | x in ids
      ensures BuildPartition(table, x, s, uuid, meta).Failure? <==> OnlyRefNamed(inputs, x)
    {
      PartitionFailsIffOnlyRefNamed(inputs, s, uuid, meta, x);
    }
  }

  /** With no mapping named like the reference flow, every id finds a donor and the run succeeds. */
  lemma RunSucceedsWithoutRefNamedMapping(recs: seq<Record>, s: Settings, uuid: Uuid, meta: Metadata.Meta,
                                          built: map<string, Flows.Flow>, fetched: seq<Flows.Flow>)
    requires FirstRowsClassified(EnrichAll(recs, s, uuid)) && NoMappingNamedRef(s)
    ensures Run(recs, s, uuid, meta, built, fetched).Success?
  {
    var inputs := EnrichAll(recs, s, uuid);
    forall r | r in inputs && r.processId != Nan
      ensures !OnlyRefNamed(inputs, r.processId)
    {
      InputsAreNotNamedRef(recs, s, uuid, r);
    }
  }

  /** The exchanges of the partitions other than each one's closing reference row. */
  function InputRows(parts: seq<Partition>): seq<Row>
    decreases |parts|
  {
    if |parts| == 0 then []
    else
      var rows := parts[0].rows;
      (if |rows| > 0 then rows[..|rows| - 1] else []) + InputRows(parts[1..])
  }

  /** The rows of `p` before its reference row are the rows of its id among `inputs`. */
  predicate HandsOnRows(inputs: seq<Row>, p: Partition) {
    |p.rows| == |Filter(inputs, p.pid)| + 1 && p.rows[..|p.rows| - 1] == Filter(inputs, p.pid)
  }

  /** Partitions that hand on the rows of their ids together hand on the gathered rows, in order. */
  lemma {:induction false} InputRowsOfHandedOn(inputs: seq<Row>, parts: seq<Partition>)
    requires forall j :: 0 <= j < |parts| ==> HandsOnRows(inputs, parts[j])
    ensures InputRows(parts) == Gather(inputs, PartitionIds(parts))
    decreases |parts|
  {
    if |parts| > 0 {
      InputRowsOfHandedOn(inputs, parts[1..]);
      assert PartitionIds(parts)[1..] == PartitionIds(parts[1..]);
    }
  }

  /** Each built partition hands on the rows of its id unchanged. */
  lemma BuiltHandOnRows(recs: seq<Record>, s: Settings, uuid: Uuid, meta: Metadata.Meta, parts: seq<Partition>)
    requires NoMappingNamedRef(s)
    requires forall j :: 0 <= j < |parts| ==>
               parts[j].pid != Nan && IsBuilt(Table(EnrichAll(recs, s, uuid), s, uuid), parts[j], s, uuid, meta)
    ensures forall j :: 0 <= j < |parts| ==> HandsOnRows(EnrichAll(recs, s, uuid), parts[j])
  {
    forall j | 0 <= j < |parts|
      ensures HandsOnRows(EnrichAll(recs, s, uuid), parts[j])
    {
      PartitionInputsUnchanged(recs, s, uuid, meta, parts[j]);
    }
  }

  /** Every partition of a successful run is built from the run's table, for an id other than "nan". */
  lemma RunPartitionsAreBuilt(recs: seq<Record>, s: Settings, uuid: Uuid, meta: Metadata.Meta,
                              built: map<string, Flows.Flow>, fetched: seq<Flows.Flow>)
    requires FirstRowsClassified(EnrichAll(recs, s, uuid))
    requires Run(recs, s, uuid, meta, built, fetched).Success?
    ensures var parts := Run(recs, s, uuid, meta, built, fetched).value.partitions;
            forall j :: 0 <= j < |parts| ==>
              parts[j].pid != Nan && IsBuilt(Table(EnrichAll(recs, s, uuid), s, uuid), parts[j], s, uuid, meta)
  {
    var out := Run(recs, s, uuid, meta, built, fetched).value;
    LoopResultBuilt(out.table, out.partitions, s, uuid, meta);
  }

  /**
   Gathering over the loop's ids keeps each dataset row whose id is not
   "nan" as often as the dataset holds it, and nothing else.
   */
  lemma GatherOverLoopIds(inputs: seq<Row>, ids: seq<string>)
    requires forall j, k :: 0 <= j < k < |ids| ==> ids[j] != ids[k]
    requires forall x :: x in ids <==> x != Nan && x in Ids(inputs)
    ensures forall r :: multiset(Gather(inputs, ids))[r] == if r.processId != Nan then multiset(inputs)[r] else 0
  {
    GatherCounts(inputs, ids);
    forall r | r in inputs
      ensures r.processId in Ids(inputs)
    {
      var k :| 0 <= k < |inputs| && inputs[k] == r;
      assert Ids(inputs)[k] == r.processId;
    }
  }

  /**
   With no mapping named like the reference flow, the partitions of a run
   together hold every dataset row whose id is not "nan" exactly as often as
   the dataset does, and no other input row.
   */
  lemma RunKeepsEveryRow(recs: seq<Record>, s: Settings, uuid: Uuid, meta: Metadata.Meta,
                         built: map<string, Flows.Flow>, fetched: seq<Flows.Flow>)
    requires FirstRowsClassified(EnrichAll(recs, s, uuid)) && NoMappingNamedRef(s)
    ensures Run(recs, s, uuid, meta, built, fetched).Success?
    ensures forall r :: multiset(InputRows(Run(recs, s, uuid, meta, built, fetched).value.partitions))[r] ==
              if r.processId != Nan then multiset(EnrichAll(recs, s, uuid))[r] else 0
  {
    var inputs := EnrichAll(recs, s, uuid);
    RunSucceedsWithoutRefNamedMapping(recs, s, uuid, meta, built, fetched);
    var out := Run(recs, s, uuid, meta, built, fetched).value;
    var parts := out.partitions;
    RunVisitsEachIdOnce(recs, s, uuid, meta, built, fetched);
    RunPartitionsAreBuilt(recs, s, uuid, meta, built, fetched);
    BuiltHandOnRows(recs, s, uuid, meta, parts);
    InputRowsOfHandedOn(inputs, parts);
    GatherOverLoopIds(inputs, PartitionIds(parts));
  }
}
