/**
 The reference-flow template and the per-process partition loop: every
 distinct process id other than "nan" gets its input exchanges followed by a
 copy of the template bound to it, with the process name and data-quality
 entry of a donor row, and its own copy of the process metadata.
 */
module Partitions {
  import opened Wrappers
  import opened Exchange
  import Loop
  import Metadata

  const RefFlowName := "Commodity transport; at consumer"
  const DatasetName := "uslci-transport"
  /** The literal string the template carries in its unbound columns. */
  const Nan := "nan"
  const RefUnit := "kg"
  const RefCountryCode := "USA"

  /** `ref_flow`: one kilogram of commodity delivered, not yet bound to a process. */
  function Template(s: Settings, uuid: Uuid): (t: Row)
    ensures t.reference && !t.isInput
    ensures t.amount == 1.0 && t.unit == RefUnit
    ensures t.processId == Nan && t.sctg == Some(Nan)
    ensures t.flowName == Some(RefFlowName) && t.flowUuid == Some(uuid([RefFlowName, DatasetName]))
  {
    Row(
      sctg := Some(Nan),
      commodity := Nan,
      mode := Nan,
      processId := Nan,
      processCategory := CategoryText(s.category),
      processName := Nan,
      flowUuid := Some(uuid([RefFlowName, DatasetName])),
      flowName := Some(RefFlowName),
      context := "Technosphere Flows / " + CategoryText(s.category),
      isInput := false,
      flowType := ProductFlow,
      reference := true,
      defaultProvider := Some(Nan),
      defaultProviderName := Some(Nan),
      amount := 1.0,
      unit := RefUnit,
      avoidedProduct := false,
      exchangeDqi := Nan,
      location := Location,
      year := Year,
      countryCode := RefCountryCode)
  }

  /** The `ProcessID` column. */
  function Ids(rows: seq<Row>): (ids: seq<string>)
    ensures |ids| == |rows|
    ensures forall i :: 0 <= i < |rows| ==> ids[i] == rows[i].processId
  {
    seq(|rows|, i requires 0 <= i < |rows| => rows[i].processId)
  }

  /** The index of the first occurrence of `x` in `xs`. */
  function FirstPos<T(==)>(xs: seq<T>, x: T): (k: nat)
    requires x in xs
    ensures k < |xs| && xs[k] == x
    ensures forall l :: 0 <= l < k ==> xs[l] != x
    decreases |xs|
  {
    if xs[0] == x then 0 else 1 + FirstPos(xs[1..], x)
  }

  /** The values of `u` occur in `xs`, in the order of their first occurrences there. */
  predicate InFirstOccurrenceOrder<T(==)>(u: seq<T>, xs: seq<T>) {
    && (forall i :: 0 <= i < |u| ==> u[i] in xs)
    && forall i, j :: 0 <= i < j < |u| ==> FirstPos(xs, u[i]) < FirstPos(xs, u[j])
  }

  /** The values of `xs` not in `seen`, each once, in order of first occurrence. */
  function Dedup<T(==, !new)>(xs: seq<T>, seen: set<T>): (u: seq<T>)
    ensures forall x :: x in u <==> x in xs && x !in seen
    ensures forall i, j :: 0 <= i < j < |u| ==> u[i] != u[j]
    ensures forall i, j :: 0 <= i < j < |u| ==> FirstPos(xs, u[i]) < FirstPos(xs, u[j])
    decreases |xs|
  {
    if |xs| == 0 then []
    else
      var rest := if xs[0] in seen then Dedup(xs[1..], seen) else Dedup(xs[1..], seen + {xs[0]});
      assert forall y :: y in rest ==> y != xs[0] && FirstPos(xs, y) == 1 + FirstPos(xs[1..], y);
      if xs[0] in seen then rest else [xs[0]] + rest
  }

  /** `Series.unique()`: each distinct value once, in order of first occurrence. */
  function Unique<T(==, !new)>(xs: seq<T>): (u: seq<T>)
    ensures forall x :: x in u <==> x in xs
    ensures forall i, j :: 0 <= i < j < |u| ==> u[i] != u[j]
    ensures InFirstOccurrenceOrder(u, xs)
  {
    Dedup(xs, {})
  }

  /** The ids the loop acts on: `if pid != 'nan'`. */
  function SkipNan(ids: seq<string>): (kept: seq<string>)
    ensures forall x :: x in kept <==> x in ids && x != Nan
    ensures (forall i, j :: 0 <= i < j < |ids| ==> ids[i] != ids[j]) ==>
              forall i, j :: 0 <= i < j < |kept| ==> kept[i] != kept[j]
  {
    if |ids| == 0 then []
    else if ids[0] == Nan then SkipNan(ids[1..])
    else
      var rest := SkipNan(ids[1..]);
      assert (forall i, j :: 0 <= i < j < |ids| ==> ids[i] != ids[j]) ==> ids[0] !in ids[1..];
      [ids[0]] + rest
  }

  /** Skipping "nan" after deduplicating is deduplicating with "nan" already seen. */
  lemma {:induction false} SkipNanOfDedup(xs: seq<string>, seen: set<string>)
    ensures SkipNan(Dedup(xs, seen)) == Dedup(xs, seen + {Nan})
    decreases |xs|
  {
    if |xs| > 0 {
      var x := xs[0];
      if x in seen {
        SkipNanOfDedup(xs[1..], seen);
      } else if x == Nan {
        SkipNanOfDedup(xs[1..], seen + {Nan});
        assert seen + {Nan} + {Nan} == seen + {Nan};
        var u := Dedup(xs, seen);
        assert u[0] == Nan && u[1..] == Dedup(xs[1..], seen + {Nan});
      } else {
        SkipNanOfDedup(xs[1..], seen + {x});
        assert seen + {x} + {Nan} == seen + {Nan} + {x};
        var u := Dedup(xs, seen);
        assert u[0] == x && u[1..] == Dedup(xs[1..], seen + {x});
      }
    }
  }

  /** `df_olca[df_olca['ProcessID'] == pid]`: the rows of `pid`, in order. */
  function Filter(rows: seq<Row>, pid: string): (f: seq<Row>)
    ensures |f| <= |rows|
    ensures forall i :: 0 <= i < |f| ==> f[i].processId == pid
    decreases |rows|
  {
    if |rows| == 0 then []
    else (if rows[0].processId == pid then [rows[0]] else []) + Filter(rows[1..], pid)
  }

  /** The filtered rows are exactly the rows of `pid`, each as often as in `rows`. */
  lemma {:induction false} FilterCounts(rows: seq<Row>, pid: string)
    ensures forall r :: multiset(Filter(rows, pid))[r] == if r.processId == pid then multiset(rows)[r] else 0
    decreases |rows|
  {
    if |rows| > 0 {
      FilterCounts(rows[1..], pid);
      assert rows == [rows[0]] + rows[1..];
      assert multiset(rows) == multiset([rows[0]]) + multiset(rows[1..]);
    }
  }

  /** A row is among the filtered rows exactly when it is a row of `pid`. */
  lemma FilterMembers(rows: seq<Row>, pid: string)
    ensures forall r :: r in Filter(rows, pid) <==> r in rows && r.processId == pid
  {
    FilterCounts(rows, pid);
    forall r
      ensures r in Filter(rows, pid) <==> r in rows && r.processId == pid
    {
      assert r in Filter(rows, pid) <==> multiset(Filter(rows, pid))[r] > 0;
      assert r in rows <==> multiset(rows)[r] > 0;
    }
  }

  /** The rows of each id of `ids` in turn, as the loop hands them on. */
  function Gather(rows: seq<Row>, ids: seq<string>): seq<Row>
    decreases |ids|
  {
    if |ids| == 0 then [] else Filter(rows, ids[0]) + Gather(rows, ids[1..])
  }

  /**
   Gathering over distinct ids loses and duplicates nothing: each row whose
   id is listed occurs as often as in `rows`, every other row not at all.
   */
  lemma {:induction false} GatherCounts(rows: seq<Row>, ids: seq<string>)
    requires forall j, k :: 0 <= j < k < |ids| ==> ids[j] != ids[k]
    ensures forall r :: multiset(Gather(rows, ids))[r] == if r.processId in ids then multiset(rows)[r] else 0
    decreases |ids|
  {
    if |ids| > 0 {
      GatherCounts(rows, ids[1..]);
      FilterCounts(rows, ids[0]);
      assert forall x :: x in ids <==> x == ids[0] || x in ids[1..];
      assert ids[0] !in ids[1..];
    }
  }

  /** Every filtered row is one of the rows. */
  lemma {:induction false} FilterFromRows(rows: seq<Row>, pid: string, i: nat)
    requires i < |Filter(rows, pid)|
    ensures Filter(rows, pid)[i] in rows
    decreases |rows|
  {
    if rows[0].processId == pid {
      if i > 0 {
        FilterFromRows(rows[1..], pid, i - 1);
      }
    } else {
      FilterFromRows(rows[1..], pid, i);
    }
  }

  /** Filtering distributes over concatenation. */
  lemma {:induction false} FilterConcat(a: seq<Row>, b: seq<Row>, pid: string)
    ensures Filter(a + b, pid) == Filter(a, pid) + Filter(b, pid)
    decreases |a|
  {
    if |a| > 0 {
      assert (a + b)[0] == a[0];
      assert (a + b)[1..] == a[1..] + b;
      FilterConcat(a[1..], b, pid);
      var h := if a[0].processId == pid then [a[0]] else [];
      assert Filter(a + b, pid) == h + Filter(a[1..] + b, pid);
      assert Filter(a, pid) == h + Filter(a[1..], pid);
    } else {
      assert a + b == b;
    }
  }

  /** The first row of `pid` among `rows` heads the filtered rows. */
  lemma {:induction false} FilterHead(rows: seq<Row>, pid: string, i: nat)
    requires i < |rows| && rows[i].processId == pid
    requires forall j :: 0 <= j < i ==> rows[j].processId != pid
    ensures |Filter(rows, pid)| > 0 && Filter(rows, pid)[0] == rows[i]
    decreases i
  {
    if i > 0 {
      FilterHead(rows[1..], pid, i - 1);
    }
  }

  /**
   The row that lends the reference row its process name and quality entry:
   the first row whose flow name is not the reference flow's.
   */
  function FirstDonor(group: seq<Row>): (d: Option<nat>)
    ensures d.None? <==> forall i :: 0 <= i < |group| ==> group[i].flowName == Some(RefFlowName)
    ensures d.Some? ==>
              && d.value < |group|
              && group[d.value].flowName != Some(RefFlowName)
              && forall i :: 0 <= i < d.value ==> group[i].flowName == Some(RefFlowName)
    decreases |group|
  {
    if |group| == 0 then None
    else if group[0].flowName != Some(RefFlowName) then Some(0)
    else
      match FirstDonor(group[1..])
      case None => None
      case Some(d) => Some(d + 1)
  }

  /** The `.loc[FlowName == refFlowName, ...]` updates, applied to one row. */
  function Stamp(row: Row, donor: Row): (r: Row)
    ensures row.flowName != Some(RefFlowName) ==> r == row
    ensures row.flowName == Some(RefFlowName) ==>
              r.processName == donor.processName && r.exchangeDqi == donor.exchangeDqi
    ensures r.(processName := row.processName, exchangeDqi := row.exchangeDqi) == row
  {
    if row.flowName == Some(RefFlowName) then
      row.(processName := donor.processName, exchangeDqi := donor.exchangeDqi)
    else row
  }

  /** The rows of one process, handed to the process builder with its metadata. */
  datatype Partition = Partition(pid: string, rows: seq<Row>, meta: Metadata.Meta)

  /** `.iloc[0]` on an empty selection: no row can lend its name to the reference row. */
  datatype Error = NoDonor(pid: string)

  /** `pd.concat([df_olca[df_olca['ProcessID'] == pid], ref_flow_copy])`. */
  function Group(table: seq<Row>, pid: string, s: Settings, uuid: Uuid): (group: seq<Row>)
    ensures |group| == |Filter(table, pid)| + 1
    ensures forall i :: 0 <= i < |group| ==> group[i].processId == pid
    ensures group[|group| - 1].reference && group[|group| - 1].flowName == Some(RefFlowName)
  {
    Filter(table, pid) + [Template(s, uuid).(processId := pid)]
  }

  /**
   The first row of the group has an SCTG code, so the `[SCTG]` replacement
   is defined. When `pid` has no rows the group starts with the template,
   whose code is the string "nan".
   */
  predicate HeadClassified(table: seq<Row>, pid: string) {
    |Filter(table, pid)| > 0 ==> Filter(table, pid)[0].sctg.Some?
  }

  /** Every row of `group` stamped with `donor`'s process name and quality entry where it carries the reference flow name. */
  function StampAll(group: seq<Row>, donor: Row): (rows: seq<Row>)
    ensures |rows| == |group|
    ensures forall i :: 0 <= i < |group| ==> rows[i] == Stamp(group[i], donor)
  {
    seq(|group|, i requires 0 <= i < |group| => Stamp(group[i], donor))
  }

  /**
   Stamping keeps whether a row is a reference row, so when none of the
   stamped rows is one, the only reference row is the one appended after them.
   */
  lemma OnlyLastIsReference(f: seq<Row>, rows: seq<Row>, donor: Row)
    requires |rows| == |f| + 1 && rows[|f|].reference
    requires forall i :: 0 <= i < |f| ==> !f[i].reference && rows[i] == Stamp(f[i], donor)
    ensures forall i :: 0 <= i < |rows| ==> (rows[i].reference <==> i == |rows| - 1)
  {
  }

  /** A row carrying the reference flow name appended after `rows` does not change their first donor. */
  lemma FirstDonorSkipsRefNamed(rows: seq<Row>, t: Row)
    requires t.flowName == Some(RefFlowName)
    ensures FirstDonor(rows + [t]) == FirstDonor(rows)
  {
    var g := rows + [t];
    assert forall i :: 0 <= i < |rows| ==> g[i] == rows[i];
    match FirstDonor(rows)
    case Some(d) =>
      var e := FirstDonor(g).value;
      assert !(d < e) && !(e < d);
    case None =>
  }

  /**
   The group is the rows of `pid` followed by the bound template, and the
   template never donates: the first donor of the group is the first donor
   among the rows of `pid`.
   */
  lemma GroupDonor(table: seq<Row>, pid: string, s: Settings, uuid: Uuid)
    ensures var f := Filter(table, pid);
            var group := Group(table, pid, s, uuid);
            && |group| == |f| + 1
            && (forall i :: 0 <= i < |f| ==> group[i] == f[i])
            && group[|f|].flowName == Some(RefFlowName)
            && FirstDonor(group) == FirstDonor(f)
  {
    var f := Filter(table, pid);
    var t := Template(s, uuid).(processId := pid);
    assert Group(table, pid, s, uuid) == f + [t];
    FirstDonorSkipsRefNamed(f, t);
  }

  /**
   One iteration of the loop. It fails exactly when every row of `pid` carries
   the reference flow name, so that no row can lend the reference row its name.
   */
  function BuildPartition(table: seq<Row>, pid: string, s: Settings, uuid: Uuid, meta: Metadata.Meta)
    : (r: Result<Partition, Error>)
    requires HeadClassified(table, pid)
    ensures var f := Filter(table, pid);
            r.Failure? <==> forall i :: 0 <= i < |f| ==> f[i].flowName == Some(RefFlowName)
    ensures r.Failure? ==> r.error == NoDonor(pid)
    ensures r.Success? ==> r.value.pid == pid && |r.value.rows| == |Filter(table, pid)| + 1
  {
    var group := Group(table, pid, s, uuid);
    GroupDonor(table, pid, s, uuid);
    match FirstDonor(group)
    case None => Failure(NoDonor(pid))
    case Some(d) =>
      var rows := StampAll(group, group[d]);
      Success(Partition(pid, rows, Metadata.Render(meta, rows[0].commodity, rows[0].sctg.value)))
  }

  /**
   The rows of a partition are the rows of its id in order, those carrying
   the reference flow name stamped with the donor's name and quality entry;
   the donor is the first row of the id whose flow name is not the
   reference flow's.
   */
  lemma PartitionInputRows(table: seq<Row>, pid: string, s: Settings, uuid: Uuid, meta: Metadata.Meta)
    requires HeadClassified(table, pid)
    requires BuildPartition(table, pid, s, uuid, meta).Success?
    ensures var f := Filter(table, pid);
            var p := BuildPartition(table, pid, s, uuid, meta).value;
            && FirstDonor(f).Some?
            && forall i :: 0 <= i < |f| ==> p.rows[i] == Stamp(f[i], f[FirstDonor(f).value])
  {
    GroupDonor(table, pid, s, uuid);
  }

  /**
   The last row of a partition is the template bound to its id, with the
   donor's process name and quality entry.
   */
  lemma PartitionReferenceRow(table: seq<Row>, pid: string, s: Settings, uuid: Uuid, meta: Metadata.Meta)
    requires HeadClassified(table, pid)
    requires BuildPartition(table, pid, s, uuid, meta).Success?
    ensures var f := Filter(table, pid);
            var p := BuildPartition(table, pid, s, uuid, meta).value;
            && FirstDonor(f).Some?
            && p.rows[|f|] == Template(s, uuid).(processId := pid,
                                                 processName := f[FirstDonor(f).value].processName,
                                                 exchangeDqi := f[FirstDonor(f).value].exchangeDqi)
  {
    GroupDonor(table, pid, s, uuid);
  }

  /**
   The metadata of a partition is the shared template rendered with the
   commodity and code of the first row of its id.
   */
  lemma PartitionMeta(table: seq<Row>, pid: string, s: Settings, uuid: Uuid, meta: Metadata.Meta)
    requires HeadClassified(table, pid)
    requires BuildPartition(table, pid, s, uuid, meta).Success?
    ensures var f := Filter(table, pid);
            var p := BuildPartition(table, pid, s, uuid, meta).value;
            && |f| > 0 && f[0].sctg.Some?
            && p.meta == Metadata.Render(meta, f[0].commodity, f[0].sctg.value)
  {
    GroupDonor(table, pid, s, uuid);
    var f := Filter(table, pid);
    var group := Group(table, pid, s, uuid);
    var d := FirstDonor(group).value;
    assert Stamp(group[0], group[d]).commodity == f[0].commodity;
  }

  /** `part` is what one iteration of the loop produces for its id. */
  predicate IsBuilt(table: seq<Row>, part: Partition, s: Settings, uuid: Uuid, meta: Metadata.Meta) {
    HeadClassified(table, part.pid) && BuildPartition(table, part.pid, s, uuid, meta) == Success(part)
  }

  /**
   The ids the loop builds a partition for: the distinct process ids of
   `table` in order of first occurrence, without "nan". Skipping "nan"
   before the loop is the same as the `if pid != 'nan'` inside it.
   */
  function Visited(table: seq<Row>): (pids: seq<string>)
    ensures forall x :: x in pids <==> x in Ids(table) && x != Nan
    ensures forall i, j :: 0 <= i < j < |pids| ==> pids[i] != pids[j]
    ensures InFirstOccurrenceOrder(pids, Ids(table))
  {
    SkipNanOfDedup(Ids(table), {});
    assert {} + {Nan} == {Nan};
    SkipNan(Unique(Ids(table)))
  }

  /** The body of the loop, for the ids whose first row is classified. */
  function Step(table: seq<Row>, s: Settings, uuid: Uuid, meta: Metadata.Meta): string --> Result<Partition, Error> {
    pid requires HeadClassified(table, pid) => BuildPartition(table, pid, s, uuid, meta)
  }

  /** The loop over `pids`: one partition per id, in order, unless some id has no donor row. */
  function BuildAll(table: seq<Row>, pids: seq<string>, s: Settings, uuid: Uuid, meta: Metadata.Meta)
    : (r: Result<seq<Partition>, Error>)
    requires forall x :: x in pids ==> HeadClassified(table, x)
    ensures r.Success? ==>
              && |r.value| == |pids|
              && forall j :: 0 <= j < |pids| ==> r.value[j].pid == pids[j] && IsBuilt(table, r.value[j], s, uuid, meta)
  {
    assert forall i :: 0 <= i < |pids| ==> pids[i] in pids;
    Loop.Collect(pids, Step(table, s, uuid, meta))
  }

  /**
   The loop fails exactly when some id has no donor row, and then with the
   error of the first such id.
   */
  lemma BuildAllFailsIffSomeIdHasNoDonor(table: seq<Row>, pids: seq<string>, s: Settings, uuid: Uuid, meta: Metadata.Meta)
    requires forall x :: x in pids ==> HeadClassified(table, x)
    ensures var r := BuildAll(table, pids, s, uuid, meta);
            && (r.Failure? <==> exists x :: x in pids && BuildPartition(table, x, s, uuid, meta).Failure?)
            && (r.Failure? ==>
                  exists j :: 0 <= j < |pids| && r.error == NoDonor(pids[j]) &&
                    forall k :: 0 <= k < j ==> BuildPartition(table, pids[k], s, uuid, meta).Success?)
  {
    var step := Step(table, s, uuid, meta);
    assert forall i :: 0 <= i < |pids| ==> pids[i] in pids;
    if exists x :: x in pids && BuildPartition(table, x, s, uuid, meta).Failure? {
      var x :| x in pids && BuildPartition(table, x, s, uuid, meta).Failure?;
      var i :| 0 <= i < |pids| && pids[i] == x;
      assert step(pids[i]).Failure?;
    }
  }
}
