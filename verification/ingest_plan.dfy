/** Preparing the ingest of one upsert: which tablets of the destination are to load data, from
    which tablets of the source, and from which of their replicas. */
module IngestPlan {
  import opened Wrappers
  import opened Progress

  datatype Replica = Replica(id: int, tabletId: int, backendId: int, version: int)
  /** Replicas and tablets come in the order of their ids. */
  datatype Tablet = Tablet(id: int, replicas: seq<Replica>)
  datatype IndexMeta = IndexMeta(id: int, name: string, isBase: bool)
  datatype PartitionRecord = PartitionRecord(id: int, range: string, version: int, isTemp: bool, stid: int)
  datatype TableRecord = TableRecord(id: int, partitions: seq<PartitionRecord>, indexIds: seq<int>)

  /** What the metadata of both clusters answers; a missing key is an error reply. */
  datatype Meta = Meta(
    tablesDropped: set<int>, partitionsDropped: set<int>, indexesDropped: set<int>, shadowIndexes: set<int>,
    srcRanges: map<int, set<string>>, destRanges: map<int, map<string, int>>,
    srcIndexes: map<(int, int), map<int, IndexMeta>>,
    destIndexes: map<(int, int), (map<string, IndexMeta>, IndexMeta)>,
    srcTablets: map<(int, int, int), seq<Tablet>>, destTablets: map<(int, int, int), seq<Tablet>>)

  /** The job's settings that matter here. */
  datatype Setup = Setup(syncType: SyncType, srcTable: string, srcTableId: int, destTable: string, destTableId: int,
                         tableMapping: map<int, int>, stids: map<int, int>)

  datatype TabletJob = TabletJob(version: int, stid: int, src: Tablet, dest: Tablet, destPartitionId: int, destTableId: int)

  // ----- One index -----

  function Paired(src: seq<Tablet>, dest: seq<Tablet>, version: int, stid: int, destPartitionId: int, destTableId: int): seq<TabletJob>
    requires |src| == |dest|
  {
    seq(|src|, i requires 0 <= i < |src| => TabletJob(version, stid, src[i], dest[i], destPartitionId, destTableId))
  }

  /** The places of one index in both clusters. */
  datatype IndexArg = IndexArg(version: int, stid: int, srcTableId: int, srcPartitionId: int, destTableId: int,
                               destPartitionId: int, srcIndexId: int, destIndexId: int)
  {
    function Src(): (int, int, int) { (srcTableId, srcPartitionId, srcIndexId) }
    function Dest(): (int, int, int) { (destTableId, destPartitionId, destIndexId) }
  }

  function IndexJobs(m: Meta, a: IndexArg): Option<seq<TabletJob>> {
    if a.Src() !in m.srcTablets || a.Dest() !in m.destTablets then None
    else if |m.srcTablets[a.Src()]| != |m.destTablets[a.Dest()]| then None
    else Some(Paired(m.srcTablets[a.Src()], m.destTablets[a.Dest()], a.version, a.stid, a.destPartitionId, a.destTableId))
  }

  // ----- One partition -----

  predicate Skips(m: Meta, indexId: int) { indexId in m.indexesDropped || indexId in m.shadowIndexes }

  function SrcIndexName(setup: Setup, index: IndexMeta, destBase: IndexMeta): string {
    if setup.syncType.TableSync? && index.name == setup.srcTable then setup.destTable
    else if index.isBase then destBase.name
    else index.name
  }

  /** The destination's index for a source index, found by name. */
  function DestIndex(m: Meta, setup: Setup, src: (int, int), dest: (int, int), indexId: int): Option<int>
    requires src in m.srcIndexes && dest in m.destIndexes
  {
    if indexId !in m.srcIndexes[src] then None
    else
      var name := SrcIndexName(setup, m.srcIndexes[src][indexId], m.destIndexes[dest].1);
      if name !in m.destIndexes[dest].0 then None else Some(m.destIndexes[dest].0[name].id)
  }

  predicate IndexesFound(m: Meta, setup: Setup, src: (int, int), dest: (int, int), indexIds: seq<int>)
    requires src in m.srcIndexes && dest in m.destIndexes
  {
    forall i :: 0 <= i < |indexIds| ==> Skips(m, indexIds[i]) || DestIndex(m, setup, src, dest, indexIds[i]).Some?
  }

  function Append<T>(a: Option<seq<T>>, b: Option<seq<T>>): Option<seq<T>> {
    if a.None? || b.None? then None else Some(a.value + b.value)
  }

  function IndexArgFor(setup: Setup, pr: PartitionRecord, t: (int, int), destPartitionId: int, indexId: int, destIndexId: int): IndexArg {
    IndexArg(pr.version, if pr.stid in setup.stids then setup.stids[pr.stid] else 0, t.0, pr.id, t.1, destPartitionId, indexId, destIndexId)
  }

  function IndexListJobs(m: Meta, setup: Setup, t: (int, int), pr: PartitionRecord, destPartitionId: int, indexIds: seq<int>)
    : Option<seq<TabletJob>>
    requires (t.0, pr.id) in m.srcIndexes && (t.1, destPartitionId) in m.destIndexes
  {
    if indexIds == [] then Some([])
    else
      var indexId := indexIds[|indexIds| - 1];
      var before := IndexListJobs(m, setup, t, pr, destPartitionId, indexIds[..|indexIds| - 1]);
      if Skips(m, indexId) then before
      else
        var d := DestIndex(m, setup, (t.0, pr.id), (t.1, destPartitionId), indexId);
        if d.None? then None else Append(before, IndexJobs(m, IndexArgFor(setup, pr, t, destPartitionId, indexId, d.value)))
  }

  function PartitionJobs(m: Meta, setup: Setup, t: (int, int), pr: PartitionRecord, indexIds: seq<int>): Option<seq<TabletJob>> {
    if indexIds == [] || t.1 !in m.destRanges || pr.range !in m.destRanges[t.1] then None
    else
      var p := m.destRanges[t.1][pr.range];
      if (t.0, pr.id) !in m.srcIndexes || (t.1, p) !in m.destIndexes then None
      else if !IndexesFound(m, setup, (t.0, pr.id), (t.1, p), indexIds) then None
      else IndexListJobs(m, setup, t, pr, p, indexIds)
  }

  // ----- One table, all tables -----

  predicate SkipsPartition(m: Meta, pr: PartitionRecord) { pr.isTemp || pr.id in m.partitionsDropped }

  function PartitionListJobs(m: Meta, setup: Setup, t: (int, int), prs: seq<PartitionRecord>, indexIds: seq<int>): Option<seq<TabletJob>> {
    if prs == [] then Some([])
    else
      var pr := prs[|prs| - 1];
      var before := PartitionListJobs(m, setup, t, prs[..|prs| - 1], indexIds);
      if SkipsPartition(m, pr) then before else Append(before, PartitionJobs(m, setup, t, pr, indexIds))
  }

  function TableIds(setup: Setup, tr: TableRecord): Option<(int, int)> {
    if setup.syncType.TableSync? then Some((setup.srcTableId, setup.destTableId))
    else if tr.id in setup.tableMapping then Some((tr.id, setup.tableMapping[tr.id]))
    else None
  }

  predicate RangesFound(m: Meta, t: (int, int), prs: seq<PartitionRecord>)
    requires t.0 in m.srcRanges && t.1 in m.destRanges
  {
    forall i :: 0 <= i < |prs| ==> SkipsPartition(m, prs[i]) || (prs[i].range in m.srcRanges[t.0] && prs[i].range in m.destRanges[t.1])
  }

  function TableJobs(m: Meta, setup: Setup, tr: TableRecord): Option<seq<TabletJob>> {
    if tr.id in m.tablesDropped then Some([])
    else if tr.partitions == [] then None
    else
      var t := TableIds(setup, tr);
      if t.None? || t.value.0 !in m.srcRanges || t.value.1 !in m.destRanges then None
      else if !RangesFound(m, t.value, tr.partitions) then None
      else PartitionListJobs(m, setup, t.value, tr.partitions, tr.indexIds)
  }

  function AllJobs(m: Meta, setup: Setup, trs: seq<TableRecord>): Option<seq<TabletJob>> {
    if trs == [] then Some([])
    else Append(AllJobs(m, setup, trs[..|trs| - 1]), TableJobs(m, setup, trs[|trs| - 1]))
  }

  // ----- The loops -----

  class IngestBinlogJob {
    const meta: Meta
    const setup: Setup
    var tabletIngestJobs: seq<TabletJob>
    var failed: bool

    constructor (meta: Meta, setup: Setup)
      ensures this.meta == meta && this.setup == setup && tabletIngestJobs == [] && !failed
    {
      this.meta, this.setup, tabletIngestJobs, failed := meta, setup, [], false;
    }

    /** The jobs of `more` were added, or the error was set. */
    ghost predicate Added(before: seq<TabletJob>, more: Option<seq<TabletJob>>)
      reads this
    {
      if more.None? then failed else !failed && tabletIngestJobs == before + more.value
    }

    method PrepareIndex(a: IndexArg)
      requires !failed
      modifies this
      ensures Added(old(tabletIngestJobs), IndexJobs(meta, a))
    {
      if a.Src() !in meta.srcTablets || a.Dest() !in meta.destTablets {
        failed := true;
        return;
      }
      var src, dest := meta.srcTablets[a.Src()], meta.destTablets[a.Dest()];
      if |src| != |dest| {
        failed := true;
        return;
      }
      ghost var all := Paired(src, dest, a.version, a.stid, a.destPartitionId, a.destTableId);
      for i := 0 to |src|
        invariant !failed && tabletIngestJobs == old(tabletIngestJobs) + all[..i]
      {
        assert all[..i + 1] == all[..i] + [all[i]];
        tabletIngestJobs := tabletIngestJobs + [TabletJob(a.version, a.stid, src[i], dest[i], a.destPartitionId, a.destTableId)];
      }
      assert all[..|src|] == all;
    }

    method PreparePartition(t: (int, int), pr: PartitionRecord, indexIds: seq<int>)
      requires !failed
      modifies this
      ensures Added(old(tabletIngestJobs), PartitionJobs(meta, setup, t, pr, indexIds))
    {
      if |indexIds| == 0 || t.1 !in meta.destRanges || pr.range !in meta.destRanges[t.1] {
        failed := true;
        return;
      }
      var destPartitionId := meta.destRanges[t.1][pr.range];
      if (t.0, pr.id) !in meta.srcIndexes || (t.1, destPartitionId) !in meta.destIndexes {
        failed := true;
        return;
      }
      var ok := CheckIndexes((t.0, pr.id), (t.1, destPartitionId), indexIds);
      if !ok {
        failed := true;
        return;
      }
      for i := 0 to |indexIds|
        invariant !failed
        invariant IndexListJobs(meta, setup, t, pr, destPartitionId, indexIds[..i]).Some?
        invariant tabletIngestJobs == old(tabletIngestJobs) + IndexListJobs(meta, setup, t, pr, destPartitionId, indexIds[..i]).value
      {
        assert indexIds[..i + 1][..i] == indexIds[..i];
        var indexId := indexIds[i];
        if !Skips(meta, indexId) {
          var d := DestIndex(meta, setup, (t.0, pr.id), (t.1, destPartitionId), indexId);
          PrepareIndex(IndexArgFor(setup, pr, t, destPartitionId, indexId, d.value));
          if failed {
            IndexListFails(meta, setup, t, pr, destPartitionId, indexIds, i);
            return;
          }
        }
      }
      assert indexIds[..|indexIds|] == indexIds;
    }

    method CheckIndexes(src: (int, int), dest: (int, int), indexIds: seq<int>) returns (ok: bool)
      requires src in meta.srcIndexes && dest in meta.destIndexes
      ensures ok == IndexesFound(meta, setup, src, dest, indexIds)
    {
      for i := 0 to |indexIds|
        invariant IndexesFound(meta, setup, src, dest, indexIds[..i])
      {
        if !Skips(meta, indexIds[i]) && DestIndex(meta, setup, src, dest, indexIds[i]).None? {
          return false;
        }
        assert indexIds[..i + 1] == indexIds[..i] + [indexIds[i]];
      }
      assert indexIds[..|indexIds|] == indexIds;
      return true;
    }

    method PrepareTable(tr: TableRecord)
      requires !failed
      modifies this
      ensures Added(old(tabletIngestJobs), TableJobs(meta, setup, tr))
    {
      if tr.id in meta.tablesDropped {
        return;
      }
      var ids := TableIds(setup, tr);
      if |tr.partitions| == 0 || ids.None? || ids.value.0 !in meta.srcRanges || ids.value.1 !in meta.destRanges {
        failed := true;
        return;
      }
      var t := ids.value;
      var ok := CheckRanges(t, tr.partitions);
      if !ok {
        failed := true;
        return;
      }
      for i := 0 to |tr.partitions|
        invariant !failed
        invariant PartitionListJobs(meta, setup, t, tr.partitions[..i], tr.indexIds).Some?
        invariant tabletIngestJobs == old(tabletIngestJobs) + PartitionListJobs(meta, setup, t, tr.partitions[..i], tr.indexIds).value
      {
        assert tr.partitions[..i + 1][..i] == tr.partitions[..i];
        if !SkipsPartition(meta, tr.partitions[i]) {
          PreparePartition(t, tr.partitions[i], tr.indexIds);
          if failed {
            PartitionListFails(meta, setup, t, tr.partitions, tr.indexIds, i);
            return;
          }
        }
      }
      assert tr.partitions[..|tr.partitions|] == tr.partitions;
    }

    method CheckRanges(t: (int, int), prs: seq<PartitionRecord>) returns (ok: bool)
      requires t.0 in meta.srcRanges && t.1 in meta.destRanges
      ensures ok == RangesFound(meta, t, prs)
    {
      for i := 0 to |prs|
        invariant RangesFound(meta, t, prs[..i])
      {
        if !SkipsPartition(meta, prs[i]) && !(prs[i].range in meta.srcRanges[t.0] && prs[i].range in meta.destRanges[t.1]) {
          return false;
        }
        assert prs[..i + 1] == prs[..i] + [prs[i]];
      }
      assert prs[..|prs|] == prs;
      return true;
    }

    method PrepareTabletIngestJobs(trs: seq<TableRecord>)
      requires !failed
      modifies this
      ensures Added([], AllJobs(meta, setup, trs))
    {
      tabletIngestJobs := [];
      for i := 0 to |trs|
        invariant !failed && AllJobs(meta, setup, trs[..i]) == Some(tabletIngestJobs)
      {
        assert trs[..i + 1][..i] == trs[..i];
        PrepareTable(trs[i]);
        if failed {
          AllFails(meta, setup, trs, i);
          return;
        }
      }
      assert trs[..|trs|] == trs;
    }
  }

  // An error in the middle of a list is an error of the list.

  lemma {:induction false} IndexListFails(m: Meta, setup: Setup, t: (int, int), pr: PartitionRecord, p: int, indexIds: seq<int>, i: nat)
    requires (t.0, pr.id) in m.srcIndexes && (t.1, p) in m.destIndexes && i < |indexIds|
    requires IndexListJobs(m, setup, t, pr, p, indexIds[..i + 1]).None?
    ensures IndexListJobs(m, setup, t, pr, p, indexIds).None?
    decreases |indexIds|
  {
    if i + 1 == |indexIds| {
      assert indexIds[..i + 1] == indexIds;
    } else {
      var before := indexIds[..|indexIds| - 1];
      assert before[..i + 1] == indexIds[..i + 1];
      IndexListFails(m, setup, t, pr, p, before, i);
    }
  }

  lemma {:induction false} PartitionListFails(m: Meta, setup: Setup, t: (int, int), prs: seq<PartitionRecord>, indexIds: seq<int>, i: nat)
    requires i < |prs| && PartitionListJobs(m, setup, t, prs[..i + 1], indexIds).None?
    ensures PartitionListJobs(m, setup, t, prs, indexIds).None?
    decreases |prs|
  {
    if i + 1 == |prs| {
      assert prs[..i + 1] == prs;
    } else {
      var before := prs[..|prs| - 1];
      assert before[..i + 1] == prs[..i + 1];
      PartitionListFails(m, setup, t, before, indexIds, i);
    }
  }

  lemma {:induction false} AllFails(m: Meta, setup: Setup, trs: seq<TableRecord>, i: nat)
    requires i < |trs| && AllJobs(m, setup, trs[..i + 1]).None?
    ensures AllJobs(m, setup, trs).None?
    decreases |trs|
  {
    if i + 1 == |trs| {
      assert trs[..i + 1] == trs;
    } else {
      var before := trs[..|trs| - 1];
      assert before[..i + 1] == trs[..i + 1];
      AllFails(m, setup, before, i);
    }
  }

  // ----- What the plan contains -----

  /** The destination's indexes by name, and its base index. */
  type DestNames = (map<string, IndexMeta>, IndexMeta)

  /** Where the data of a source index belongs: in a table sync that of the index named like the source
      table into the one named like the destination table, otherwise that of the base index into the
      base index, and that of any other index into its namesake. */
  ghost predicate BelongsTo(setup: Setup, index: IndexMeta, dest: DestNames, d: int) {
    if setup.syncType.TableSync? && index.name == setup.srcTable
    then setup.destTable in dest.0 && d == dest.0[setup.destTable].id
    else if index.isBase then dest.1.name in dest.0 && d == dest.0[dest.1.name].id
    else index.name in dest.0 && d == dest.0[index.name].id
  }

  ghost function Home(m: Meta, setup: Setup, src: (int, int), dest: (int, int), indexId: int): (r: Option<int>)
    requires src in m.srcIndexes && dest in m.destIndexes
    ensures forall d :: r == Some(d) <==>
              indexId in m.srcIndexes[src] && BelongsTo(setup, m.srcIndexes[src][indexId], m.destIndexes[dest], d)
  {
    if exists d :: indexId in m.srcIndexes[src] && BelongsTo(setup, m.srcIndexes[src][indexId], m.destIndexes[dest], d)
    then var d :| indexId in m.srcIndexes[src] && BelongsTo(setup, m.srcIndexes[src][indexId], m.destIndexes[dest], d); Some(d)
    else None
  }

  lemma DestIndexBelongs(m: Meta, setup: Setup, src: (int, int), dest: (int, int), indexId: int)
    requires src in m.srcIndexes && dest in m.destIndexes
    ensures forall d :: DestIndex(m, setup, src, dest, indexId) == Some(d) <==>
              indexId in m.srcIndexes[src] && BelongsTo(setup, m.srcIndexes[src][indexId], m.destIndexes[dest], d)
    ensures DestIndex(m, setup, src, dest, indexId) == Home(m, setup, src, dest, indexId)
  {
    var d, h := DestIndex(m, setup, src, dest, indexId), Home(m, setup, src, dest, indexId);
    assert forall x :: d == Some(x) <==> h == Some(x);
  }

  /** Job `x` loads the tablet of rank `r` of a kept index into the index `d` where its data belongs. */
  ghost predicate IsIndexJob(m: Meta, setup: Setup, t: (int, int), pr: PartitionRecord, p: int, indexId: int, d: int, r: nat, x: TabletJob)
    requires (t.0, pr.id) in m.srcIndexes && (t.1, p) in m.destIndexes
  {
    && indexId !in m.indexesDropped && indexId !in m.shadowIndexes && indexId in m.srcIndexes[(t.0, pr.id)]
    && BelongsTo(setup, m.srcIndexes[(t.0, pr.id)][indexId], m.destIndexes[(t.1, p)], d)
    && (t.0, pr.id, indexId) in m.srcTablets && (t.1, p, d) in m.destTablets
    && r < |m.srcTablets[(t.0, pr.id, indexId)]| && r < |m.destTablets[(t.1, p, d)]|
    && x == TabletJob(pr.version, if pr.stid in setup.stids then setup.stids[pr.stid] else 0,
                      m.srcTablets[(t.0, pr.id, indexId)][r], m.destTablets[(t.1, p, d)][r], p, t.1)
  }

  /** Job `x` belongs to the records `tr` and `pr`, neither of which is skipped. */
  ghost predicate IsRecordJob(m: Meta, setup: Setup, tr: TableRecord, pr: PartitionRecord, x: TabletJob) {
    && tr.id !in m.tablesDropped && pr in tr.partitions && !pr.isTemp && pr.id !in m.partitionsDropped
    && (setup.syncType.TableSync? || tr.id in setup.tableMapping)
    && var t := if setup.syncType.TableSync? then (setup.srcTableId, setup.destTableId) else (tr.id, setup.tableMapping[tr.id]);
    && t.1 in m.destRanges && pr.range in m.destRanges[t.1]
    && var p := m.destRanges[t.1][pr.range];
    && (t.0, pr.id) in m.srcIndexes && (t.1, p) in m.destIndexes
    && IsPartitionJob(m, setup, t, pr, p, tr.indexIds, x)
  }

  ghost predicate IsPartitionJob(m: Meta, setup: Setup, t: (int, int), pr: PartitionRecord, p: int, indexIds: seq<int>, x: TabletJob)
    requires (t.0, pr.id) in m.srcIndexes && (t.1, p) in m.destIndexes
  {
    exists indexId: int, d: int, r: nat :: indexId in indexIds && IsIndexJob(m, setup, t, pr, p, indexId, d, r, x)
  }

  lemma OneIndexMembers(m: Meta, setup: Setup, t: (int, int), pr: PartitionRecord, p: int, indexId: int, x: TabletJob)
    requires (t.0, pr.id) in m.srcIndexes && (t.1, p) in m.destIndexes && !Skips(m, indexId)
    requires var d := DestIndex(m, setup, (t.0, pr.id), (t.1, p), indexId);
      d.Some? && IndexJobs(m, IndexArgFor(setup, pr, t, p, indexId, d.value)).Some?
    ensures var d := DestIndex(m, setup, (t.0, pr.id), (t.1, p), indexId).value;
      x in IndexJobs(m, IndexArgFor(setup, pr, t, p, indexId, d)).value <==>
        exists d: int, r: nat :: IsIndexJob(m, setup, t, pr, p, indexId, d, r, x)
  {
    var d := DestIndex(m, setup, (t.0, pr.id), (t.1, p), indexId).value;
    var jobs := IndexJobs(m, IndexArgFor(setup, pr, t, p, indexId, d)).value;
    DestIndexBelongs(m, setup, (t.0, pr.id), (t.1, p), indexId);
    if x in jobs {
      var r :| 0 <= r < |jobs| && jobs[r] == x;
      assert IsIndexJob(m, setup, t, pr, p, indexId, d, r, x);
    }
    forall d': int, r: nat | IsIndexJob(m, setup, t, pr, p, indexId, d', r, x) ensures x in jobs {
      assert d' == d && jobs[r] == x;
    }
  }

  lemma {:induction false} IndexListMembers(m: Meta, setup: Setup, t: (int, int), pr: PartitionRecord, p: int, indexIds: seq<int>, x: TabletJob)
    requires (t.0, pr.id) in m.srcIndexes && (t.1, p) in m.destIndexes && IndexListJobs(m, setup, t, pr, p, indexIds).Some?
    ensures x in IndexListJobs(m, setup, t, pr, p, indexIds).value <==>
            IsPartitionJob(m, setup, t, pr, p, indexIds, x)
  {
    if indexIds != [] {
      var before, last := indexIds[..|indexIds| - 1], indexIds[|indexIds| - 1];
      assert indexIds == before + [last];
      IndexListMembers(m, setup, t, pr, p, before, x);
      if !Skips(m, last) {
        OneIndexMembers(m, setup, t, pr, p, last, x);
      }
    }
  }

  lemma {:induction false} PartitionListMembers(m: Meta, setup: Setup, t: (int, int), prs: seq<PartitionRecord>, indexIds: seq<int>, x: TabletJob)
    requires PartitionListJobs(m, setup, t, prs, indexIds).Some?
    ensures forall pr :: pr in prs && !SkipsPartition(m, pr) ==> PartitionJobs(m, setup, t, pr, indexIds).Some?
    ensures x in PartitionListJobs(m, setup, t, prs, indexIds).value <==>
            exists pr :: pr in prs && !SkipsPartition(m, pr) && x in PartitionJobs(m, setup, t, pr, indexIds).value
  {
    if prs != [] {
      var before, last := prs[..|prs| - 1], prs[|prs| - 1];
      assert prs == before + [last];
      PartitionListMembers(m, setup, t, before, indexIds, x);
    }
  }

  lemma TableMembers(m: Meta, setup: Setup, tr: TableRecord, x: TabletJob)
    requires TableJobs(m, setup, tr).Some?
    ensures x in TableJobs(m, setup, tr).value <==> exists pr :: IsRecordJob(m, setup, tr, pr, x)
  {
    if tr.id !in m.tablesDropped {
      var t := TableIds(setup, tr).value;
      PartitionListMembers(m, setup, t, tr.partitions, tr.indexIds, x);
      forall pr | pr in tr.partitions && !SkipsPartition(m, pr)
        ensures x in PartitionJobs(m, setup, t, pr, tr.indexIds).value <==> IsRecordJob(m, setup, tr, pr, x)
      {
        var p := m.destRanges[t.1][pr.range];
        IndexListMembers(m, setup, t, pr, p, tr.indexIds, x);
      }
    }
  }

  /** A prepared plan holds a job exactly for each tablet of each index that is neither dropped nor a
      shadow, of each partition that is neither temporary nor dropped, of each table not dropped; and
      every job pairs the source tablet and the destination tablet of the same rank. */
  lemma {:induction false} PlanMembers(m: Meta, setup: Setup, trs: seq<TableRecord>, x: TabletJob)
    requires AllJobs(m, setup, trs).Some?
    ensures x in AllJobs(m, setup, trs).value <==> exists tr, pr :: tr in trs && IsRecordJob(m, setup, tr, pr, x)
  {
    if trs != [] {
      var before, last := trs[..|trs| - 1], trs[|trs| - 1];
      assert trs == before + [last];
      PlanMembers(m, setup, before, x);
      TableMembers(m, setup, last, x);
    }
  }

  // The destination's side alone: every tablet that has to receive data, once.

  function Dests(jobs: seq<TabletJob>): seq<Tablet> {
    seq(|jobs|, i requires 0 <= i < |jobs| => jobs[i].dest)
  }

  ghost function IndexTablets(m: Meta, setup: Setup, t: (int, int), pr: PartitionRecord, p: int, indexIds: seq<int>): seq<Tablet>
    requires (t.0, pr.id) in m.srcIndexes && (t.1, p) in m.destIndexes
  {
    if indexIds == [] then []
    else
      var indexId := indexIds[|indexIds| - 1];
      var d := Home(m, setup, (t.0, pr.id), (t.1, p), indexId);
      IndexTablets(m, setup, t, pr, p, indexIds[..|indexIds| - 1]) +
      (if indexId in m.indexesDropped || indexId in m.shadowIndexes || d.None? || (t.1, p, d.value) !in m.destTablets then []
       else m.destTablets[(t.1, p, d.value)])
  }

  ghost function PartitionTablets(m: Meta, setup: Setup, t: (int, int), prs: seq<PartitionRecord>, indexIds: seq<int>): seq<Tablet> {
    if prs == [] then []
    else
      var pr := prs[|prs| - 1];
      PartitionTablets(m, setup, t, prs[..|prs| - 1], indexIds) +
      (if pr.isTemp || pr.id in m.partitionsDropped || t.1 !in m.destRanges || pr.range !in m.destRanges[t.1] then []
       else
         var p := m.destRanges[t.1][pr.range];
         if (t.0, pr.id) !in m.srcIndexes || (t.1, p) !in m.destIndexes then []
         else IndexTablets(m, setup, t, pr, p, indexIds))
  }

  ghost function WantedTablets(m: Meta, setup: Setup, trs: seq<TableRecord>): seq<Tablet> {
    if trs == [] then []
    else
      var tr := trs[|trs| - 1];
      WantedTablets(m, setup, trs[..|trs| - 1]) +
      (if tr.id in m.tablesDropped then []
       else if setup.syncType.TableSync? then PartitionTablets(m, setup, (setup.srcTableId, setup.destTableId), tr.partitions, tr.indexIds)
       else if tr.id in setup.tableMapping then PartitionTablets(m, setup, (tr.id, setup.tableMapping[tr.id]), tr.partitions, tr.indexIds)
       else [])
  }

  lemma DestsAppend(a: seq<TabletJob>, b: seq<TabletJob>)
    ensures Dests(a + b) == Dests(a) + Dests(b)
  {
  }

  lemma {:induction false} IndexListDests(m: Meta, setup: Setup, t: (int, int), pr: PartitionRecord, p: int, indexIds: seq<int>)
    requires (t.0, pr.id) in m.srcIndexes && (t.1, p) in m.destIndexes && IndexListJobs(m, setup, t, pr, p, indexIds).Some?
    ensures Dests(IndexListJobs(m, setup, t, pr, p, indexIds).value) == IndexTablets(m, setup, t, pr, p, indexIds)
  {
    if indexIds != [] {
      var before, last := indexIds[..|indexIds| - 1], indexIds[|indexIds| - 1];
      IndexListDests(m, setup, t, pr, p, before);
      if !Skips(m, last) {
        var a := IndexArgFor(setup, pr, t, p, last, DestIndex(m, setup, (t.0, pr.id), (t.1, p), last).value);
        DestIndexBelongs(m, setup, (t.0, pr.id), (t.1, p), last);
        DestsAppend(IndexListJobs(m, setup, t, pr, p, before).value, IndexJobs(m, a).value);
        assert Dests(IndexJobs(m, a).value) == m.destTablets[a.Dest()];
      }
    }
  }

  lemma {:induction false} PartitionListDests(m: Meta, setup: Setup, t: (int, int), prs: seq<PartitionRecord>, indexIds: seq<int>)
    requires PartitionListJobs(m, setup, t, prs, indexIds).Some?
    ensures Dests(PartitionListJobs(m, setup, t, prs, indexIds).value) == PartitionTablets(m, setup, t, prs, indexIds)
  {
    if prs != [] {
      var before, last := prs[..|prs| - 1], prs[|prs| - 1];
      PartitionListDests(m, setup, t, before, indexIds);
      if !SkipsPartition(m, last) {
        IndexListDests(m, setup, t, last, m.destRanges[t.1][last.range], indexIds);
        DestsAppend(PartitionListJobs(m, setup, t, before, indexIds).value, PartitionJobs(m, setup, t, last, indexIds).value);
      }
    }
  }

  /** Every tablet that has to receive data is loaded by one job, in order, and no other is. */
  lemma {:induction false} PlanDestinations(m: Meta, setup: Setup, trs: seq<TableRecord>)
    requires AllJobs(m, setup, trs).Some?
    ensures Dests(AllJobs(m, setup, trs).value) == WantedTablets(m, setup, trs)
  {
    if trs != [] {
      var before, last := trs[..|trs| - 1], trs[|trs| - 1];
      PlanDestinations(m, setup, before);
      if last.id !in m.tablesDropped {
        PartitionListDests(m, setup, TableIds(setup, last).value, last.partitions, last.indexIds);
      }
      DestsAppend(AllJobs(m, setup, before).value, TableJobs(m, setup, last).value);
    }
  }

  // ----- Which indexes share a destination -----

  /** Names are those of their entries, ids tell the entries apart, and the base index is one of them. */
  ghost predicate WellNamed(dest: DestNames) {
    && (forall n :: n in dest.0 ==> dest.0[n].name == n)
    && (forall n, n' :: n in dest.0 && n' in dest.0 && n != n' ==> dest.0[n].id != dest.0[n'].id)
    && dest.1.name in dest.0 && dest.0[dest.1.name] == dest.1
  }

  ghost predicate Share(setup: Setup, dest: DestNames, i: IndexMeta, j: IndexMeta) {
    exists d :: BelongsTo(setup, i, dest, d) && BelongsTo(setup, j, dest, d)
  }

  /** Two source indexes of different names, not both the base index, load into one destination index
      exactly where a name of the source clashes with a name of the destination: a rollup named like
      the base index there, or, in a table sync, like the destination table. */
  lemma {:induction false} ShareExactly(setup: Setup, dest: DestNames, i: IndexMeta, j: IndexMeta)
    requires WellNamed(dest) && i.name != j.name && !j.isBase
    ensures Share(setup, dest, i, j) <==>
      if setup.syncType.TableSync? && i.name == setup.srcTable then setup.destTable in dest.0 && j.name == setup.destTable
      else if setup.syncType.TableSync? && j.name == setup.srcTable
      then setup.destTable in dest.0 && setup.destTable == (if i.isBase then dest.1.name else i.name)
      else i.isBase && j.name == dest.1.name
  {
    if setup.syncType.TableSync? && i.name == setup.srcTable && setup.destTable in dest.0 && j.name == setup.destTable {
      assert BelongsTo(setup, i, dest, dest.0[setup.destTable].id) && BelongsTo(setup, j, dest, dest.0[setup.destTable].id);
    } else if setup.syncType.TableSync? && j.name == setup.srcTable && setup.destTable in dest.0
           && setup.destTable == (if i.isBase then dest.1.name else i.name) {
      assert BelongsTo(setup, i, dest, dest.0[setup.destTable].id) && BelongsTo(setup, j, dest, dest.0[setup.destTable].id);
    } else if i.isBase && j.name == dest.1.name && !(setup.syncType.TableSync? && (i.name == setup.srcTable || j.name == setup.srcTable)) {
      assert BelongsTo(setup, i, dest, dest.1.id) && BelongsTo(setup, j, dest, dest.1.id);
    }
  }

  /** In a database sync two rollups never load into the same index. */
  lemma {:induction false} RollupsApart(setup: Setup, dest: DestNames, i: IndexMeta, j: IndexMeta)
    requires setup.syncType.DBSync? && WellNamed(dest) && i.name != j.name && !i.isBase && !j.isBase
    ensures !Share(setup, dest, i, j)
  {
    ShareExactly(setup, dest, i, j);
  }

  /** The clash written out: table "t" goes to table "d" and has a rollup named "d". */
  lemma {:induction false} RollupNamedLikeTheTable(setup: Setup)
    requires setup.syncType.TableSync? && setup.srcTable == "t" && setup.destTable == "d"
    ensures var base := IndexMeta(20, "d", true);
      Share(setup, (map["d" := base], base), IndexMeta(10, "t", true), IndexMeta(11, "d", false))
  {
    var base := IndexMeta(20, "d", true);
    ShareExactly(setup, (map["d" := base], base), IndexMeta(10, "t", true), IndexMeta(11, "d", false));
  }
}
