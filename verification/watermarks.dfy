/** Per-table and per-partition watermarks left by snapshots, the filters they drive during
    replay, and the switch that drops them. */
module Watermarks {
  import opened Wrappers
  import opened Progress
  import opened ProgressObject

  type Marks = Option<map<int, Seq>>

  /** The records of one table in an upsert binlog. */
  datatype TableRecord = TableRecord(id: int, partitions: seq<int>)

  predicate Reaches(marks: Marks, key: int, c: Seq) {
    marks.Some? && key in marks.value && c <= marks.value[key]
  }

  /** Is the change made at `c` to partition `p` of table `t` already in the destination? */
  predicate Covered(tables: Marks, parts: Marks, t: int, p: int, c: Seq) {
    Reaches(tables, t, c) || Reaches(parts, p, c)
  }

  predicate AllReached(marks: Marks, c: Seq) {
    marks.Some? ==> forall k :: k in marks.value ==> marks.value[k] <= c
  }

  function Uncovered(parts: Marks, ps: seq<int>, c: Seq): (r: seq<int>) {
    if ps == [] then []
    else if Reaches(parts, ps[0], c) then Uncovered(parts, ps[1..], c)
    else [ps[0]] + Uncovered(parts, ps[1..], c)
  }

  lemma {:induction false} UncoveredMembers(parts: Marks, ps: seq<int>, c: Seq)
    ensures forall p :: p in Uncovered(parts, ps, c) <==> p in ps && !Reaches(parts, p, c)
  {
    if ps != [] {
      assert ps == [ps[0]] + ps[1..];
      UncoveredMembers(parts, ps[1..], c);
    }
  }

  lemma {:induction false} UncoveredAppend(parts: Marks, ps: seq<int>, p: int, c: Seq)
    ensures Uncovered(parts, ps + [p], c) ==
            Uncovered(parts, ps, c) + (if Reaches(parts, p, c) then [] else [p])
  {
    if ps == [] {
      assert ps + [p] == [p] && [p][1..] == [];
    } else {
      assert (ps + [p])[1..] == ps[1..] + [p];
      UncoveredAppend(parts, ps[1..], p, c);
    }
  }

  method FilterPartitions(parts: Marks, ps: seq<int>, c: Seq) returns (kept: seq<int>)
    ensures kept == Uncovered(parts, ps, c)
  {
    kept := [];
    for i := 0 to |ps|
      invariant kept == Uncovered(parts, ps[..i], c)
    {
      assert ps[..i + 1] == ps[..i] + [ps[i]];
      UncoveredAppend(parts, ps[..i], ps[i], c);
      if !(parts.Some? && ps[i] in parts.value && c <= parts.value[ps[i]]) {
        kept := kept + [ps[i]];
      }
    }
    assert ps[..|ps|] == ps;
  }

  lemma {:induction false} NoMarksNoFilter(ps: seq<int>, c: Seq)
    ensures Uncovered(None, ps, c) == ps
  {
    if ps != [] {
      NoMarksNoFilter(ps[1..], c);
    }
  }

  /** The records kept when the tables of the upsert are visited in `order`. */
  function DbRecords(tables: Marks, parts: Marks, records: map<int, seq<int>>, c: Seq, order: seq<int>): seq<TableRecord>
    requires forall t :: t in order ==> t in records
  {
    if order == [] then []
    else
      var before, t := order[..|order| - 1], order[|order| - 1];
      DbRecords(tables, parts, records, c, before) +
      (if Reaches(tables, t, c) || Uncovered(parts, records[t], c) == [] then []
       else [TableRecord(t, Uncovered(parts, records[t], c))])
  }

  method GetDbSyncTableRecords(tables: Marks, parts: Marks, records: map<int, seq<int>>, c: Seq, order: seq<int>)
    returns (r: seq<TableRecord>)
    requires Enumerates(order, records.Keys)
    ensures r == DbRecords(tables, parts, records, c, order)
  {
    r := [];
    for n := 0 to |order|
      invariant r == DbRecords(tables, parts, records, c, order[..n])
    {
      var t := order[n];
      assert order[..n + 1][..n] == order[..n];
      if !(tables.Some? && t in tables.value && c <= tables.value[t]) {
        var ps := records[t];
        if parts.Some? {
          ps := FilterPartitions(parts, ps, c);
        } else {
          NoMarksNoFilter(ps, c);
        }
        if |ps| > 0 {
          r := r + [TableRecord(t, ps)];
        }
      }
    }
    assert order[..|order|] == order;
  }

  /** Table `t` has a record holding partition `p`. */
  predicate Holds(r: seq<TableRecord>, t: int, p: int) {
    exists i :: 0 <= i < |r| && r[i].id == t && p in r[i].partitions
  }

  /** Whatever the order, a partition record of the upsert is kept exactly when no watermark
      covers it, no kept record is empty, and no table has two. */
  lemma {:induction false} FilterKeepsTheRest(tables: Marks, parts: Marks, records: map<int, seq<int>>, c: Seq, order: seq<int>)
    requires forall t :: t in order ==> t in records
    requires forall i, j :: 0 <= i < j < |order| ==> order[i] != order[j]
    ensures var r := DbRecords(tables, parts, records, c, order);
      && (forall i :: 0 <= i < |r| ==> r[i].id in order && r[i].partitions != [])
      && (forall i, j :: 0 <= i < j < |r| ==> r[i].id != r[j].id)
      && (forall t, p :: Holds(r, t, p) <==> t in order && p in records[t] && !Covered(tables, parts, t, p, c))
    decreases |order|
  {
    if order != [] {
      var before, t := order[..|order| - 1], order[|order| - 1];
      assert order == before + [t] && t !in before;
      FilterKeepsTheRest(tables, parts, records, c, before);
      UncoveredMembers(parts, records[t], c);
      var r0, r := DbRecords(tables, parts, records, c, before), DbRecords(tables, parts, records, c, order);
      assert r0 <= r && |r| <= |r0| + 1;
      assert |r| == |r0| + 1 ==> r[|r0|] == TableRecord(t, Uncovered(parts, records[t], c));
      forall t', p
        ensures Holds(r, t', p) <==> t' in order && p in records[t'] && !Covered(tables, parts, t', p, c)
      {
        assert Holds(r0, t', p) <==> t' in before && p in records[t'] && !Covered(tables, parts, t', p, c);
        if Holds(r0, t', p) {
          var i :| 0 <= i < |r0| && r0[i].id == t' && p in r0[i].partitions;
          assert r[i] == r0[i];
        }
      }
    }
  }

  /** A binlog other than an upsert is skipped by the table watermark alone. */
  predicate IsBinlogCommitted(applied: set<Seq>, sync: SyncState, tables: Marks, t: int, c: Seq) {
    c in applied || (sync.DBTablesIncrementalSync? && Reaches(tables, t, c))
  }

  /** Raising the entries of the tables a transaction wrote.  The source looks destination ids
      up in a map keyed by source ids; only ids that happen to be keys matter. */
  function Raised(tables: Marks, ids: set<int>, c: Seq): (r: Marks)
    ensures r.Some? == tables.Some?
    ensures r.Some? ==> r.value.Keys == tables.value.Keys
    ensures r.Some? ==> forall k :: k in r.value ==>
      r.value[k] == (if k in ids && tables.value[k] < c then c else tables.value[k])
  {
    if tables.None? then None
    else Some(map k | k in tables.value :: if k in ids && tables.value[k] < c then c else tables.value[k])
  }

  method RaiseTables(tables: map<int, Seq>, destTableIds: seq<int>, c: Seq) returns (r: map<int, Seq>)
    ensures Some(r) == Raised(Some(tables), set i | 0 <= i < |destTableIds| :: destTableIds[i], c)
  {
    r := tables;
    for i := 0 to |destTableIds|
      invariant r.Keys == tables.Keys
      invariant forall k :: k in r ==>
        r[k] == (if k in destTableIds[..i] && tables[k] < c then c else tables[k])
    {
      var id := destTableIds[i];
      if id in r && r[id] < c {
        r := r[id := c];
      }
    }
    ghost var ids := set i | 0 <= i < |destTableIds| :: destTableIds[i];
    assert destTableIds[..|destTableIds|] == destTableIds;
    var spec := Raised(Some(tables), ids, c).value;
    forall k | k in r ensures r[k] == spec[k] {
      assert k in ids <==> k in destTableIds;
    }
    assert r == spec;
  }

  predicate Switches(syncType: SyncType, tables: Marks, parts: Marks, c: Seq) {
    syncType.DBSync? && tables.Some? && AllReached(tables, c) && AllReached(parts, c)
  }

  function AfterHandle<D>(syncType: SyncType, r: Row<D>, c: Seq): Row<D> {
    if Switches(syncType, r.tables, r.parts, c)
    then r.(tables := None, parts := None, sync := DBIncrementalSync)
    else r
  }

  /** One of the two scans of the switch: stop at the first watermark above `c`. */
  method ScanReached(marks: map<int, Seq>, order: seq<int>, c: Seq) returns (reached: bool)
    requires Enumerates(order, marks.Keys)
    ensures reached <==> forall k :: k in marks ==> marks[k] <= c
  {
    reached := true;
    for n := 0 to |order|
      invariant reached && forall i :: 0 <= i < n ==> marks[order[i]] <= c
    {
      if marks[order[n]] > c {
        assert order[n] in marks;
        reached := false;
        break;
      }
    }
  }

  method AfterHandleBinlog<D>(progress: JobProgress<D>, syncType: SyncType, c: Seq, tableOrder: seq<int>, partOrder: seq<int>)
    requires progress.tableCommitSeqMap.Some? ==> Enumerates(tableOrder, progress.tableCommitSeqMap.value.Keys)
    requires progress.partitionCommitSeqMap.Some? ==> Enumerates(partOrder, progress.partitionCommitSeqMap.value.Keys)
    modifies progress
    ensures progress.View() == old(progress.View()).(cur := AfterHandle(syncType, old(progress.Fields()), c))
  {
    if syncType == DBSync && progress.tableCommitSeqMap.Some? {
      var reach := ScanReached(progress.tableCommitSeqMap.value, tableOrder, c);
      if progress.partitionCommitSeqMap.Some? {
        var reachParts := ScanReached(progress.partitionCommitSeqMap.value, partOrder, c);
        reach := reach && reachParts;
      }
      if reach {
        progress.tableCommitSeqMap := None;
        progress.partitionCommitSeqMap := None;
        progress.syncState := DBIncrementalSync;
      }
    }
  }

  // ----- Dropping the watermarks is invisible -----

  /** What the filters look at. */
  datatype View = View(sync: SyncState, tables: Marks, parts: Marks, at: Seq)

  /** `Handle` is one replayed binlog at `c` writing the tables `ids`; `Merge` is a finished
      partial snapshot; `Replace` a finished full snapshot. */
  datatype Event =
    | Handle(c: Seq, ids: set<int>)
    | Merge(newTables: map<int, Seq>, newParts: map<int, Seq>, c: Seq)
    | Replace(newTables: map<int, Seq>, c: Seq)
    | Save
    | Crash

  datatype Pair = Pair(cur: View, db: View)

  function Merged(marks: Marks, m: map<int, Seq>): (r: Marks)
    ensures r.Some? && forall k :: k in r.value <==> k in m || (marks.Some? && k in marks.value)
    ensures forall k :: k in r.value ==> r.value[k] == if k in m then m[k] else marks.value[k]
  {
    if marks.None? then Some(m) else Some(marks.value + m)
  }

  /** `drop` is the source; without it the maps are kept for ever. */
  function Apply(v: View, e: Event, drop: bool): View
    requires e.Handle? || e.Merge? || e.Replace?
  {
    match e
    case Handle(c, ids) =>
      var tables := Raised(v.tables, ids, c);
      if drop && Switches(DBSync, tables, v.parts, c) then View(DBIncrementalSync, None, None, c)
      else View(v.sync, tables, v.parts, c)
    case Merge(ts, ps, c) =>
      View(DBTablesIncrementalSync, Merged(v.tables, ts), Merged(v.parts, ps), c)
    case Replace(ts, c) =>
      View(DBTablesIncrementalSync, Some(ts), None, c)
  }

  function Stored(v: View): View { v.(tables := OmitEmpty(v.tables), parts := OmitEmpty(v.parts)) }

  function Step(s: Pair, e: Event, drop: bool): Pair {
    match e
    case Save => Pair(s.cur, s.cur)
    case Crash => Pair(Stored(s.db), s.db)
    case _ => Pair(Apply(s.cur, e, drop), s.db)
  }

  function RunFrom(s: Pair, es: seq<Event>, drop: bool): Pair
    decreases |es|
  {
    if es == [] then s else RunFrom(Step(s, es[0], drop), es[1..], drop)
  }

  /** Replay only moves forward; a snapshot may restart at any point. */
  ghost predicate Forward(s: Pair, es: seq<Event>)
    decreases |es|
  {
    es == [] || (
      && (es[0].Handle? ==> es[0].c > s.cur.at)
      && (es[0].Merge? ==> es[0].c >= s.cur.at)
      && Forward(Step(s, es[0], true), es[1..]))
  }

  /** Both views give the same answer to every question about a binlog after `at`. */
  ghost predicate SameAnswers(v: View, k: View) {
    && v.at == k.at
    && (forall t, p, c :: c > v.at ==> (Covered(v.tables, v.parts, t, p, c) <==> Covered(k.tables, k.parts, t, p, c)))
    && (forall applied, t, c :: c > v.at ==>
          (IsBinlogCommitted(applied, v.sync, v.tables, t, c) <==> IsBinlogCommitted(applied, k.sync, k.tables, t, c)))
  }

  ghost predicate SameMarks(m: Marks, n: Marks, at: Seq) {
    forall k, c :: c > at ==> (Reaches(m, k, c) <==> Reaches(n, k, c))
  }

  /** The relation kept by every event. */
  ghost predicate Similar(v: View, k: View) {
    && v.at == k.at
    && SameMarks(v.tables, k.tables, v.at)
    && SameMarks(v.parts, k.parts, v.at)
    && k.sync.DBTablesIncrementalSync?
    && (v.sync.DBTablesIncrementalSync? || (v.sync.DBIncrementalSync? && AllReached(v.tables, v.at)))
  }

  lemma SimilarAnswers(v: View, k: View)
    requires Similar(v, k)
    ensures SameAnswers(v, k)
  {
    if v.sync.DBIncrementalSync? {
      forall t, c | c > v.at ensures !Reaches(v.tables, t, c) && !Reaches(k.tables, t, c) {
        assert Reaches(v.tables, t, c) <==> Reaches(k.tables, t, c);
      }
    }
    forall t, p, c | c > v.at
      ensures Covered(v.tables, v.parts, t, p, c) <==> Covered(k.tables, k.parts, t, p, c)
    {
      assert Reaches(v.tables, t, c) <==> Reaches(k.tables, t, c);
      assert Reaches(v.parts, p, c) <==> Reaches(k.parts, p, c);
    }
  }

  lemma RaisedSame(m: Marks, n: Marks, ids: set<int>, at: Seq, c: Seq)
    requires SameMarks(m, n, at) && c >= at
    ensures SameMarks(Raised(m, ids, c), Raised(n, ids, c), c)
    ensures AllReached(m, at) ==> AllReached(Raised(m, ids, c), c)
  {
    forall k, x | x > c ensures Reaches(Raised(m, ids, c), k, x) <==> Reaches(Raised(n, ids, c), k, x) {
      assert Reaches(m, k, x) <==> Reaches(n, k, x);
    }
  }

  lemma DroppedSame(m: Marks, c: Seq)
    requires AllReached(m, c)
    ensures SameMarks(None, m, c)
  {
  }

  lemma MergedSame(m: Marks, n: Marks, add: map<int, Seq>, at: Seq, c: Seq)
    requires SameMarks(m, n, at) && c >= at
    ensures SameMarks(Merged(m, add), Merged(n, add), c)
  {
    forall k, x | x > c ensures Reaches(Merged(m, add), k, x) <==> Reaches(Merged(n, add), k, x) {
      assert Reaches(m, k, x) <==> Reaches(n, k, x);
    }
  }

  lemma StoredSame(m: Marks, at: Seq)
    ensures SameMarks(OmitEmpty(m), m, at)
    ensures AllReached(m, at) ==> AllReached(OmitEmpty(m), at)
  {
    if m.Some? && |m.value| == 0 {
      assert m.value.Keys == {};
      assert forall k :: k !in m.value;
    }
  }

  lemma ApplySimilar(v: View, k: View, e: Event)
    requires Similar(v, k)
    requires e.Handle? || e.Merge? || e.Replace?
    requires (e.Handle? || e.Merge?) ==> e.c >= v.at
    ensures Similar(Apply(v, e, true), Apply(k, e, false))
  {
    match e
    case Handle(c, ids) =>
      RaisedSame(v.tables, k.tables, ids, v.at, c);
      assert SameMarks(v.parts, k.parts, c);
      var tables := Raised(v.tables, ids, c);
      if Switches(DBSync, tables, v.parts, c) {
        DroppedSame(tables, c);
        DroppedSame(v.parts, c);
        assert SameMarks(None, Raised(k.tables, ids, c), c) by {
          forall x, y | y > c ensures Reaches(None, x, y) <==> Reaches(Raised(k.tables, ids, c), x, y) {
            assert Reaches(tables, x, y) <==> Reaches(Raised(k.tables, ids, c), x, y);
          }
        }
        assert SameMarks(None, k.parts, c) by {
          forall x, y | y > c ensures Reaches(None, x, y) <==> Reaches(k.parts, x, y) {
            assert Reaches(v.parts, x, y) <==> Reaches(k.parts, x, y);
          }
        }
      }
    case Merge(ts, ps, c) =>
      MergedSame(v.tables, k.tables, ts, v.at, c);
      MergedSame(v.parts, k.parts, ps, v.at, c);
    case Replace(_, _) =>
  }

  /** The events are what happens to a row: a handled upsert, and a crash. */
  lemma {:induction false} EventsAreSteps<D>(r: Row<D>, at: Seq, c: Seq, ids: set<int>)
    ensures var raised := r.(tables := Raised(r.tables, ids, c));
      var r' := AfterHandle(DBSync, raised, c);
      Apply(View(r.sync, r.tables, r.parts, at), Handle(c, ids), true) == View(r'.sync, r'.tables, r'.parts, c)
    ensures Stored(View(r.sync, r.tables, r.parts, at)) == View(Decoded(r).sync, Decoded(r).tables, Decoded(r).parts, at)
  {
  }

  /** From any moment on, over any mix of replayed binlogs, finished snapshots, saves and
      crashes, the job that drops its watermarks filters exactly like one that keeps them. */
  lemma {:induction false} SwitchIsInvisible(s: Pair, k: Pair, es: seq<Event>)
    requires Similar(s.cur, k.cur) && Similar(s.db, k.db)
    requires Forward(s, es)
    ensures SameAnswers(RunFrom(s, es, true).cur, RunFrom(k, es, false).cur)
    decreases |es|
  {
    if es == [] {
      SimilarAnswers(s.cur, k.cur);
    } else {
      var e := es[0];
      var s', k' := Step(s, e, true), Step(k, e, false);
      if e.Crash? {
        StoredSame(s.db.tables, s.db.at); StoredSame(k.db.tables, k.db.at);
        StoredSame(s.db.parts, s.db.at); StoredSame(k.db.parts, k.db.at);
        assert Similar(s'.cur, k'.cur) by {
          forall x, y | y > s.db.at
            ensures Reaches(s'.cur.tables, x, y) <==> Reaches(k'.cur.tables, x, y)
            ensures Reaches(s'.cur.parts, x, y) <==> Reaches(k'.cur.parts, x, y)
          {
            assert Reaches(s.db.tables, x, y) <==> Reaches(k.db.tables, x, y);
            assert Reaches(s.db.parts, x, y) <==> Reaches(k.db.parts, x, y);
          }
        }
      } else if !e.Save? {
        ApplySimilar(s.cur, k.cur, e);
      }
      SwitchIsInvisible(s', k', es[1..]);
    }
  }

  /** When the switch happens: after a binlog of a database sync with table watermarks, exactly when no
      entry of either map lies beyond that binlog; otherwise nothing changes. */
  lemma {:induction false} SwitchExactly<D>(syncType: SyncType, r: Row<D>, c: Seq)
    ensures var reached := syncType.DBSync? && r.tables.Some? && (forall k :: k in r.tables.value ==> r.tables.value[k] <= c)
              && (r.parts.Some? ==> forall k :: k in r.parts.value ==> r.parts.value[k] <= c);
      AfterHandle(syncType, r, c) == if reached then r.(tables := None, parts := None, sync := DBIncrementalSync) else r
  {
    assert AllReached(r.tables, c) <==> (r.tables.Some? ==> forall k :: k in r.tables.value ==> r.tables.value[k] <= c);
    assert AllReached(r.parts, c) <==> (r.parts.Some? ==> forall k :: k in r.parts.value ==> r.parts.value[k] <= c);
  }

  /** The switch itself: at the moment the maps are cleared nothing after `c` was filtered by them. */
  lemma {:induction false} SwitchPoint<D>(r: Row<D>, c: Seq)
    ensures var r' := AfterHandle(DBSync, r, c);
      r' != r && r.sync.DBTablesIncrementalSync? ==>
      Similar(View(r'.sync, r'.tables, r'.parts, c), View(r.sync, r.tables, r.parts, c))
  {
    if Switches(DBSync, r.tables, r.parts, c) {
      DroppedSame(r.tables, c);
      DroppedSame(r.parts, c);
    }
  }

  /** Applying a transaction at `c` never lifts an entry above `c`, never lowers one, and
      changes no answer about a binlog after `c`. */
  lemma {:induction false} RaiseIsBounded(tables: Marks, ids: set<int>, c: Seq)
    requires tables.Some?
    ensures forall k :: k in tables.value ==>
      var r := Raised(tables, ids, c).value[k];
      r >= tables.value[k] && (r == tables.value[k] || r == c)
    ensures SameMarks(Raised(tables, ids, c), tables, c)
  {
    forall k, x | x > c ensures Reaches(Raised(tables, ids, c), k, x) <==> Reaches(tables, k, x) {}
  }
}
