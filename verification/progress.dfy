/** The progress of one replication job: the fields held in memory, the copy last written to
    the metadata store, and the transition methods that move from one to the other.  A crash
    replaces the fields by the stored copy and loses the in-memory payload. */
module Progress {
  import opened Wrappers

  type Seq = int

  const MAX_SEQ: Seq := 0x7FFF_FFFF_FFFF_FFFF

  datatype SyncType = DBSync | TableSync

  datatype SyncState =
    | DBFullSync | DBTablesIncrementalSync | DBIncrementalSync | DBPartialSync
    | TableFullSync | TableIncrementalSync | TablePartialSync

  datatype SubState =
    | Done
    | BeginCreateSnapshot | GetSnapshotInfo | AddExtraInfo | RestoreSnapshot
    | PersistRestoreInfo | WaitBackupDone | WaitRestoreDone
    | BeginTransaction | IngestBinlog | CommitTransaction | RollbackTransaction
    | LaunchTransaction | CommitPipeline | CommitPipelineTransaction | RollbackPipeline
  {
    /** The sub states whose binlog type is BinlogUpsert. */
    predicate IsUpsert() {
      BeginTransaction? || IngestBinlog? || CommitTransaction? || RollbackTransaction?
    }
  }

  /** The table and partitions a partial snapshot covers; no partitions means the whole table. */
  datatype PartialSyncData = PartialSyncData(tableId: int, table: string, isView: bool, partitions: set<int>)

  /** The serialised fields.  `D` is the payload kept in `PersistData`. */
  datatype Row<+D> = Row(
    sync: SyncState,
    sub: SubState,
    prev: Seq,
    commit: Seq,
    last: Seq,
    unknown: Seq,
    data: Option<D>,
    tables: Option<map<int, Seq>>,
    parts: Option<map<int, Seq>>,
    aliases: Option<map<string, string>>,
    partial: Option<PartialSyncData>)
  {
    predicate IsDone() { sub.Done? && prev == commit }
  }

  /** `cur` and `mem` live in the process, `db` is the stored row. */
  datatype Prog<+D> = Prog(cur: Row<D>, mem: Option<D>, db: Row<D>)

  /** Empty maps are omitted from the stored form, so they come back as nil. */
  function OmitEmpty<K, V>(m: Option<map<K, V>>): Option<map<K, V>> {
    if m.Some? && |m.value| == 0 then None else m
  }

  function Decoded<D>(r: Row<D>): Row<D> {
    r.(tables := OmitEmpty(r.tables), parts := OmitEmpty(r.parts), aliases := OmitEmpty(r.aliases))
  }

  function Persist<D>(p: Prog<D>): Prog<D> { p.(db := p.cur) }

  function Reload<D>(p: Prog<D>): Prog<D> { Prog(Decoded(p.db), None, p.db) }

  function StartHandle<D>(p: Prog<D>, c: Seq): Prog<D> {
    Persist(p.(cur := p.cur.(commit := c, last := c)))
  }

  function NextSubVolatile<D>(p: Prog<D>, sub: SubState, mem: Option<D>): Prog<D> {
    p.(cur := p.cur.(sub := sub), mem := mem)
  }

  function NextSubCheckpoint<D>(p: Prog<D>, sub: SubState, data: Option<D>): Prog<D> {
    Persist(p.(cur := p.cur.(sub := sub, data := data)))
  }

  function DoneSubCheckpoint<D>(p: Prog<D>, sub: SubState, data: Option<D>): Prog<D> {
    Persist(p.(cur := p.cur.(prev := p.cur.commit, sub := sub, data := data)))
  }

  function CommitNextSubWithPersist<D>(p: Prog<D>, c: Seq, sub: SubState, data: Option<D>): Prog<D> {
    Persist(p.(cur := p.cur.(commit := c, sub := sub, data := data)))
  }

  function PersistInMemoryData<D>(p: Prog<D>): Prog<D> {
    Persist(p.(cur := p.cur.(data := p.mem)))
  }

  function NextWithPersist<D>(p: Prog<D>, c: Seq, sync: SyncState, sub: SubState): Prog<D> {
    Persist(p.(cur := p.cur.(commit := c, prev := if sub.Done? then c else p.cur.prev,
                             sync := sync, sub := sub, data := None), mem := None))
  }

  function Finish<D>(p: Prog<D>): Prog<D> {
    Persist(p.(cur := p.cur.(sub := Done, prev := p.cur.commit)))
  }

  function Rollback<D>(p: Prog<D>): Prog<D> {
    Persist(p.(cur := p.cur.(sub := Done, unknown := p.cur.commit, commit := p.cur.prev)))
  }
}

/** The progress object of the running process, proved against the transitions of module Progress. */
module ProgressObject {
  import opened Wrappers
  import opened Progress
  import P = Progress

  /** `stored` is the row in the progresses table. */
  class JobProgress<D> {
    var syncState: SyncState
    var subSyncState: SubState
    var prevCommitSeq: Seq
    var commitSeq: Seq
    var lastCommitSeq: Seq
    var unknownCommitSeq: Seq
    var persistData: Option<D>
    var tableCommitSeqMap: Option<map<int, Seq>>
    var partitionCommitSeqMap: Option<map<int, Seq>>
    var tableAliases: Option<map<string, string>>
    var partialSyncData: Option<PartialSyncData>
    var inMemoryData: Option<D>
    var stored: Row<D>

    function Fields(): Row<D>
      reads this
    {
      Row(syncState, subSyncState, prevCommitSeq, commitSeq, lastCommitSeq, unknownCommitSeq, persistData,
          tableCommitSeqMap, partitionCommitSeqMap, tableAliases, partialSyncData)
    }

    ghost function View(): Prog<D>
      reads this
    {
      Prog(Fields(), inMemoryData, stored)
    }

    constructor (syncType: SyncType)
      ensures Fields() == Row(if syncType.DBSync? then DBFullSync else TableFullSync, BeginCreateSnapshot,
                              0, 0, 0, 0, None, None, None, None, None)
      ensures inMemoryData == None && stored == Fields()
    {
      syncState := if syncType.DBSync? then DBFullSync else TableFullSync;
      subSyncState := BeginCreateSnapshot;
      prevCommitSeq, commitSeq, lastCommitSeq, unknownCommitSeq := 0, 0, 0, 0;
      persistData, inMemoryData := None, None;
      tableCommitSeqMap, partitionCommitSeqMap, tableAliases, partialSyncData := None, None, None, None;
      new;
      stored := Fields();
    }

    method Persist()
      modifies this`stored
      ensures View() == P.Persist(old(View()))
      ensures Fields() == old(Fields()) && stored == Fields() && inMemoryData == old(inMemoryData)
    {
      stored := Fields();
    }

    /** A restart: the fields come from the stored row, the payload is lost. */
    method Reload()
      modifies this
      ensures View() == P.Reload(old(View()))
      ensures inMemoryData == None && stored == old(stored)
      ensures Fields() == stored.(tables := tableCommitSeqMap, parts := partitionCommitSeqMap, aliases := tableAliases)
      ensures tableCommitSeqMap == if stored.tables == Some(map[]) then None else stored.tables
      ensures partitionCommitSeqMap == if stored.parts == Some(map[]) then None else stored.parts
      ensures tableAliases == if stored.aliases == Some(map[]) then None else stored.aliases
    {
      syncState, subSyncState := stored.sync, stored.sub;
      prevCommitSeq, commitSeq := stored.prev, stored.commit;
      lastCommitSeq, unknownCommitSeq := stored.last, stored.unknown;
      persistData, partialSyncData := stored.data, stored.partial;
      tableCommitSeqMap := OmitEmpty(stored.tables);
      partitionCommitSeqMap := OmitEmpty(stored.parts);
      tableAliases := OmitEmpty(stored.aliases);
      inMemoryData := None;
    }

    method StartHandle(c: Seq)
      modifies this
      ensures View() == P.StartHandle(old(View()), c)
      ensures Fields() == old(Fields()).(commit := c, last := c) && stored == Fields() && inMemoryData == old(inMemoryData)
    {
      commitSeq := c;
      lastCommitSeq := c;
      Persist();
    }

    method NextSubVolatile(sub: SubState, mem: Option<D>)
      modifies this
      ensures View() == P.NextSubVolatile(old(View()), sub, mem)
      ensures Fields() == old(Fields()).(sub := sub) && inMemoryData == mem && stored == old(stored)
    {
      subSyncState := sub;
      inMemoryData := mem;
    }

    method NextSubCheckpoint(sub: SubState, data: Option<D>)
      modifies this
      ensures View() == P.NextSubCheckpoint(old(View()), sub, data)
      ensures Fields() == old(Fields()).(sub := sub, data := data) && stored == Fields() && inMemoryData == old(inMemoryData)
    {
      subSyncState := sub;
      persistData := data;
      Persist();
    }

    method DoneSubCheckpoint(sub: SubState, data: Option<D>)
      modifies this
      ensures View() == P.DoneSubCheckpoint(old(View()), sub, data)
      ensures Fields() == old(Fields()).(sub := sub, data := data, prev := commitSeq)
      ensures stored == Fields() && commitSeq == old(commitSeq) && inMemoryData == old(inMemoryData)
    {
      prevCommitSeq := commitSeq;
      subSyncState := sub;
      persistData := data;
      Persist();
    }

    method CommitNextSubWithPersist(c: Seq, sub: SubState, data: Option<D>)
      modifies this
      ensures View() == P.CommitNextSubWithPersist(old(View()), c, sub, data)
      ensures Fields() == old(Fields()).(commit := c, sub := sub, data := data) && stored == Fields() && inMemoryData == old(inMemoryData)
    {
      commitSeq := c;
      subSyncState := sub;
      persistData := data;
      Persist();
    }

    method PersistInMemoryData()
      modifies this
      ensures View() == P.PersistInMemoryData(old(View()))
      ensures Fields() == old(Fields()).(data := inMemoryData) && stored == Fields() && inMemoryData == old(inMemoryData)
    {
      persistData := inMemoryData;
      Persist();
    }

    method NextWithPersist(c: Seq, sync: SyncState, sub: SubState)
      modifies this
      ensures View() == P.NextWithPersist(old(View()), c, sync, sub)
      ensures Fields() == old(Fields()).(commit := c, prev := prevCommitSeq, sync := sync, sub := sub, data := None)
      ensures prevCommitSeq == (if sub == Done then c else old(prevCommitSeq)) && stored == Fields() && inMemoryData == None
    {
      commitSeq := c;
      if sub == Done {
        prevCommitSeq := c;
      }
      syncState := sync;
      subSyncState := sub;
      persistData := None;
      inMemoryData := None;
      Persist();
    }

    method Finish()
      modifies this
      ensures View() == P.Finish(old(View()))
      ensures Fields() == old(Fields()).(sub := Done, prev := commitSeq) && stored == Fields()
      ensures commitSeq == old(commitSeq) && inMemoryData == old(inMemoryData)
    {
      subSyncState := Done;
      prevCommitSeq := commitSeq;
      Persist();
    }

    method Rollback()
      modifies this
      ensures View() == P.Rollback(old(View()))
      ensures Fields() == old(Fields()).(sub := Done, unknown := old(commitSeq), commit := prevCommitSeq)
      ensures stored == Fields() && prevCommitSeq == old(prevCommitSeq) && inMemoryData == old(inMemoryData)
    {
      subSyncState := Done;
      unknownCommitSeq := commitSeq;
      commitSeq := prevCommitSeq;
      Persist();
    }
  }
}
