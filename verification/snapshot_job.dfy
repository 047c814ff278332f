/** `fullSyncWithPermit`, `partialSync` and the methods that start them, in the form of the source:
    a job mutating its progress object, proved against the steps of module Snapshots.  Replies of
    the two clusters are parameters. */
module SnapshotJobs {
  import opened Wrappers
  import opened Progress
  import opened ProgressObject
  import opened Snapshots
  import S = Snapshots

  /** Where replay will start after a full sync; zero watermarks belong to views. */
  method StartCommitSeq(tables: map<int, Seq>, order: seq<int>, at: Seq) returns (commitSeq: Seq)
    requires Enumerates(order, tables.Keys)
    ensures (forall t :: t in tables ==> tables[t] <= MAX_SEQ) && at <= MAX_SEQ ==> IsStart(tables, at, commitSeq)
  {
    commitSeq := MAX_SEQ;
    for n := 0 to |order|
      invariant commitSeq <= MAX_SEQ
      invariant forall i :: 0 <= i < n && tables[order[i]] != 0 ==> commitSeq <= tables[order[i]]
      invariant commitSeq == MAX_SEQ || exists t :: t in tables && tables[t] == commitSeq && commitSeq != 0
    {
      assert order[n] in tables;
      var s := tables[order[n]];
      if s != 0 && s < commitSeq {
        commitSeq := s;
      }
    }
    if at > 0 && at < commitSeq {
      commitSeq := at;
    }
  }

  class SnapshotJob {
    const syncType: SyncType
    const progress: JobProgress<Payload>
    const srcTable: string
    var srcTableId: int
    var panicked: bool

    constructor (syncType: SyncType, progress: JobProgress<Payload>, srcTable: string, srcTableId: int)
      ensures this.syncType == syncType && this.progress == progress
      ensures this.srcTable == srcTable && this.srcTableId == srcTableId && !panicked
    {
      this.syncType, this.progress, this.srcTable, this.srcTableId, panicked := syncType, progress, srcTable, srcTableId, false;
    }

    ghost function View(): State
      reads this, progress
    {
      State(progress.View(), syncType, srcTable, srcTableId, panicked)
    }

    method NewSnapshot(commitSeq: Seq)
      modifies progress
      ensures View() == S.NewSnapshot(old(View()), commitSeq)
      ensures progress.stored == progress.Fields() && progress.inMemoryData == None && !HasAlias(progress.Fields())
      ensures progress.Fields() == old(progress.Fields()).(sync := if syncType == DBSync then DBFullSync else TableFullSync,
                sub := BeginCreateSnapshot, commit := commitSeq, data := None, partial := None, aliases := None)
    {
      progress.partialSyncData := None;
      progress.tableAliases := None;
      progress.NextWithPersist(commitSeq, if syncType == DBSync then DBFullSync else TableFullSync, BeginCreateSnapshot);
    }

    method NewPartialSnapshot(data: PartialSyncData, alias: Option<string>) returns (ok: bool)
      modifies progress
      ensures View() == S.NewPartialSnapshot(old(View()), data, alias)
      ensures ok <==> (data.isView || syncType == DBSync || data.table == srcTable) && (alias.None? || data.partitions == {})
      ensures !ok ==> progress.View() == old(progress.View())
      ensures ok ==> progress.stored == progress.Fields() && progress.inMemoryData == None
      ensures ok ==> progress.Fields() == old(progress.Fields()).(sync := if syncType == DBSync then DBPartialSync else TablePartialSync,
                sub := BeginCreateSnapshot, data := None, partial := Some(data),
                aliases := if alias.Some? then Some(map[data.table := alias.value]) else None)
    {
      if !data.isView && syncType == TableSync && data.table != srcTable {
        return false;
      }
      if alias.Some? && |data.partitions| != 0 {
        return false;
      }
      var commitSeq := progress.commitSeq;
      progress.partialSyncData := Some(data);
      progress.tableAliases := None;
      if alias.Some? {
        progress.tableAliases := Some(map[data.table := alias.value]);
      }
      progress.NextWithPersist(commitSeq, if syncType == DBSync then DBPartialSync else TablePartialSync, BeginCreateSnapshot);
      return true;
    }

    /** The table is gone at the source; a table sync has nothing left to do and reports it. */
    method PartialSyncTableDropped() returns (ok: bool)
      requires progress.partialSyncData.Some?
      modifies progress
      ensures View() == TableDroppedStep(old(View())) && ok == (syncType == DBSync)
      ensures !ok ==> progress.View() == old(progress.View())
      ensures ok ==> progress.stored == progress.Fields() && progress.syncState == DBTablesIncrementalSync && progress.subSyncState == Done
      ensures ok ==> progress.prevCommitSeq == progress.commitSeq == old(progress.commitSeq) && progress.tableCommitSeqMap.Some?
      ensures ok ==> var d, m := old(progress.partialSyncData).value.tableId, progress.tableCommitSeqMap.value;
        && d in m && m[d] == MAX_SEQ
        && (forall t :: t != d ==> (t in m <==> old(progress.tableCommitSeqMap).Some? && t in old(progress.tableCommitSeqMap).value))
        && (forall t :: t != d && t in m ==> m[t] == old(progress.tableCommitSeqMap).value[t])
    {
      if syncType == TableSync {
        return false;
      }
      var nextCommitSeq := progress.commitSeq;
      if progress.tableCommitSeqMap.None? || |progress.tableCommitSeqMap.value| == 0 {
        progress.tableCommitSeqMap := Some(map[]);
      }
      progress.tableCommitSeqMap := Some(progress.tableCommitSeqMap.value[progress.partialSyncData.value.tableId := MAX_SEQ]);
      progress.NextWithPersist(nextCommitSeq, DBTablesIncrementalSync, Done);
      return true;
    }

    method BackupCreated(name: Option<string>)
      modifies progress
      ensures View() == BeginStep(old(View()), name)
      ensures name == None ==> progress.View() == old(progress.View())
      ensures name != None ==> progress.View() == old(progress.View()).(cur := old(progress.Fields()).(sub := WaitBackupDone), mem := Some(Name(name.value)))
    {
      if name.Some? {
        progress.NextSubVolatile(WaitBackupDone, Some(Name(name.value)));
      }
    }

    method WaitBackupCase(r: BackupStatus)
      modifies this`panicked, progress
      ensures View() == WaitBackupStep(old(View()), r)
      ensures progress.inMemoryData == old(progress.inMemoryData)
      ensures !panicked && r == BackupRunning ==> progress.View() == old(progress.View())
      ensures !panicked && r == BackupFailed ==> progress.subSyncState == BeginCreateSnapshot && progress.stored == old(progress.stored)
      ensures !panicked && r == BackupDone ==> progress.stored == progress.Fields() == old(progress.Fields()).(sub := GetSnapshotInfo, data := old(progress.inMemoryData))
    {
      if progress.inMemoryData.None? || !progress.inMemoryData.value.Name? {
        panicked := true;
      } else if r.BackupFailed? {
        progress.NextSubVolatile(BeginCreateSnapshot, progress.inMemoryData);
      } else if r.BackupDone? {
        progress.NextSubCheckpoint(GetSnapshotInfo, progress.inMemoryData);
      }
    }

    method AddExtraInfoCase(full: bool, ok: bool)
      modifies this`panicked, progress
      ensures View() == AddExtraStep(old(View()), full, ok)
      ensures progress.inMemoryData == old(progress.inMemoryData) && progress.stored == old(progress.stored)
      ensures !panicked ==> progress.Fields() == if ok then old(progress.Fields()).(sub := RestoreSnapshot) else old(progress.Fields())
    {
      if !IsData(full, progress.inMemoryData) {
        panicked := true;
      } else if ok {
        progress.NextSubVolatile(RestoreSnapshot, progress.inMemoryData);
      }
    }

    method RestoreSnapshotCase(full: bool, job: Option<string>)
      modifies this`panicked, progress
      ensures View() == RestoreStep(old(View()), full, job)
      ensures progress.stored == old(progress.stored)
      ensures !old(panicked) && !panicked && job.Some? && (old(progress.inMemoryData).Some? || IsData(full, old(progress.persistData))) ==>
        && progress.Fields() == old(progress.Fields()).(sub := WaitRestoreDone)
        && progress.inMemoryData == Some(WithJob((if old(progress.inMemoryData).Some? then old(progress.inMemoryData) else old(progress.persistData)).value, job.value))
      ensures job.None? ==> progress.Fields() == old(progress.Fields())
    {
      if progress.inMemoryData == None {
        if !IsData(full, progress.persistData) {
          return;
        }
        progress.inMemoryData := progress.persistData;
      }
      if !IsData(full, progress.inMemoryData) {
        panicked := true;
      } else if job.Some? {
        progress.NextSubVolatile(WaitRestoreDone, Some(WithJob(progress.inMemoryData.value, job.value)));
      }
    }

    method FullInfoCase(r: InfoReply)
      modifies this`srcTableId, progress
      ensures View() == FullInfoStep(old(View()), r)
      ensures old(progress.persistData).Some? && old(progress.persistData).value.Name? ==>
        match r
        case InfoFailed => View() == old(View())
        case SnapshotGone(_) => progress.subSyncState == BeginCreateSnapshot && progress.stored == progress.Fields() && srcTableId == old(srcTableId)
        case IdMismatch(id) =>
            if syncType == DBSync then View() == old(View())
            else progress.subSyncState == BeginCreateSnapshot && progress.syncState == TableFullSync && progress.stored == progress.Fields() && srcTableId == id
        case Info(tables, _, at, _) =>
            && progress.stored == old(progress.stored) && srcTableId == old(srcTableId)
            && if syncType == TableSync && srcTableId !in tables then progress.View() == old(progress.View())
               else progress.Fields() == old(progress.Fields()).(sub := AddExtraInfo)
                    && progress.inMemoryData == Some(FullData(old(progress.persistData).value.name, tables, at, ""))
    {
      if progress.persistData.None? || !progress.persistData.value.Name? {
        return;
      }
      match r
      case InfoFailed =>
      case SnapshotGone(_) => NewSnapshot(progress.commitSeq);
      case IdMismatch(id) =>
        if syncType == TableSync {
          srcTableId := id;
          NewSnapshot(progress.commitSeq);
        }
      case Info(tables, _, at, _) =>
        if syncType == DBSync || srcTableId in tables {
          progress.NextSubVolatile(AddExtraInfo, Some(FullData(progress.persistData.value.name, tables, at, "")));
        }
    }

    method FullWaitRestoreCase(r: RestoreStatus)
      modifies this`panicked, progress
      ensures View() == FullWaitRestoreStep(old(View()), r)
      ensures IsData(true, old(progress.inMemoryData)) ==>
        var m := old(progress.inMemoryData).value;
        match r
        case RestoreExpired(_) => progress.subSyncState == BeginCreateSnapshot && progress.stored == progress.Fields() && progress.commitSeq == old(progress.commitSeq)
        case RestoreRunning => View() == old(View())
        case RestoreFailed => progress.View() == old(progress.View()).(cur := old(progress.Fields()).(sub := RestoreSnapshot))
        case NotMatched(table, alias, replace) =>
            && progress.subSyncState == RestoreSnapshot && progress.inMemoryData == Some(m)
            && (!replace ==> progress.Fields() == old(progress.Fields()).(sub := RestoreSnapshot) && progress.stored == old(progress.stored))
            && (replace ==>
                  && progress.tableAliases == Some((if old(progress.tableAliases).Some? then old(progress.tableAliases).value else map[])[table := alias])
                  && progress.stored == progress.Fields().(sub := GetSnapshotInfo) && progress.persistData == Some(Name(m.snapshot)))
        case Rebooted => progress.stored == old(progress.stored) && progress.inMemoryData == None && progress.subSyncState == progress.stored.sub
        case RestoreDone(c) =>
            && progress.stored == progress.Fields() && progress.subSyncState == PersistRestoreInfo && progress.commitSeq == c
            && progress.prevCommitSeq == old(progress.prevCommitSeq) && progress.tableAliases == old(progress.tableAliases)
            && progress.tableCommitSeqMap == if syncType == DBSync then Some(m.tables) else old(progress.tableCommitSeqMap)
    {
      if !IsData(true, progress.inMemoryData) {
        panicked := true;
        return;
      }
      var data := progress.inMemoryData.value;
      match r
      case RestoreExpired(_) => NewSnapshot(progress.commitSeq);
      case RestoreRunning =>
      case RestoreFailed => progress.NextSubVolatile(RestoreSnapshot, progress.inMemoryData);
      case NotMatched(table, alias, replace) =>
        if replace {
          if progress.tableAliases == None {
            progress.tableAliases := Some(map[]);
          }
          progress.tableAliases := Some(progress.tableAliases.value[table := alias]);
          progress.NextSubCheckpoint(GetSnapshotInfo, Some(Name(data.snapshot)));
        }
        progress.NextSubVolatile(RestoreSnapshot, Some(data));
      case Rebooted => progress.Reload();
      case RestoreDone(commitSeq) =>
        if syncType == DBSync {
          progress.tableCommitSeqMap := Some(data.tables);
        }
        progress.CommitNextSubWithPersist(commitSeq, PersistRestoreInfo, Some(Name(data.restoreJob)));
    }

    /** The aliases were swapped in; see module AliasSwap for the loop. */
    method SaveReplaceResult()
      modifies progress
      ensures View() == Swapped(old(View()))
      ensures if HasAlias(old(progress.Fields())) then progress.stored == progress.Fields() == old(progress.Fields()).(aliases := None, sub := PersistRestoreInfo)
              else progress.View() == old(progress.View())
    {
      if progress.tableAliases.Some? && |progress.tableAliases.value| > 0 {
        progress.tableAliases := None;
        progress.NextSubCheckpoint(PersistRestoreInfo, progress.persistData);
      }
    }

    method FullPersistRestoreInfoCase(r: FinishReply)
      modifies progress
      ensures View() == FullFinishStep(old(View()), r)
      ensures r == SwapFailed ==> progress.View() == old(progress.View())
      ensures r != SwapFailed ==> !HasAlias(progress.Fields()) && progress.commitSeq == old(progress.commitSeq)
      ensures r == MappingFailed ==> progress.subSyncState == PersistRestoreInfo || progress.View() == old(progress.View())
      ensures r == Persisted ==>
        && progress.stored == progress.Fields() && progress.subSyncState == Done && progress.prevCommitSeq == progress.commitSeq
        && progress.inMemoryData == None && progress.partitionCommitSeqMap == None
        && progress.syncState == (if syncType == DBSync then DBTablesIncrementalSync else TableIncrementalSync)
        && progress.tableCommitSeqMap == if syncType == DBSync then old(progress.tableCommitSeqMap) else None
    {
      if r.SwapFailed? {
        return;
      }
      SaveReplaceResult();
      if r.MappingFailed? {
        return;
      }
      progress.partitionCommitSeqMap := None;
      if syncType == DBSync {
        progress.NextWithPersist(progress.commitSeq, DBTablesIncrementalSync, Done);
      } else {
        progress.tableCommitSeqMap := None;
        progress.NextWithPersist(progress.commitSeq, TableIncrementalSync, Done);
      }
    }

    method PartialInfoCase(r: InfoReply)
      requires progress.partialSyncData.Some?
      modifies this`srcTableId, progress
      ensures View() == PartialInfoStep(old(View()), r)
      ensures old(progress.persistData).Some? && old(progress.persistData).value.Name? ==>
        var d, name := old(progress.partialSyncData).value, old(progress.persistData).value.name;
        match r
        case InfoFailed => View() == old(View())
        case SnapshotGone(alias) =>
            View() == old(View()) || (progress.subSyncState == BeginCreateSnapshot && progress.stored == progress.Fields() && progress.partialSyncData == Some(d)
              && progress.tableAliases == if HasAlias(old(progress.Fields())) then Some(map[d.table := alias]) else None)
        case IdMismatch(id) =>
            if d.isView then View() == old(View())
            else IsFull(progress.syncState) && progress.subSyncState == BeginCreateSnapshot && progress.partialSyncData == None
                 && srcTableId == if syncType == TableSync then id else old(srcTableId)
        case Info(tables, parts, at, view) =>
            && progress.stored == old(progress.stored)
            && if !d.isView && d.tableId !in tables then View() == old(View())
               else progress.subSyncState == AddExtraInfo && progress.inMemoryData ==
                      Some(if d.isView then PartialData(name, tables[view := at], map[], "") else PartialData(name, tables, parts, ""))
    {
      if progress.persistData.None? || !progress.persistData.value.Name? {
        return;
      }
      var data := progress.partialSyncData.value;
      match r
      case InfoFailed =>
      case SnapshotGone(alias) =>
        var replace := progress.tableAliases.Some? && |progress.tableAliases.value| > 0;
        var _ := NewPartialSnapshot(data, if replace then Some(alias) else None);
      case IdMismatch(id) =>
        if !data.isView {
          if syncType == TableSync {
            srcTableId := id;
          }
          NewSnapshot(progress.commitSeq);
        }
      case Info(tables, parts, at, view) =>
        var tableCommitSeqMap, partitionCommitSeqMap := tables, parts;
        if data.isView {
          tableCommitSeqMap, partitionCommitSeqMap := tableCommitSeqMap[view := at], map[];
        } else if data.tableId !in tableCommitSeqMap {
          return;
        }
        progress.NextSubVolatile(AddExtraInfo,
          Some(PartialData(progress.persistData.value.name, tableCommitSeqMap, partitionCommitSeqMap, "")));
    }

    method PartialWaitRestoreCase(r: RestoreStatus)
      requires progress.partialSyncData.Some?
      modifies this`panicked, progress
      ensures View() == PartialWaitRestoreStep(old(View()), r)
      ensures IsData(false, old(progress.inMemoryData)) ==>
        var m, d := old(progress.inMemoryData).value, old(progress.partialSyncData).value;
        match r
        case RestoreExpired(alias) =>
            View() == old(View()) || (progress.subSyncState == BeginCreateSnapshot && progress.stored == progress.Fields() && progress.partialSyncData == Some(d)
              && progress.tableAliases == if HasAlias(old(progress.Fields())) then Some(map[d.table := alias]) else None)
        case RestoreRunning => View() == old(View())
        case RestoreFailed => progress.View() == old(progress.View()).(cur := old(progress.Fields()).(sub := RestoreSnapshot))
        case NotMatched(_, alias, _) =>
            if syncType == DBSync || d.table == srcTable
            then progress.subSyncState == BeginCreateSnapshot && progress.stored == progress.Fields() && progress.tableAliases == Some(map[d.table := alias])
                 && progress.partialSyncData == Some(d.(partitions := {}, isView := false))
            else View() == old(View())
        case Rebooted => View() == old(View())
        case RestoreDone(_) =>
            && progress.stored == progress.Fields() && progress.subSyncState == PersistRestoreInfo && progress.commitSeq == old(progress.commitSeq)
            && (if d.partitions != {} then progress.tableCommitSeqMap == old(progress.tableCommitSeqMap) else progress.partitionCommitSeqMap == old(progress.partitionCommitSeqMap))
            && (d.partitions != {} ==> progress.partitionCommitSeqMap == Some((if old(progress.partitionCommitSeqMap).Some? then old(progress.partitionCommitSeqMap).value else map[]) + m.parts))
            && (d.partitions == {} ==> progress.tableCommitSeqMap == Some((if old(progress.tableCommitSeqMap).Some? then old(progress.tableCommitSeqMap).value else map[]) + m.tables))
    {
      if !IsData(false, progress.inMemoryData) {
        panicked := true;
        return;
      }
      var data := progress.inMemoryData.value;
      var params := progress.partialSyncData.value;
      match r
      case RestoreExpired(alias) =>
        var replace := progress.tableAliases.Some? && |progress.tableAliases.value| > 0;
        var _ := NewPartialSnapshot(params, if replace then Some(alias) else None);
      case RestoreRunning =>
      case RestoreFailed => progress.NextSubVolatile(RestoreSnapshot, progress.inMemoryData);
      case NotMatched(_, alias, _) =>
        var _ := NewPartialSnapshot(params.(partitions := {}, isView := false), Some(alias));
      case Rebooted =>
      case RestoreDone(_) =>
        assert map[] + data.parts == data.parts && map[] + data.tables == data.tables;
        if |params.partitions| > 0 {
          progress.partitionCommitSeqMap := S.Merged(progress.partitionCommitSeqMap, data.parts);
        } else {
          progress.tableCommitSeqMap := S.Merged(progress.tableCommitSeqMap, data.tables);
        }
        progress.NextSubCheckpoint(PersistRestoreInfo, Some(Name(data.restoreJob)));
    }

    method PartialPersistRestoreInfoCase(r: FinishReply)
      requires progress.partialSyncData.Some?
      modifies progress
      ensures View() == PartialFinishStep(old(View()), r)
      ensures r == SwapFailed ==> progress.View() == old(progress.View())
      ensures r == MappingFailed ==> progress.commitSeq == old(progress.commitSeq) && progress.syncState == old(progress.syncState)
      ensures r != SwapFailed && old(progress.tableAliases).Some? && old(progress.partialSyncData).value.table in old(progress.tableAliases).value ==> !HasAlias(progress.Fields())
      ensures r == Persisted && (syncType == DBSync || old(progress.partialSyncData).value.partitions != {}) ==>
        && progress.stored == progress.Fields() && progress.subSyncState == Done && progress.prevCommitSeq == progress.commitSeq == old(progress.commitSeq)
        && progress.syncState == (if syncType == DBSync then DBTablesIncrementalSync else TableIncrementalSync)
        && progress.partitionCommitSeqMap == old(progress.partitionCommitSeqMap)
        && progress.tableCommitSeqMap == if syncType == DBSync then old(progress.tableCommitSeqMap) else None
      ensures r == Persisted && syncType == TableSync && old(progress.partialSyncData).value.partitions == {} && old(progress.tableCommitSeqMap).Some? ==>
        srcTableId in old(progress.tableCommitSeqMap).value ==>
        && progress.stored == progress.Fields() && progress.syncState == TableIncrementalSync && progress.subSyncState == Done
        && progress.prevCommitSeq == progress.commitSeq == old(progress.tableCommitSeqMap).value[srcTableId]
        && progress.tableCommitSeqMap == None && progress.partitionCommitSeqMap == None
    {
      if r.SwapFailed? {
        return;
      }
      var params := progress.partialSyncData.value;
      if progress.tableAliases.Some? && params.table in progress.tableAliases.value {
        SaveReplaceResult();
      }
      if r.MappingFailed? {
        return;
      }
      if syncType == DBSync {
        progress.NextWithPersist(progress.commitSeq, DBTablesIncrementalSync, Done);
      } else {
        var commitSeq := progress.commitSeq;
        if |params.partitions| == 0 {
          if progress.tableCommitSeqMap.None? || srcTableId !in progress.tableCommitSeqMap.value {
            return;
          }
          commitSeq := progress.tableCommitSeqMap.value[srcTableId];
          progress.partitionCommitSeqMap := None;
        }
        progress.tableCommitSeqMap := None;
        progress.NextWithPersist(commitSeq, TableIncrementalSync, Done);
      }
    }

    /** One pass through the switch of the full sync. */
    method FullSync(e: Event)
      requires Enabled(View(), e) && IsFull(progress.syncState)
      requires e.Begin? || e.WaitBackup? || e.GetInfo? || e.AddExtra? || e.Restore? || e.WaitRestore? || e.PersistInfo?
      modifies this, progress
      ensures View() == S.Next(old(View()), e)
    {
      match e {
        case Begin(name) => BackupCreated(name);
        case WaitBackup(r) => WaitBackupCase(r);
        case GetInfo(r) => FullInfoCase(r);
        case AddExtra(ok) => AddExtraInfoCase(true, ok);
        case Restore(job) => RestoreSnapshotCase(true, job);
        case WaitRestore(r) => FullWaitRestoreCase(r);
        case PersistInfo(r) => FullPersistRestoreInfoCase(r);
      }
    }

    /** One pass through the switch of the partial sync. */
    method PartialSync(e: Event)
      requires Enabled(View(), e) && IsPartial(progress.syncState)
      requires !e.Crash? && !e.MetaError? && !e.Incremental? && !e.StartFull? && !e.StartPartial?
      modifies this, progress
      ensures View() == S.Next(old(View()), e)
      ensures e.PartitionGone? || e.TableRenamed? ==>
        old(progress.partialSyncData).Some? && (syncType == DBSync || old(progress.partialSyncData).value.table == srcTable) ==>
        var d := old(progress.partialSyncData).value.(partitions := {}, isView := false);
        var d' := if e.TableRenamed? then d.(table := e.newName) else d;
        && progress.partialSyncData == Some(d') && progress.tableAliases == Some(map[d'.table := e.alias])
        && progress.subSyncState == BeginCreateSnapshot && progress.stored == progress.Fields()
    {
      if progress.partialSyncData.None? {
        return;
      }
      var params := progress.partialSyncData.value;
      match e {
        case Begin(name) => BackupCreated(name);
        case PartitionGone(alias) =>
          var _ := NewPartialSnapshot(params.(partitions := {}, isView := false), Some(alias));
        case TableRenamed(newName, alias) =>
          var _ := NewPartialSnapshot(params.(table := newName, partitions := {}, isView := false), Some(alias));
        case TableDropped =>
          var _ := PartialSyncTableDropped();
        case WaitBackup(r) => WaitBackupCase(r);
        case GetInfo(r) => PartialInfoCase(r);
        case AddExtra(ok) => AddExtraInfoCase(false, ok);
        case Restore(job) => RestoreSnapshotCase(false, job);
        case WaitRestore(r) => PartialWaitRestoreCase(r);
        case PersistInfo(r) => PartialPersistRestoreInfoCase(r);
      }
    }
  }
}
