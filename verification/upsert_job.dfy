/** `handleUpsert` and the loop around it in the form of the source: a job mutating its progress
    object and talking to the destination, proved against the machine of UpsertReplay.  Replies
    of the destination are parameters. */
module UpsertJobs {
  import opened Wrappers
  import opened Progress
  import opened ProgressObject
  import opened Binlogs
  import opened UpsertReplay
  import W = Watermarks

  /** The destination's transaction manager. */
  class TxnManager {
    var txns: map<int, Txn>
    ghost var requested: set<int>

    method BeginTxn(id: int, at: Seq)
      modifies this`txns
      ensures txns == old(txns)[id := Txn(at, Prepared)]
    {
      txns := txns[id := Txn(at, Prepared)];
    }

    method CommitTxn(t: int, lands: bool)
      requires t in txns
      modifies this
      ensures txns == if lands && old(txns)[t].status.Prepared? then SetStatus(old(txns), t, Committed) else old(txns)
      ensures requested == old(requested) + {t}
    {
      requested := requested + {t};
      if lands && txns[t].status == Prepared {
        txns := txns[t := Txn(txns[t].at, Committed)];
      }
    }

    method AbortTxn(t: int)
      requires t in txns
      modifies this`txns
      ensures txns == SetStatus(old(txns), t, Aborted)
    {
      txns := txns[t := Txn(txns[t].at, Aborted)];
    }
  }

  class UpsertJob {
    const syncType: SyncType
    const progress: JobProgress<Data>
    const dest: TxnManager
    var pc: Pc
    ghost var skipped: set<Seq>

    constructor (syncType: SyncType, progress: JobProgress<Data>, dest: TxnManager)
      ensures this.syncType == syncType && this.progress == progress && this.dest == dest
      ensures pc == Idle && skipped == {}
    {
      this.syncType := syncType;
      this.progress := progress;
      this.dest := dest;
      pc, skipped := Idle, {};
    }

    ghost function View(): State
      reads this, progress, dest
    {
      State(progress.View(), pc, dest.txns, dest.requested, skipped)
    }

    /** Loads the payload after a restart. */
    method UpdateInMemory() returns (ok: bool)
      modifies progress
      ensures ok == Payload(old(progress.View())).Some?
      ensures progress.View() == old(progress.View()).(mem := Payload(old(progress.View())))
      ensures progress.inMemoryData == if old(progress.inMemoryData) != None then old(progress.inMemoryData) else progress.persistData
    {
      if progress.inMemoryData == None {
        progress.inMemoryData := progress.persistData;
      }
      ok := progress.inMemoryData != None;
    }

    method BeginTransactionCase(id: int, reply: BeginReply)
      requires Active(pc) && progress.subSyncState.BeginTransaction?
      requires BeginStep(View(), id, reply).Some?
      modifies this, progress, dest
      ensures View() == BeginStep(old(View()), id, reply).value
      ensures dest.txns == if reply == BeginOk || reply == BeginLost then old(dest.txns)[id := Txn(old(progress.inMemoryData).value.commitSeq, Prepared)] else old(dest.txns)
      ensures reply == BeginOk ==> progress.stored.sub == IngestBinlog && progress.inMemoryData == progress.stored.data == Some(old(progress.inMemoryData).value.(txnId := id))
      ensures reply == BeginTableNotFound ==> progress.stored == old(progress.Fields()).(sub := Done, unknown := old(progress.commitSeq), commit := old(progress.prevCommitSeq))
      ensures reply == BeginLost || reply == BeginRefused ==> progress.View() == old(progress.View())
      ensures pc == if reply == BeginOk then old(pc) else Idle
    {
      var data := progress.inMemoryData.value;
      if reply == BeginOk || reply == BeginLost {
        dest.BeginTxn(id, data.commitSeq);
      }
      if reply == BeginOk {
        progress.inMemoryData := Some(data.(txnId := id));
        progress.NextSubCheckpoint(IngestBinlog, progress.inMemoryData);
      } else {
        if reply == BeginTableNotFound {
          progress.Rollback();
        }
        pc := Idle;
      }
    }

    method IngestBinlogCase(reply: IngestReply)
      requires Active(pc) && progress.subSyncState.IngestBinlog?
      requires IngestStep(View(), reply).Some?
      modifies this, progress
      ensures View() == IngestStep(old(View()), reply).value
      ensures progress.stored.sub == progress.subSyncState == if reply == IngestOk then CommitTransaction else RollbackTransaction
      ensures progress.stored.data == progress.inMemoryData && progress.stored == progress.Fields()
      ensures pc == if reply == IngestFailed then Idle
                    else if reply == IngestTriggersSnapshot && old(pc).Handling? then Handling(old(pc).i, true) else old(pc)
    {
      var _ := UpdateInMemory();
      if reply == IngestTriggersSnapshot {
        progress.NextSubCheckpoint(RollbackTransaction, progress.inMemoryData);
        pc := if pc.Handling? then Handling(pc.i, true) else pc;
      } else if reply == IngestFailed {
        progress.NextSubCheckpoint(RollbackTransaction, progress.inMemoryData);
        pc := Idle;
      } else {
        progress.NextSubCheckpoint(CommitTransaction, progress.inMemoryData);
      }
    }

    /** The first write of a committed transaction; `Sealed` makes the second. */
    method Committed(destTableIds: seq<int>)
      requires progress.inMemoryData.Some?
      requires progress.inMemoryData.value.destTables == set i | 0 <= i < |destTableIds| :: destTableIds[i]
      modifies progress
      ensures progress.View() ==
              RaiseAndPersist(old(progress.View()), syncType, old(progress.inMemoryData.value.destTables))
      ensures progress.Fields() == old(progress.Fields()).(tables := progress.tableCommitSeqMap)
      ensures progress.tableCommitSeqMap == if syncType == DBSync then W.Raised(old(progress.tableCommitSeqMap), old(progress.inMemoryData.value.destTables), progress.commitSeq)
                                            else old(progress.tableCommitSeqMap)
      ensures syncType == DBSync && progress.tableCommitSeqMap.Some? && |progress.tableCommitSeqMap.value| > 0 ==> progress.stored == progress.Fields()
    {
      if syncType == DBSync && progress.tableCommitSeqMap != None && |progress.tableCommitSeqMap.value| > 0 {
        var raised := W.RaiseTables(progress.tableCommitSeqMap.value, destTableIds, progress.commitSeq);
        progress.tableCommitSeqMap := Some(raised);
        progress.Persist();
      }
    }

    method CommitTransactionCase(lands: bool, ok: bool, destTableIds: seq<int>)
      requires Active(pc) && progress.subSyncState.CommitTransaction?
      requires CommitStep(View(), syncType, lands, ok).Some?
      requires Payload(progress.View()).value.destTables == set i | 0 <= i < |destTableIds| :: destTableIds[i]
      modifies this, progress, dest
      ensures View() == CommitStep(old(View()), syncType, lands, ok).value
      ensures ok ==> pc == Applied(old(pc)) && progress.subSyncState == CommitTransaction && progress.commitSeq == old(progress.commitSeq)
      ensures !ok ==> pc == Idle && progress.subSyncState == RollbackTransaction && progress.stored == progress.Fields() == old(progress.Fields()).(sub := RollbackTransaction, data := progress.inMemoryData)
      ensures var t := Payload(old(progress.View())).value.txnId;
        dest.requested == old(dest.requested) + {t} && dest.txns.Keys == old(dest.txns).Keys && (forall u :: u in dest.txns && u != t ==> dest.txns[u] == old(dest.txns)[u])
        && dest.txns[t] == if lands && old(dest.txns)[t].status == Prepared then Txn(old(dest.txns)[t].at, Status.Committed) else old(dest.txns)[t]
    {
      var _ := UpdateInMemory();
      dest.CommitTxn(progress.inMemoryData.value.txnId, lands);
      if !ok {
        progress.NextSubCheckpoint(RollbackTransaction, progress.inMemoryData);
        pc := Idle;
      } else {
        Committed(destTableIds);
        pc := Applied(pc);
      }
    }

    method RollbackTransactionCase(reply: AbortReply, destTableIds: seq<int>)
      requires Active(pc) && progress.subSyncState.RollbackTransaction?
      requires AbortStep(View(), syncType, reply).Some?
      requires Payload(progress.View()).value.destTables == set i | 0 <= i < |destTableIds| :: destTableIds[i]
      modifies this, progress, dest
      ensures View() == AbortStep(old(View()), syncType, reply).value
      ensures reply.AbortOk? || reply.NotFound? || reply.AlreadyAborted? ==>
        && progress.stored == progress.Fields() == old(progress.Fields()).(sub := Done, unknown := old(progress.commitSeq), commit := old(progress.prevCommitSeq))
        && pc == if old(pc) == Recovering then Idle else Left
      ensures reply.AlreadyCommitted? ==> pc == Applied(old(pc)) && progress.subSyncState == RollbackTransaction && progress.commitSeq == old(progress.commitSeq)
      ensures reply.AbortFailed? ==> pc == Idle && progress.Fields() == old(progress.Fields()) && progress.stored == old(progress.stored)
      ensures var t := Payload(old(progress.View())).value.txnId;
        dest.txns.Keys == old(dest.txns).Keys && (forall u :: u in dest.txns && u != t ==> dest.txns[u] == old(dest.txns)[u])
        && dest.txns[t] == if reply.AbortOk? || reply.NotFound? || (reply.AbortFailed? && reply.lands && old(dest.txns)[t].status == Prepared)
                           then Txn(old(dest.txns)[t].at, Aborted) else old(dest.txns)[t]
    {
      var _ := UpdateInMemory();
      var t := progress.inMemoryData.value.txnId;
      if reply.AbortOk? || reply.NotFound? || (reply.AbortFailed? && reply.lands && dest.txns[t].status == Prepared) {
        dest.AbortTxn(t);
      }
      if reply.AbortFailed? {
        pc := Idle;
      } else if reply == AlreadyCommitted {
        Committed(destTableIds);
        pc := Applied(pc);
      } else {
        progress.Rollback();
        pc := if pc == Recovering then Idle else Left;
      }
    }

    method Sealed(log: seq<Entry>)
      requires pc.Applied?
      modifies this, progress
      ensures View() == Next(log, syncType, old(View()), Seal).value
      ensures progress.stored == progress.Fields() == old(progress.Fields()).(sub := Done, prev := old(progress.commitSeq))
      ensures pc == if !old(pc).back.Handling? then Idle else if old(pc).back.trigger then Left else Handled(old(pc).back.i, false)
    {
      progress.Finish();
      pc := Returned(pc.back);
    }

    /** The head of `handleBinlogInternal`. */
    method StartBinlog(log: seq<Entry>, i: nat)
      requires Next(log, syncType, View(), Fetch(i)).Some?
      modifies this, progress
      ensures View() == Next(log, syncType, old(View()), Fetch(i)).value
      ensures progress.stored == progress.Fields() == old(progress.Fields()).(commit := log[i].at, last := log[i].at) && pc == Handling(i, false)
    {
      progress.StartHandle(log[i].at);
      pc := Handling(i, false);
    }

    /** The Done case of `handleUpsert`. */
    method JudgeRecords(log: seq<Entry>, destTables: Option<set<int>>)
      requires Next(log, syncType, View(), Judge(destTables)).Some?
      modifies this, progress
      ensures View() == Next(log, syncType, old(View()), Judge(destTables)).value
      ensures progress.stored == old(progress.stored)
      ensures destTables == None ==> pc == Handled(old(pc).i, true) && progress.View() == old(progress.View())
      ensures destTables != None ==> pc == old(pc) && progress.Fields() == old(progress.Fields()).(sub := BeginTransaction)
                                     && progress.inMemoryData == Some(Data(log[old(pc).i].at, 0, destTables.value))
    {
      if destTables == None {
        pc := Handled(pc.i, true);
      } else {
        progress.NextSubVolatile(BeginTransaction, Some(Data(log[pc.i].at, 0, destTables.value)));
      }
    }

    /** The tail of `handleBinlog`. */
    method AfterBinlog(log: seq<Entry>, tableOrder: seq<int>, partOrder: seq<int>)
      requires pc.Handled? && pc.i < |log|
      requires progress.tableCommitSeqMap.Some? ==> Enumerates(tableOrder, progress.tableCommitSeqMap.value.Keys)
      requires progress.partitionCommitSeqMap.Some? ==> Enumerates(partOrder, progress.partitionCommitSeqMap.value.Keys)
      modifies this, progress
      ensures View() == Next(log, syncType, old(View()), FinishHandle).value
      ensures pc == Idle && progress.subSyncState == Done && progress.prevCommitSeq == progress.commitSeq == old(progress.commitSeq)
      ensures skipped == if old(pc).irrelevant then old(skipped) + {log[old(pc).i].at} else old(skipped)
    {
      W.AfterHandleBinlog(progress, syncType, log[pc.i].at, tableOrder, partOrder);
      if !(progress.subSyncState == Done && progress.prevCommitSeq == progress.commitSeq) {
        progress.Finish();
      }
      if pc.irrelevant {
        skipped := skipped + {log[pc.i].at};
      }
      pc := Idle;
    }

    /** `recoverIncrementalSync`. */
    method RecoverIncrementalSync(log: seq<Entry>)
      requires Next(log, syncType, View(), Recover).Some?
      modifies this, progress
      ensures View() == Next(log, syncType, old(View()), Recover).value
      ensures old(progress.subSyncState).IsUpsert() ==> pc == Recovering && progress.View() == old(progress.View())
      ensures !old(progress.subSyncState).IsUpsert() ==> pc == old(pc) && progress.stored == progress.Fields()
      ensures !old(progress.subSyncState).IsUpsert() ==>
        progress.Fields() == old(progress.Fields()).(sub := Done, unknown := old(progress.commitSeq), commit := old(progress.prevCommitSeq))
    {
      if progress.subSyncState.IsUpsert() {
        pc := Recovering;
      } else {
        progress.Rollback();
      }
    }
  }
}
