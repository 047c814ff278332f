/** `pipelineSync` and its helpers in the form of the source: a job mutating its progress object
    and its pipeline context, case by case, proved against the machine of module Pipeline. */
module PipelineJobs {
  import opened Wrappers
  import opened Progress
  import opened ProgressObject
  import opened Binlogs
  import opened TxnLinks
  import opened Pipeline
  import L = TxnLinks
  import U = UpsertReplay
  import W = Watermarks

  class JobPipelineContext {
    var nextCommitSeq: Seq
    var binlogs: seq<Entry>
    var close: bool
    var chain: Chain

    constructor (commitSeq: Seq)
      ensures Value() == Ctx(commitSeq, [], false, Fresh)
    {
      nextCommitSeq, binlogs, close, chain := commitSeq, [], false, Fresh;
    }

    ghost function Value(): Ctx
      reads this
    {
      Ctx(nextCommitSeq, binlogs, close, chain)
    }

    predicate HasNonUpsertBinlog()
      reads this
    {
      |binlogs| > 0 && binlogs[0].kind.Ddl?
    }

    method ConsumeNextBinlog()
      requires |binlogs| > 0
      modifies this`binlogs
      ensures binlogs == old(binlogs)[1..]
    {
      binlogs := binlogs[1..];
    }

    method DrainStaledBinlogs(prev: Seq)
      modifies this`binlogs
      ensures binlogs == DropStale(old(binlogs), prev)
      ensures |binlogs| <= |old(binlogs)| && binlogs == old(binlogs)[|old(binlogs)| - |binlogs|..]
      ensures forall i :: 0 <= i < |old(binlogs)| - |binlogs| ==> old(binlogs)[i].at <= prev
      ensures |binlogs| > 0 ==> binlogs[0].at > prev
    {
      while |binlogs| > 0
        invariant DropStale(binlogs, prev) == DropStale(old(binlogs), prev)
        invariant |binlogs| <= |old(binlogs)| && binlogs == old(binlogs)[|old(binlogs)| - |binlogs|..]
        invariant forall i :: 0 <= i < |old(binlogs)| - |binlogs| ==> old(binlogs)[i].at <= prev
        decreases |binlogs|
      {
        if binlogs[0].at > prev {
          break;
        }
        binlogs := binlogs[1..];
      }
    }

    /** Without a result ready the receive comes back empty, at once or after its timeout. */
    method TakeNextCommitableTxn(ready: bool) returns (r: Option<TxnIngestResult>)
      requires ready ==> L.Enabled(chain, Take)
      modifies this`chain
      ensures if ready then r == Some(old(chain).ch[0]) && chain == L.Next(old(chain), Take)
              else r == None && chain == old(chain)
    {
      r := None;
      if ready {
        r := Some(chain.ch[0]);
        chain := L.Next(chain, Take);
      }
    }
  }

  class PipelineJob {
    const syncType: SyncType
    const maxIngesting: nat
    const progress: JobProgress<Data>
    var pipelineCtx: JobPipelineContext?
    var hasMoreBinlogs: bool
    var triggerPartial: bool
    var pc: Pc
    var dest: World

    constructor (syncType: SyncType, maxIngesting: nat, progress: JobProgress<Data>)
      ensures this.syncType == syncType && this.maxIngesting == maxIngesting && this.progress == progress
      ensures pipelineCtx == null && pc == Idle && !triggerPartial && dest == World(map[], {}, {})
    {
      this.syncType, this.maxIngesting, this.progress := syncType, maxIngesting, progress;
      pipelineCtx, hasMoreBinlogs, triggerPartial, pc := null, true, false, Idle;
      dest := World(map[], {}, {});
    }

    ghost function Context(): Option<Ctx>
      reads this, pipelineCtx
    {
      if pipelineCtx == null then None else Some(pipelineCtx.Value())
    }

    ghost function View(): State
      reads this, progress, pipelineCtx
    {
      State(progress.View(), Context(), hasMoreBinlogs, triggerPartial, pc, dest)
    }

    method ResetPipeline()
      modifies this`pipelineCtx, this`pc
      ensures View() == Reset(old(View()))
      ensures pipelineCtx == null && pc == if old(pipelineCtx) == null then Fault else Idle
    {
      if pipelineCtx == null {
        pc := Fault;
      } else {
        pipelineCtx := null;
        pc := Idle;
      }
    }

    method InitializePipelineContext()
      modifies this`pipelineCtx, pipelineCtx
      ensures View() == Initialized(old(View())) && (old(pipelineCtx) == null ==> fresh(pipelineCtx))
      ensures old(pipelineCtx) == null ==> Context() == Some(Ctx(progress.commitSeq, [], false, Fresh))
      ensures old(pipelineCtx) != null ==> Context() == Some(old(pipelineCtx.Value()).(close := false))
      ensures pipelineCtx != null && (old(pipelineCtx) != null ==> pipelineCtx == old(pipelineCtx))
    {
      if pipelineCtx != null {
        pipelineCtx.close := false;
      } else {
        pipelineCtx := new JobPipelineContext(progress.commitSeq);
      }
    }

    method MayLoadPipelineInMemoryData()
      modifies progress
      ensures progress.View() == old(progress.View()).(mem := Some(Payload(old(progress.View()))))
      ensures old(progress.inMemoryData) != None ==> progress.inMemoryData == old(progress.inMemoryData)
      ensures old(progress.inMemoryData) == None ==> progress.inMemoryData == if progress.persistData == None then Some(NoTxns) else progress.persistData
    {
      if progress.inMemoryData == None {
        progress.inMemoryData := if progress.persistData == None then Some(NoTxns) else progress.persistData;
      }
    }

    /** The head of the sync function: after a restart the launched transactions are rolled back. */
    method EnterSync()
      requires pc.Idle?
      modifies this, progress, pipelineCtx
      ensures View() == EnterStep(old(View()))
      ensures old(pipelineCtx) != null || old(progress.subSyncState) == Done ==> progress.View() == old(progress.View()) && pc == Loop
      ensures old(pipelineCtx) == null && old(progress.subSyncState) in {LaunchTransaction, CommitPipeline, CommitPipelineTransaction} ==>
        pc == Loop && progress.stored == progress.Fields() == old(progress.Fields()).(sub := RollbackPipeline, data := progress.inMemoryData)
      ensures old(pipelineCtx) == null && old(progress.subSyncState) == RollbackPipeline ==>
        pc == Loop && progress.Fields() == old(progress.Fields()) && progress.stored == old(progress.stored)
      ensures pc == Loop ==> hasMoreBinlogs
    {
      if pipelineCtx == null && progress.subSyncState != Done {
        if progress.subSyncState.IsUpsert() {
          progress.NextSubVolatile(Done, None);
        } else {
          MayLoadPipelineInMemoryData();
          var sub := progress.subSyncState;
          if sub == LaunchTransaction || sub == CommitPipeline || sub == CommitPipelineTransaction {
            progress.NextSubCheckpoint(RollbackPipeline, progress.inMemoryData);
          } else if sub != RollbackPipeline {
            pc := Fault;
            return;
          }
        }
      }
      if pipelineCtx != null {
        pipelineCtx.DrainStaledBinlogs(progress.prevCommitSeq);
      }
      hasMoreBinlogs := true;
      pc := Loop;
    }

    method DoneBranch(skip: SkipReply)
      requires pc.Loop? && progress.subSyncState.Done?
      modifies this, progress, pipelineCtx
      ensures View() == DoneStep(old(View()), skip)
      ensures old(triggerPartial) ==> pc == Left && pipelineCtx == null && progress.View() == old(progress.View())
      ensures !old(triggerPartial) && old(progress.prevCommitSeq) != old(progress.commitSeq) ==>
        && pc == Idle && pipelineCtx == null && progress.stored == progress.Fields()
        && progress.Fields() == old(progress.Fields()).(unknown := old(progress.commitSeq), commit := old(progress.prevCommitSeq))
      ensures !old(triggerPartial) && old(progress.prevCommitSeq) == old(progress.commitSeq) ==>
        && (skip == SkipError ==> pc == Idle && pipelineCtx != null && progress.View() == old(progress.View()))
        && (skip == SkipExit ==> pc == Left && pipelineCtx == null && progress.View() == old(progress.View()))
        && (skip == NoSkip ==> pipelineCtx != null && !pipelineCtx.close)
        && (skip == NoSkip && !pipelineCtx.HasNonUpsertBinlog() ==>
              && pc == Loop && progress.stored == old(progress.stored)
              && progress.subSyncState == LaunchTransaction && progress.inMemoryData == Some(NoTxns))
        && (skip == NoSkip && pipelineCtx.HasNonUpsertBinlog() ==>
              && pc == Handling && progress.stored == progress.Fields()
              && progress.Fields() == old(progress.Fields()).(commit := pipelineCtx.binlogs[0].at, last := pipelineCtx.binlogs[0].at))
    {
      InitializePipelineContext();
      if triggerPartial {
        ResetPipeline();
        pc := Left;
        return;
      }
      if !(progress.subSyncState == Done && progress.prevCommitSeq == progress.commitSeq) {
        ResetPipeline();
        progress.Rollback();
        return;
      }
      if skip.SkipError? {
        pc := Idle;
        return;
      } else if skip.SkipExit? {
        ResetPipeline();
        pc := Left;
        return;
      }
      if !pipelineCtx.HasNonUpsertBinlog() {
        progress.NextSubVolatile(LaunchTransaction, Some(NoTxns));
      } else {
        progress.StartHandle(pipelineCtx.binlogs[0].at);
        pc := Handling;
      }
    }

    /** What follows the handler of a non-upsert. */
    method HandleBinlogTail(cfg: Config, r: HandleReply, tableOrder: seq<int>, partOrder: seq<int>)
      requires pc.Handling? && cfg.syncType == syncType
      requires progress.tableCommitSeqMap.Some? ==> Enumerates(tableOrder, progress.tableCommitSeqMap.value.Keys)
      requires progress.partitionCommitSeqMap.Some? ==> Enumerates(partOrder, progress.partitionCommitSeqMap.value.Keys)
      modifies this, progress, pipelineCtx
      ensures View() == HandleStep(cfg, old(View()), r)
      ensures old(pipelineCtx) != null && |old(pipelineCtx.binlogs)| > 0 ==>
        match r
        case Handled(locked) =>
          && progress.subSyncState == Done && progress.prevCommitSeq == progress.commitSeq == old(progress.commitSeq)
          && pc == (if locked then Loop else Idle)
          && pipelineCtx == old(pipelineCtx) && pipelineCtx.binlogs == if locked then old(pipelineCtx.binlogs)[1..] else old(pipelineCtx.binlogs)
        case HandleFailed => pc == Idle && pipelineCtx == old(pipelineCtx) && progress.View() == old(progress.View()) && Context() == old(Context())
        case TookSnapshot => pc == Left && pipelineCtx == null && progress.View() == old(progress.View())
    {
      if pipelineCtx == null || |pipelineCtx.binlogs| == 0 {
        pc := Fault;
        return;
      }
      match r
      case HandleFailed => pc := Idle;
      case TookSnapshot =>
        ResetPipeline();
        pc := Left;
      case Handled(locked) =>
        W.AfterHandleBinlog(progress, syncType, pipelineCtx.binlogs[0].at, tableOrder, partOrder);
        if !(progress.subSyncState == Done && progress.prevCommitSeq == progress.commitSeq) {
          progress.Finish();
        }
        if locked {
          pipelineCtx.ConsumeNextBinlog();
          pc := Loop;
        } else {
          pc := Idle;
        }
    }

    /** The fetch at the head of the launch branch. */
    method GetNextBinlogs(cfg: Config, r: FetchReply)
      requires pc.Loop? && (r.Fetched? ==> 0 < r.n <= |cfg.log| - r.i)
      modifies this, progress, pipelineCtx
      ensures View() == FetchStep(cfg, old(View()), r) && pipelineCtx == old(pipelineCtx)
      ensures pipelineCtx != null && |old(pipelineCtx.binlogs)| > 0 ==> Context() == old(Context()) && hasMoreBinlogs && pc == old(pc)
      ensures pipelineCtx != null && |old(pipelineCtx.binlogs)| == 0 && old(pipelineCtx.nextCommitSeq) >= old(progress.prevCommitSeq) ==>
        match r
        case FetchFailed => pc == Idle && hasMoreBinlogs && Context() == old(Context())
        case NoneNew(persist) => pc == old(pc) && !hasMoreBinlogs && Context() == old(Context())
            && progress.Fields() == old(progress.Fields()) && progress.stored == if persist then progress.Fields() else old(progress.stored)
        case Fetched(i, n) => pc == old(pc) && hasMoreBinlogs && pipelineCtx.binlogs == cfg.log[i..i + n] && pipelineCtx.nextCommitSeq == cfg.log[i + n - 1].at
    {
      if pipelineCtx == null {
        pc := Fault;
        return;
      }
      hasMoreBinlogs := true;
      if |pipelineCtx.binlogs| == 0 {
        if pipelineCtx.nextCommitSeq < progress.prevCommitSeq {
          pc := Fault;
          return;
        }
        match r
        case FetchFailed => pc := Idle;
        case NoneNew(persist) =>
          if persist {
            progress.Persist();
          }
          hasMoreBinlogs := |pipelineCtx.binlogs| > 0;
        case Fetched(i, n) =>
          var binlogs := cfg.log[i..i + n];
          pipelineCtx.binlogs := binlogs;
          pipelineCtx.nextCommitSeq := binlogs[|binlogs| - 1].at;
          hasMoreBinlogs := |pipelineCtx.binlogs| > 0;
      }
    }

    method BeginTxn(id: int, destTables: set<int>, triggered: bool)
      requires pipelineCtx != null && |pipelineCtx.binlogs| > 0 && progress.inMemoryData.Some?
      requires L.WellFormed(pipelineCtx.chain)
      modifies this`dest, progress, pipelineCtx
      ensures View() == Begin(old(View()), id, destTables, triggered)
      ensures var t := TxnContext(old(pipelineCtx.binlogs)[0].at, id, destTables);
        && dest == old(dest).(txns := old(dest).txns[id := U.Txn(t.commitSeq, U.Prepared)])
        && progress.inMemoryData == Some(old(progress.inMemoryData).value.(running := old(progress.inMemoryData).value.running + [t]))
        && progress.stored == progress.Fields() == old(progress.Fields()).(data := progress.inMemoryData)
        && pipelineCtx.chain.txns == old(pipelineCtx.chain).txns + [t]
    {
      var ctx := TxnContext(pipelineCtx.binlogs[0].at, id, destTables);
      dest := dest.(txns := dest.txns[id := U.Txn(ctx.commitSeq, U.Prepared)]);
      var data := progress.inMemoryData.value;
      progress.inMemoryData := Some(data.(running := data.running + [ctx]));
      progress.PersistInMemoryData();
      pipelineCtx.chain := L.Next(pipelineCtx.chain, Launch(ctx, triggered));
    }

    method LaunchBranch(r: LaunchReply)
      requires pc.Loop?
      modifies this, progress, pipelineCtx
      ensures View() == LaunchStep(old(View()), r)
      ensures pc == old(pc) || pc == Idle || pc == Fault
      ensures old(pipelineCtx) != null && old(progress.inMemoryData).Some? && L.WellFormed(old(pipelineCtx.chain)) ==>
        |old(pipelineCtx.binlogs)| > 0 && old(pipelineCtx.binlogs)[0].kind.Upsert? ==>
        var at := old(pipelineCtx.binlogs)[0].at;
        match r
        case Irrelevant => pc == Loop && progress.subSyncState == CommitPipeline && progress.stored == old(progress.stored)
            && dest == old(dest).(judged := old(dest).judged + {at}) && pipelineCtx == old(pipelineCtx) && pipelineCtx.binlogs == old(pipelineCtx.binlogs)[1..]
        case BuildFailed => pipelineCtx == null && pc == Idle && progress.View() == old(progress.View()) && dest == old(dest)
        case BeginFailed => pipelineCtx == null && pc == Idle && progress.View() == old(progress.View()) && dest == old(dest)
        case BeginLost(id) => pipelineCtx == null && pc == Idle && progress.View() == old(progress.View())
        case TableNotFound => pipelineCtx == null && pc == Idle && dest == old(dest) && progress.subSyncState == Done && progress.commitSeq == old(progress.prevCommitSeq)
        case Begun(id, _, ingest) =>
            if ingest == PrepareFailed then pipelineCtx == null && pc == Idle
            else pc == Loop && progress.subSyncState == CommitPipeline && pipelineCtx == old(pipelineCtx) && pipelineCtx.binlogs == old(pipelineCtx.binlogs)[1..]
                 && triggerPartial == (old(triggerPartial) || ingest == Triggers) && pipelineCtx.close == (old(pipelineCtx.close) || ingest == Triggers)
    {
      if pipelineCtx == null || progress.inMemoryData.None? || !L.WellFormed(pipelineCtx.chain) {
        pc := Fault;
        return;
      }
      if |pipelineCtx.binlogs| > 0 && !pipelineCtx.HasNonUpsertBinlog() {
        var at := pipelineCtx.binlogs[0].at;
        if r.Irrelevant? {
          dest := dest.(judged := dest.judged + {at});
        } else if r.Begun? {
          BeginTxn(r.id, r.destTables, r.ingest.Triggers?);
          if r.ingest.PrepareFailed? {
            ResetPipeline();
            return;
          } else if r.ingest.Triggers? {
            pipelineCtx.close := true;
            triggerPartial := true;
          }
        } else {
          if r.BeginLost? {
            dest := dest.(txns := dest.txns[r.id := U.Txn(at, U.Prepared)]);
          } else if r.TableNotFound? {
            progress.Rollback();
          }
          ResetPipeline();
          return;
        }
        pipelineCtx.ConsumeNextBinlog();
      }
      progress.NextSubVolatile(CommitPipeline, progress.inMemoryData);
    }

    /** Returns whether the case ended with a result; otherwise the next state is still to be chosen. */
    method TakeBranch()
      requires pc.Loop? && pipelineCtx != null && L.Enabled(pipelineCtx.chain, Take)
      requires progress.inMemoryData.Some? && |progress.inMemoryData.value.running| > 0
      modifies this, progress, pipelineCtx
      ensures View() == TakeStep(old(View()))
      ensures var r := old(pipelineCtx.chain).ch[0];
        match r.outcome
        case Triggered => pc == Loop && pipelineCtx == old(pipelineCtx)
            && progress.stored == progress.Fields() == old(progress.Fields()).(sub := RollbackPipeline, data := old(progress.inMemoryData))
        case Failed => pc == Idle && pipelineCtx == null && progress.View() == old(progress.View())
        case Ingested =>
            if r.context.txnId != old(progress.inMemoryData).value.running[0].txnId then pc == Fault
            else pc == Loop && progress.inMemoryData == Some(old(progress.inMemoryData).value.(commitable := Some(r.context)))
                 && progress.stored == progress.Fields() == old(progress.Fields()).(sub := CommitPipelineTransaction, data := progress.inMemoryData)
    {
      var data := progress.inMemoryData.value;
      var r := pipelineCtx.TakeNextCommitableTxn(true);
      match r.value.outcome {
        case Triggered => progress.NextSubCheckpoint(RollbackPipeline, progress.inMemoryData);
        case Failed => ResetPipeline();
        case Ingested =>
          if r.value.context.txnId != data.running[0].txnId {
            pc := Fault;
          } else {
            progress.inMemoryData := Some(data.(commitable := Some(r.value.context)));
            progress.NextSubCheckpoint(CommitPipelineTransaction, progress.inMemoryData);
          }
      }
    }

    method CommitPipelineBranch(cfg: Config, take: bool, skipBinlog: bool)
      requires pc.Loop? && cfg.max == maxIngesting
      modifies this, progress, pipelineCtx
      ensures View() == CommitPipelineStep(cfg, old(View()), take, skipBinlog)
      ensures old(pipelineCtx) != null && old(progress.inMemoryData).Some? && !(take && L.Enabled(old(pipelineCtx.chain), Take)) ==>
        var idle, c := old(progress.inMemoryData).value.running == [], pipelineCtx;
        && c == old(pipelineCtx) && c.Value() == old(pipelineCtx.Value()) && progress.inMemoryData == old(progress.inMemoryData)
        && (if idle && (skipBinlog || c.HasNonUpsertBinlog() || c.close)
            then pc == Loop && progress.stored == progress.Fields() == old(progress.Fields()).(sub := Done, data := None)
            else if !c.close && hasMoreBinlogs && |progress.inMemoryData.value.running| < maxIngesting
            then pc == Loop && progress.subSyncState == LaunchTransaction && progress.stored == old(progress.stored)
            else if idle && !hasMoreBinlogs
            then pc == Idle && progress.stored == progress.Fields() == old(progress.Fields()).(prev := old(progress.commitSeq), sub := CommitPipeline, data := progress.inMemoryData)
            else pc == Loop && progress.View() == old(progress.View()))
    {
      if pipelineCtx == null || progress.inMemoryData.None? {
        pc := Fault;
        return;
      }
      var data := progress.inMemoryData.value;
      if |data.running| > 0 && take && L.WellFormed(pipelineCtx.chain) && |pipelineCtx.chain.ch| > 0 {
        TakeBranch();
        return;
      }
      var hasRunningTxn := |data.running| > 0;
      if (skipBinlog || pipelineCtx.HasNonUpsertBinlog() || pipelineCtx.close) && !hasRunningTxn {
        progress.NextSubCheckpoint(Done, None);
      } else if !pipelineCtx.close && hasMoreBinlogs && |data.running| < maxIngesting {
        progress.NextSubVolatile(LaunchTransaction, Some(data));
      } else if !hasMoreBinlogs && !hasRunningTxn {
        progress.DoneSubCheckpoint(CommitPipeline, Some(data));
        pc := Idle;
      }
    }

    method ApplyTxn(cfg: Config, ctx: TxnContext, destTableIds: seq<int>, tableOrder: seq<int>, partOrder: seq<int>)
      requires cfg.syncType == syncType && ctx.destTables == set i | 0 <= i < |destTableIds| :: destTableIds[i]
      requires progress.tableCommitSeqMap.Some? ==> Enumerates(tableOrder, progress.tableCommitSeqMap.value.Keys)
      requires progress.partitionCommitSeqMap.Some? ==> Enumerates(partOrder, progress.partitionCommitSeqMap.value.Keys)
      modifies progress
      ensures progress.View() == Applied(cfg, old(progress.View()), ctx)
      ensures progress.commitSeq == ctx.commitSeq && progress.inMemoryData == old(progress.inMemoryData) && progress.stored == old(progress.stored)
      ensures progress.subSyncState == old(progress.subSyncState) && progress.prevCommitSeq == old(progress.prevCommitSeq)
      ensures progress.tableCommitSeqMap.Some? ==>
        progress.tableCommitSeqMap == if syncType == DBSync then W.Raised(old(progress.tableCommitSeqMap), ctx.destTables, ctx.commitSeq) else old(progress.tableCommitSeqMap)
      ensures progress.tableCommitSeqMap != None ==> progress.partitionCommitSeqMap == old(progress.partitionCommitSeqMap)
    {
      progress.commitSeq := ctx.commitSeq;
      if syncType == DBSync && progress.tableCommitSeqMap != None && |progress.tableCommitSeqMap.value| > 0 {
        var raised := W.RaiseTables(progress.tableCommitSeqMap.value, destTableIds, ctx.commitSeq);
        progress.tableCommitSeqMap := Some(raised);
      }
      assert progress.tableCommitSeqMap == (if syncType.DBSync?
        then W.Raised(old(progress.tableCommitSeqMap), ctx.destTables, ctx.commitSeq) else old(progress.tableCommitSeqMap));
      W.AfterHandleBinlog(progress, syncType, ctx.commitSeq, tableOrder, partOrder);
    }

    method CommitTxnBranch(cfg: Config, r: CommitReply, destTableIds: seq<int>, tableOrder: seq<int>, partOrder: seq<int>)
      requires pc.Loop? && cfg.syncType == syncType
      requires progress.inMemoryData.Some? && progress.inMemoryData.value.commitable.Some? ==>
        progress.inMemoryData.value.commitable.value.destTables == set i | 0 <= i < |destTableIds| :: destTableIds[i]
      requires progress.tableCommitSeqMap.Some? ==> Enumerates(tableOrder, progress.tableCommitSeqMap.value.Keys)
      requires progress.partitionCommitSeqMap.Some? ==> Enumerates(partOrder, progress.partitionCommitSeqMap.value.Keys)
      modifies this, progress
      ensures View() == CommitTxnStep(cfg, old(View()), r)
      ensures progress.stored == old(progress.stored)
      ensures pc == Sealing ==> old(progress.inMemoryData).Some? && old(progress.inMemoryData).value.commitable.Some?
      ensures (old(pipelineCtx) != null && old(progress.inMemoryData).Some? && old(progress.inMemoryData).value.commitable.Some?
               && old(progress.inMemoryData).value.running != []) ==>
        var t, data := old(progress.inMemoryData).value.commitable.value, old(progress.inMemoryData).value;
        && dest.requested == old(dest).requested + {t.txnId} && dest.judged == old(dest).judged && dest.txns.Keys == old(dest).txns.Keys
        && (forall u :: u in dest.txns && u != t.txnId ==> dest.txns[u] == old(dest).txns[u])
        && (t.txnId in dest.txns ==>
              var commits := r.CommitOk? || (r.lands && old(dest).txns[t.txnId].status == U.Prepared);
              dest.txns[t.txnId] == if commits then old(dest).txns[t.txnId].(status := U.Committed) else old(dest).txns[t.txnId])
        && (if r.CommitOk? then
              && pc == Sealing && pipelineCtx == old(pipelineCtx) && progress.commitSeq == t.commitSeq
              && progress.prevCommitSeq == old(progress.prevCommitSeq) && progress.inMemoryData == Some(Data(data.running[1..], None))
            else
              pc == Idle && pipelineCtx == null && progress.View() == old(progress.View()))
    {
      if progress.inMemoryData.None? || progress.inMemoryData.value.commitable.None? || |progress.inMemoryData.value.running| == 0 {
        pc := Fault;
        return;
      }
      var data := progress.inMemoryData.value;
      var ctx := data.commitable.value;
      dest := dest.(requested := dest.requested + {ctx.txnId});
      match r
      case CommitFailed(lands) =>
        if lands && ctx.txnId in dest.txns && dest.txns[ctx.txnId].status.Prepared? {
          dest := Decide(dest, ctx.txnId, U.Committed);
        }
        ResetPipeline();
      case CommitOk =>
        dest := Decide(dest, ctx.txnId, U.Committed);
        ApplyTxn(cfg, ctx, destTableIds, tableOrder, partOrder);
        progress.inMemoryData := Some(Data(data.running[1..], None));
        pc := Sealing;
    }

    /** The end of the branch; the process may have died before it. */
    method SealCommit(locked: bool)
      requires pc.Sealing?
      modifies this`pc, progress
      ensures View() == SealStep(old(View()), locked)
      ensures progress.stored == progress.Fields() == old(progress.Fields()).(prev := old(progress.commitSeq), sub := CommitPipeline, data := progress.inMemoryData)
      ensures pc == if locked then Loop else Idle
    {
      progress.DoneSubCheckpoint(CommitPipeline, progress.inMemoryData);
      pc := if locked then Loop else Idle;
    }

    /** One turn of the loop over the launched transactions. */
    method RollbackTxnTurn(cfg: Config, r: U.AbortReply, destTableIds: seq<int>, tableOrder: seq<int>, partOrder: seq<int>)
      requires pc.Rolling? && cfg.syncType == syncType
      requires progress.inMemoryData.Some? && pc.i < |progress.inMemoryData.value.running|
      requires progress.inMemoryData.value.running[pc.i].destTables == set i | 0 <= i < |destTableIds| :: destTableIds[i]
      requires progress.tableCommitSeqMap.Some? ==> Enumerates(tableOrder, progress.tableCommitSeqMap.value.Keys)
      requires progress.partitionCommitSeqMap.Some? ==> Enumerates(partOrder, progress.partitionCommitSeqMap.value.Keys)
      modifies this, progress
      ensures View() == RollbackTxnStep(cfg, old(View()), r)
      ensures pc == if r.AbortFailed? then Idle else Rolling(old(pc).i + 1)
      ensures progress.stored == old(progress.stored) && progress.inMemoryData == old(progress.inMemoryData)
      ensures var t := old(progress.inMemoryData).value.running[old(pc).i];
        && (if r.AlreadyCommitted? then progress.commitSeq == t.commitSeq else progress.Fields() == old(progress.Fields()))
        && dest == old(dest).(txns := dest.txns) && dest.txns.Keys == old(dest).txns.Keys
        && (forall u :: u in dest.txns && u != t.txnId ==> dest.txns[u] == old(dest).txns[u])
        && (t.txnId in dest.txns ==>
              var aborts := r.AbortOk? || r.NotFound? || (r.AbortFailed? && r.lands && old(dest).txns[t.txnId].status == U.Prepared);
              dest.txns[t.txnId] == if aborts then old(dest).txns[t.txnId].(status := U.Aborted) else old(dest).txns[t.txnId])
    {
      var ctx := progress.inMemoryData.value.running[pc.i];
      match r
      case AbortOk => dest := Decide(dest, ctx.txnId, U.Aborted); pc := Rolling(pc.i + 1);
      case NotFound => dest := Decide(dest, ctx.txnId, U.Aborted); pc := Rolling(pc.i + 1);
      case AlreadyAborted => pc := Rolling(pc.i + 1);
      case AlreadyCommitted =>
        ApplyTxn(cfg, ctx, destTableIds, tableOrder, partOrder);
        pc := Rolling(pc.i + 1);
      case AbortFailed(lands) =>
        if lands && ctx.txnId in dest.txns && dest.txns[ctx.txnId].status.Prepared? {
          dest := Decide(dest, ctx.txnId, U.Aborted);
        }
        pc := Idle;
    }

    method RollbackBranch()
      requires pc.Loop? && progress.subSyncState.RollbackPipeline?
      modifies this`pc, progress
      ensures View() == old(View()).(prog := old(progress.View()).(mem := Some(Payload(old(progress.View())))), pc := Rolling(0))
    {
      MayLoadPipelineInMemoryData();
      pc := Rolling(0);
    }
  }
}
