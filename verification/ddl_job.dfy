/** `handleNonBarrierBinlog` and `determineBinlogState` in the form of the source, proved against
    the machine of DdlReplay. */
module DdlJobs {
  import opened Wrappers
  import opened Progress
  import opened ProgressObject
  import opened Binlogs
  import opened DdlReplay

  datatype StateReply = Answered | CheckFails | CannotTell

  class DdlJob<!S(!new)> {
    const log: seq<Entry>
    const handlers: Handlers<S>
    const idempotentDDL: bool
    const progress: JobProgress<()>
    var schema: S
    var pc: Pc

    constructor (log: seq<Entry>, handlers: Handlers<S>, idempotentDDL: bool, progress: JobProgress<()>, schema: S)
      ensures this.log == log && this.handlers == handlers && this.idempotentDDL == idempotentDDL
      ensures this.progress == progress && this.schema == schema && pc == Idle
    {
      this.log, this.handlers, this.idempotentDDL := log, handlers, idempotentDDL;
      this.progress, this.schema, pc := progress, schema, Idle;
    }

    ghost function View(): State<S>
      reads this, progress
    {
      State(progress.View(), pc, schema)
    }

    /** Only asked for the binlog left unknown.  The check may fail, and where it cannot tell a full
        sync settles the matter and the binlog counts as committed. */
    method DetermineBinlogState(c: Seq, reply: StateReply) returns (r: Result<bool, ()>)
      requires c == progress.unknownCommitSeq
      modifies this`pc
      ensures handlers.idempotent(c) ==> r == Ok(false)
      ensures !handlers.idempotent(c) ==>
        match reply
        case Answered => r == Ok(handlers.committed(c, schema))
        case CheckFails => r.Err?
        case CannotTell => r == Ok(true)
      ensures pc == if !handlers.idempotent(c) && reply.CannotTell? then Left else old(pc)
    {
      if handlers.idempotent(c) {
        return Ok(false);
      }
      match reply
      case Answered => r := Ok(handlers.committed(c, schema));
      case CheckFails => r := Err(());
      case CannotTell =>
        pc := Left;
        r := Ok(true);
    }

    method StartBinlog(i: nat)
      requires Enabled(log, View(), Fetch(i))
      modifies this, progress
      ensures View() == Next(log, handlers, idempotentDDL, old(View()), Fetch(i))
      ensures progress.stored == progress.Fields() == old(progress.Fields()).(commit := log[i].at, last := log[i].at) && pc == Handling(i)
    {
      progress.StartHandle(log[i].at);
      pc := Handling(i);
    }

    /** What the look amounts to as an event of the machine. */
    ghost function LookEvent(reply: StateReply): Event
      requires pc.Handling? && pc.i < |log|
      reads this, progress
    {
      var c := log[pc.i].at;
      if !idempotentDDL || progress.unknownCommitSeq != c || handlers.idempotent(c) || reply.Answered? then Examine
      else if reply.CheckFails? then ExamineFailed
      else LeaveForSnapshot
    }

    method Look(reply: StateReply)
      requires Enabled(log, View(), Examine)
      modifies this
      ensures View() == Next(log, handlers, idempotentDDL, old(View()), old(LookEvent(reply)))
      ensures schema == old(schema)
      ensures var i, c := old(pc).i, log[old(pc).i].at;
        pc == if !idempotentDDL || progress.unknownCommitSeq != c || handlers.idempotent(c) then Ready(i)
              else match reply
                   case Answered => if handlers.committed(c, schema) then Handled(i) else Ready(i)
                   case CheckFails => Idle
                   case CannotTell => Left
    {
      var i := pc.i;
      var commitSeq := log[i].at;
      if idempotentDDL && progress.unknownCommitSeq == commitSeq {
        var r := DetermineBinlogState(commitSeq, reply);
        if r.Err? {
          pc := Idle;
          return;
        } else if r.value {
          if pc != Left {
            pc := Handled(i);
          }
          return;
        }
      }
      pc := Ready(i);
    }

    /** The handler itself; the reply may be lost after it took effect. */
    method Handle(lands: bool, ok: bool)
      requires Enabled(log, View(), Execute(lands, ok))
      modifies this
      ensures View() == Next(log, handlers, idempotentDDL, old(View()), Execute(lands, ok))
      ensures schema == if lands then handlers.effect(log[old(pc).i].at, old(schema)) else old(schema)
      ensures pc == if ok then Handled(old(pc).i) else Idle
    {
      if lands {
        schema := handlers.effect(log[pc.i].at, schema);
      }
      pc := if ok then Handled(pc.i) else Idle;
    }

    method AfterBinlog()
      requires Enabled(log, View(), FinishHandle)
      modifies this, progress
      ensures View() == Next(log, handlers, idempotentDDL, old(View()), FinishHandle)
      ensures pc == Idle && progress.subSyncState == Done && progress.prevCommitSeq == progress.commitSeq == old(progress.commitSeq)
    {
      if !(progress.subSyncState == Done && progress.prevCommitSeq == progress.commitSeq) {
        progress.Finish();
      }
      pc := Idle;
    }

    method RecoverIncrementalSync(committed: bool)
      requires Enabled(log, View(), Recover(committed))
      modifies this, progress
      ensures View() == Next(log, handlers, idempotentDDL, old(View()), Recover(committed))
      ensures var finished := old(progress.subSyncState).IsUpsert() && committed;
        progress.stored == progress.Fields() ==
          if finished then old(progress.Fields()).(sub := Done, prev := old(progress.commitSeq))
          else old(progress.Fields()).(sub := Done, unknown := old(progress.commitSeq), commit := old(progress.prevCommitSeq))
    {
      if progress.subSyncState.IsUpsert() && committed {
        progress.Finish();
      } else {
        progress.Rollback();
      }
    }
  }
}
