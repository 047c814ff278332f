/** Replay of one binlog at a time outside the pipeline: every upsert goes through
    begin, ingest, commit or rollback against the destination's transaction manager, with a
    crash possible between any two steps and any reply possibly lost. */
module UpsertReplay {
  import opened Wrappers
  import opened Progress
  import opened Binlogs
  import W = Watermarks

  datatype Status = Prepared | Committed | Aborted

  datatype Txn = Txn(at: Seq, status: Status)

  /** The in-memory and persisted payload of an upsert. */
  datatype Data = Data(commitSeq: Seq, txnId: int, destTables: set<int>)

  /** Where the run loop stands. `Applied` lies between the two writes of a committed
      transaction; `Left` means a partial snapshot took over. */
  datatype Pc =
    | Idle
    | Handling(i: nat, trigger: bool)
    | Recovering
    | Applied(back: Pc)
    | Handled(i: nat, irrelevant: bool)
    | Left

  /** `requested` remembers the transactions a commit was ever sent for; `skipped` the upserts
      whose records were all filtered out. */
  datatype State = State(prog: Prog<Data>, pc: Pc, txns: map<int, Txn>, requested: set<int>, skipped: set<Seq>)

  datatype BeginReply = BeginOk | BeginLost | BeginRefused | BeginTableNotFound
  datatype IngestReply = IngestOk | IngestFailed | IngestTriggersSnapshot
  datatype AbortReply = AbortOk | NotFound | AlreadyAborted | AlreadyCommitted | AbortFailed(lands: bool)

  datatype Event =
    | Fetch(i: nat)
    | Judge(destTables: Option<set<int>>)
    | JudgeFailed
    | Begin(id: int, beginReply: BeginReply)
    | Ingest(ingestReply: IngestReply)
    | Commit(lands: bool, ok: bool)
    | Abort(abortReply: AbortReply)
    | Seal
    | Other(done: bool)
    | FinishHandle
    | LeaveForSnapshot
    | Recover
    | LateCommit(id: int)
    | Crash

  function Payload(p: Prog<Data>): Option<Data> { if p.mem.Some? then p.mem else p.cur.data }

  predicate Active(pc: Pc) { pc.Handling? || pc.Recovering? }

  /** First half of `committed`: raise the watermarks and write them back. */
  function RaiseAndPersist(p: Prog<Data>, syncType: SyncType, ids: set<int>): Prog<Data> {
    if syncType.DBSync? && p.cur.tables.Some? && |p.cur.tables.value| > 0
    then Persist(p.(cur := p.cur.(tables := W.Raised(p.cur.tables, ids, p.cur.commit))))
    else p
  }

  function Returned(pc: Pc): Pc {
    match pc
    case Handling(i, trigger) => if trigger then Left else Handled(i, false)
    case _ => Idle
  }

  function SetStatus(txns: map<int, Txn>, t: int, status: Status): map<int, Txn>
    requires t in txns
  {
    txns[t := txns[t].(status := status)]
  }

  function BeginStep(s: State, id: int, reply: BeginReply): Option<State>
    requires Active(s.pc) && s.prog.cur.sub.BeginTransaction?
  {
    if s.prog.mem.None? || id in s.txns then None
    else
      var m := s.prog.mem.value;
      var begun := s.txns[id := Txn(m.commitSeq, Prepared)];
      match reply
      case BeginOk =>
        var m' := Some(m.(txnId := id));
        Some(s.(prog := NextSubCheckpoint(s.prog.(mem := m'), IngestBinlog, m'), txns := begun))
      case BeginLost => Some(s.(pc := Idle, txns := begun))
      case BeginRefused => Some(s.(pc := Idle))
      case BeginTableNotFound => Some(s.(pc := Idle, prog := Rollback(s.prog)))
  }

  function IngestStep(s: State, reply: IngestReply): Option<State>
    requires Active(s.pc) && s.prog.cur.sub.IngestBinlog?
  {
    var m := Payload(s.prog);
    if m.None? then None
    else
      var p := s.prog.(mem := m);
      match reply
      case IngestOk => Some(s.(prog := NextSubCheckpoint(p, CommitTransaction, m)))
      case IngestFailed => Some(s.(prog := NextSubCheckpoint(p, RollbackTransaction, m), pc := Idle))
      case IngestTriggersSnapshot =>
        Some(s.(prog := NextSubCheckpoint(p, RollbackTransaction, m),
                pc := if s.pc.Handling? then s.pc.(trigger := true) else s.pc))
  }

  /** The commit may land or not, and the reply may be lost; an OK is never sent for a
      transaction that is not committed. */
  function CommitStep(s: State, syncType: SyncType, lands: bool, ok: bool): Option<State>
    requires Active(s.pc) && s.prog.cur.sub.CommitTransaction?
  {
    var m := Payload(s.prog);
    if m.None? || m.value.txnId !in s.txns then None
    else
      var t := m.value.txnId;
      var txns := if lands && s.txns[t].status.Prepared? then SetStatus(s.txns, t, Committed) else s.txns;
      var s' := s.(txns := txns, requested := s.requested + {t});
      var p := s.prog.(mem := m);
      if !ok then Some(s'.(prog := NextSubCheckpoint(p, RollbackTransaction, m), pc := Idle))
      else if !txns[t].status.Committed? then None
      else Some(s'.(prog := RaiseAndPersist(p, syncType, m.value.destTables), pc := Applied(s.pc)))
  }

  /** Rollback replies are truthful: each names a status the transaction really has. */
  function AbortStep(s: State, syncType: SyncType, reply: AbortReply): Option<State>
    requires Active(s.pc) && s.prog.cur.sub.RollbackTransaction?
  {
    var m := Payload(s.prog);
    if m.None? || m.value.txnId !in s.txns then None
    else
      var t := m.value.txnId;
      var p := s.prog.(mem := m);
      var status := s.txns[t].status;
      var back := if s.pc == Recovering then Idle else Left;
      match reply
      case AbortOk =>
        if !status.Prepared? then None
        else Some(s.(prog := Rollback(p), pc := back, txns := SetStatus(s.txns, t, Aborted)))
      case NotFound =>
        if status.Committed? then None
        else Some(s.(prog := Rollback(p), pc := back, txns := SetStatus(s.txns, t, Aborted)))
      case AlreadyAborted =>
        if !status.Aborted? then None else Some(s.(prog := Rollback(p), pc := back))
      case AlreadyCommitted =>
        if !status.Committed? then None
        else Some(s.(prog := RaiseAndPersist(p, syncType, m.value.destTables), pc := Applied(s.pc)))
      case AbortFailed(lands) =>
        Some(s.(pc := Idle, prog := p,
                txns := if lands && status.Prepared? then SetStatus(s.txns, t, Aborted) else s.txns))
  }

  /** One step; `None` when the event cannot happen in this state. */
  function Next(log: seq<Entry>, syncType: SyncType, s: State, e: Event): Option<State> {
    var p := s.prog;
    match e
    case Fetch(i) =>
      if s.pc.Idle? && p.cur.IsDone() && IsNext(log, p.cur.commit, i)
      then Some(s.(prog := StartHandle(p, log[i].at), pc := Handling(i, false))) else None
    case Judge(destTables) =>
      if s.pc.Handling? && s.pc.i < |log| && log[s.pc.i].kind.Upsert? && p.cur.sub.Done? && !s.pc.trigger then
        match destTables
        case None => Some(s.(pc := Handled(s.pc.i, true)))
        case Some(ids) =>
          Some(s.(prog := NextSubVolatile(p, BeginTransaction, Some(Data(log[s.pc.i].at, 0, ids)))))
      else None
    case JudgeFailed =>
      if s.pc.Handling? && s.pc.i < |log| && log[s.pc.i].kind.Upsert? && p.cur.sub.Done? && !s.pc.trigger
      then Some(s.(pc := Idle)) else None
    case Begin(id, reply) =>
      if Active(s.pc) && p.cur.sub.BeginTransaction? then BeginStep(s, id, reply) else None
    case Ingest(reply) =>
      if Active(s.pc) && p.cur.sub.IngestBinlog? then IngestStep(s, reply) else None
    case Commit(lands, ok) =>
      if Active(s.pc) && p.cur.sub.CommitTransaction? then CommitStep(s, syncType, lands, ok) else None
    case Abort(reply) =>
      if Active(s.pc) && p.cur.sub.RollbackTransaction? then AbortStep(s, syncType, reply) else None
    case Seal =>
      if s.pc.Applied? then Some(s.(prog := Finish(p), pc := Returned(s.pc.back))) else None
    case Other(done) =>
      if s.pc.Handling? && s.pc.i < |log| && log[s.pc.i].kind.Ddl? && p.cur.sub.Done?
      then Some(s.(pc := if done then Handled(s.pc.i, false) else Idle)) else None
    case FinishHandle =>
      if s.pc.Handled? && s.pc.i < |log| then
        var cur := W.AfterHandle(syncType, p.cur, log[s.pc.i].at);
        var p' := p.(cur := cur);
        Some(s.(prog := if cur.IsDone() then p' else Finish(p'), pc := Idle,
                skipped := if s.pc.irrelevant then s.skipped + {log[s.pc.i].at} else s.skipped))
      else None
    case LeaveForSnapshot =>
      if s.pc.Handled? then Some(s.(pc := Left)) else None
    case Recover =>
      if s.pc.Idle? && !p.cur.IsDone() then
        if p.cur.sub.IsUpsert() then Some(s.(pc := Recovering)) else Some(s.(prog := Rollback(p)))
      else None
    case LateCommit(id) =>
      if id in s.requested && id in s.txns && s.txns[id].status.Prepared?
      then Some(s.(txns := SetStatus(s.txns, id, Committed))) else None
    case Crash =>
      if s.pc.Left? then None else Some(s.(prog := Reload(p), pc := Idle))
  }

  function Run(log: seq<Entry>, syncType: SyncType, s: State, es: seq<Event>): Option<State>
    decreases |es|
  {
    if es == [] then Some(s)
    else
      var s' := Next(log, syncType, s, es[0]);
      if s'.None? then None else Run(log, syncType, s'.value, es[1..])
  }

  // ----- The invariant -----

  predicate Named(r: Row<Data>, t: int) {
    (r.sub.IngestBinlog? || r.sub.CommitTransaction? || r.sub.RollbackTransaction?)
    && r.data.Some? && r.data.value.txnId == t
  }

  /** The memory and the stored row describe the same binlog in the same stage. */
  ghost predicate RowsAgree(p: Prog<Data>) {
    && p.cur.prev == p.db.prev && p.cur.commit == p.db.commit
    && (p.cur.sub.Done? || p.cur.sub.IsUpsert())
    && (p.cur.sub.BeginTransaction? ==> p.db.sub.Done? && p.mem.Some? && p.mem.value.commitSeq == p.cur.commit)
    && (!p.cur.sub.BeginTransaction? ==> p.db.sub == p.cur.sub)
    && (p.cur.sub.IsUpsert() && !p.cur.sub.BeginTransaction? ==>
          p.cur.data.Some? && p.db.data == p.cur.data && (p.mem.Some? ==> p.mem == p.cur.data))
  }

  /** `commit` is either reached or the binlog right after `prev`. */
  ghost predicate OneAhead(log: seq<Entry>, p: Prog<Data>) {
    && (p.cur.commit == p.cur.prev || exists i: nat :: IsNext(log, p.cur.prev, i) && log[i].at == p.cur.commit)
    && (p.cur.sub.IsUpsert() ==> p.cur.commit > p.cur.prev)
    && (p.cur.sub.IsUpsert() ==> forall i :: 0 <= i < |log| && log[i].at == p.cur.commit ==> log[i].kind.Upsert?)
  }

  ghost predicate AtEntry(log: seq<Entry>, p: Prog<Data>, i: nat) {
    IsNext(log, p.cur.prev, i) && log[i].at == p.cur.commit
  }

  ghost predicate PcFits(log: seq<Entry>, s: State, pc: Pc) {
    match pc
    case Handling(i, trigger) => AtEntry(log, s.prog, i) && (trigger ==> s.prog.cur.sub.RollbackTransaction?)
        && (s.prog.cur.sub.RollbackTransaction? ==> trigger)
    case Recovering => s.prog.cur.sub.IsUpsert()
    case Applied(back) =>
      Active(back) && (back.Handling? ==> AtEntry(log, s.prog, back.i)) &&
      exists t :: Named(s.prog.db, t) && t in s.txns && s.txns[t].status.Committed?
    case Handled(i, irrelevant) =>
      i < |log| && s.prog.cur.sub.Done? && log[i].at == s.prog.cur.commit &&
      (if s.prog.cur.commit == s.prog.cur.prev then !irrelevant
       else IsNext(log, s.prog.cur.prev, i) && (irrelevant <==> log[i].kind.Upsert?))
    case Left => s.prog.cur.sub.Done?
    case _ => true
  }

  ghost predicate TxnsFit(s: State) {
    && (forall t :: t in s.txns && s.txns[t].status.Committed? && s.txns[t].at > s.prog.cur.prev ==> Named(s.prog.db, t))
    && (forall t :: t in s.requested ==> t in s.txns && (s.txns[t].status.Prepared? ==> Named(s.prog.db, t)))
    && (forall t :: Named(s.prog.db, t) ==>
          t in s.txns && s.txns[t].at == s.prog.cur.commit && s.prog.db.data.value.commitSeq == s.prog.cur.commit)
  }

  ghost predicate CommittedFor(s: State, t: int, c: Seq) {
    t in s.txns && s.txns[t].status.Committed? && s.txns[t].at == c
  }

  /** The upserts in (start, prev] have been dealt with once each. */
  ghost predicate Settled(log: seq<Entry>, start: Seq, s: State) {
    && (forall i :: 0 <= i < |log| && log[i].kind.Upsert? && start < log[i].at <= s.prog.cur.prev ==>
          (log[i].at in s.skipped <==> !exists t :: CommittedFor(s, t, log[i].at)))
    && (forall t, u, c :: start < c <= s.prog.cur.prev && CommittedFor(s, t, c) && CommittedFor(s, u, c) ==> t == u)
    && (forall c :: c in s.skipped ==> c <= s.prog.cur.prev)
  }

  ghost predicate Inv(log: seq<Entry>, start: Seq, s: State) {
    && RowsAgree(s.prog) && OneAhead(log, s.prog) && PcFits(log, s, s.pc)
    && TxnsFit(s) && Settled(log, start, s) && start <= s.prog.cur.prev
  }

  /** A clean start at `start`: nothing committed after it, no commit in flight.  Earlier phases may
      have left transactions behind. */
  ghost predicate Init(log: seq<Entry>, start: Seq, s: State) {
    && s.pc.Idle? && s.prog.cur.IsDone() && s.prog.db == s.prog.cur && s.prog.cur.prev == start
    && (forall t :: t in s.txns && s.txns[t].status.Committed? ==> s.txns[t].at <= start)
    && (forall t :: t in s.requested ==> t in s.txns && !s.txns[t].status.Prepared?)
    && (forall c :: c in s.skipped ==> c <= start)
  }

  // ----- Every step keeps it -----

  lemma InitInv(log: seq<Entry>, start: Seq, s: State)
    requires Init(log, start, s)
    ensures Inv(log, start, s)
  {
  }

  lemma BeginKeeps(log: seq<Entry>, start: Seq, s: State, id: int, reply: BeginReply)
    requires Inv(log, start, s) && Active(s.pc) && s.prog.cur.sub.BeginTransaction?
    requires BeginStep(s, id, reply).Some?
    ensures Inv(log, start, BeginStep(s, id, reply).value)
  {
    var s' := BeginStep(s, id, reply).value;
    assert forall t, c :: CommittedFor(s', t, c) <==> CommittedFor(s, t, c);
  }

  lemma IngestKeeps(log: seq<Entry>, start: Seq, s: State, reply: IngestReply)
    requires Inv(log, start, s) && Active(s.pc) && s.prog.cur.sub.IngestBinlog?
    requires IngestStep(s, reply).Some?
    ensures Inv(log, start, IngestStep(s, reply).value)
  {
    var s' := IngestStep(s, reply).value;
    assert forall t :: Named(s'.prog.db, t) <==> Named(s.prog.db, t);
    assert forall t, c :: CommittedFor(s', t, c) <==> CommittedFor(s, t, c);
  }

  lemma CommitKeeps(log: seq<Entry>, syncType: SyncType, start: Seq, s: State, lands: bool, ok: bool)
    requires Inv(log, start, s) && Active(s.pc) && s.prog.cur.sub.CommitTransaction?
    requires CommitStep(s, syncType, lands, ok).Some?
    ensures Inv(log, start, CommitStep(s, syncType, lands, ok).value)
  {
    var s' := CommitStep(s, syncType, lands, ok).value;
    var t0 := Payload(s.prog).value.txnId;
    assert Named(s.prog.db, t0);
    assert forall t :: Named(s'.prog.db, t) <==> Named(s.prog.db, t);
    assert forall t, c :: c <= s.prog.cur.prev ==> (CommittedFor(s', t, c) <==> CommittedFor(s, t, c));
  }

  lemma AbortKeeps(log: seq<Entry>, syncType: SyncType, start: Seq, s: State, reply: AbortReply)
    requires Inv(log, start, s) && Active(s.pc) && s.prog.cur.sub.RollbackTransaction?
    requires AbortStep(s, syncType, reply).Some?
    ensures Inv(log, start, AbortStep(s, syncType, reply).value)
  {
    var s' := AbortStep(s, syncType, reply).value;
    var t0 := Payload(s.prog).value.txnId;
    assert Named(s.prog.db, t0);
    assert forall t, c :: c <= s.prog.cur.prev ==> (CommittedFor(s', t, c) <==> CommittedFor(s, t, c));
  }

  /** Sealing moves `prev` over one upsert, whose only committed transaction is the named one. */
  lemma SealKeeps(log: seq<Entry>, syncType: SyncType, start: Seq, s: State)
    requires Ordered(log) && Inv(log, start, s) && s.pc.Applied?
    ensures Inv(log, start, Next(log, syncType, s, Seal).value)
  {
    var s' := Next(log, syncType, s, Seal).value;
    var i: nat :| IsNext(log, s.prog.cur.prev, i) && log[i].at == s.prog.cur.commit;
    NothingBetween(log, s.prog.cur.prev, i);
    var t0 :| Named(s.prog.db, t0) && t0 in s.txns && s.txns[t0].status.Committed?;
    assert CommittedFor(s', t0, s'.prog.cur.prev);
    assert forall t, c :: CommittedFor(s', t, c) <==> CommittedFor(s, t, c);
  }

  lemma FinishKeeps(log: seq<Entry>, syncType: SyncType, start: Seq, s: State)
    requires Ordered(log) && Inv(log, start, s) && s.pc.Handled?
    ensures Inv(log, start, Next(log, syncType, s, FinishHandle).value)
  {
    var s' := Next(log, syncType, s, FinishHandle).value;
    assert forall t, c :: CommittedFor(s', t, c) <==> CommittedFor(s, t, c);
    if s.prog.cur.commit != s.prog.cur.prev {
      NothingBetween(log, s.prog.cur.prev, s.pc.i);
      assert forall t :: !CommittedFor(s, t, s.prog.cur.commit);
    }
  }

  lemma FetchKeeps(log: seq<Entry>, syncType: SyncType, start: Seq, s: State, i: nat)
    requires Ordered(log) && Inv(log, start, s) && Next(log, syncType, s, Fetch(i)).Some?
    ensures Inv(log, start, Next(log, syncType, s, Fetch(i)).value)
  {
    var s' := Next(log, syncType, s, Fetch(i)).value;
    assert forall t, c :: CommittedFor(s', t, c) <==> CommittedFor(s, t, c);
  }

  lemma JudgeKeeps(log: seq<Entry>, syncType: SyncType, start: Seq, s: State, e: Event)
    requires Ordered(log) && Inv(log, start, s)
    requires e.Judge? || e.JudgeFailed? || e.Other? || e.LeaveForSnapshot?
    requires Next(log, syncType, s, e).Some?
    ensures Inv(log, start, Next(log, syncType, s, e).value)
  {
    var s' := Next(log, syncType, s, e).value;
    assert forall t, c :: CommittedFor(s', t, c) <==> CommittedFor(s, t, c);
  }

  lemma RecoverKeeps(log: seq<Entry>, syncType: SyncType, start: Seq, s: State)
    requires Inv(log, start, s) && Next(log, syncType, s, Recover).Some?
    ensures Inv(log, start, Next(log, syncType, s, Recover).value)
  {
    var s' := Next(log, syncType, s, Recover).value;
    assert forall t, c :: CommittedFor(s', t, c) <==> CommittedFor(s, t, c);
  }

  lemma LateCommitKeeps(log: seq<Entry>, syncType: SyncType, start: Seq, s: State, id: int)
    requires Inv(log, start, s) && Next(log, syncType, s, LateCommit(id)).Some?
    ensures Inv(log, start, Next(log, syncType, s, LateCommit(id)).value)
  {
    var s' := Next(log, syncType, s, LateCommit(id)).value;
    assert Named(s.prog.db, id);
    assert forall t, c :: c <= s.prog.cur.prev ==> (CommittedFor(s', t, c) <==> CommittedFor(s, t, c));
  }

  lemma CrashKeeps(log: seq<Entry>, syncType: SyncType, start: Seq, s: State)
    requires Inv(log, start, s) && Next(log, syncType, s, Crash).Some?
    ensures Inv(log, start, Next(log, syncType, s, Crash).value)
  {
    var s' := Next(log, syncType, s, Crash).value;
    assert forall t :: Named(s'.prog.db, t) <==> Named(s.prog.db, t);
    assert forall t, c :: CommittedFor(s', t, c) <==> CommittedFor(s, t, c);
  }

  lemma StepKeeps(log: seq<Entry>, syncType: SyncType, start: Seq, s: State, e: Event)
    requires Ordered(log) && Inv(log, start, s) && Next(log, syncType, s, e).Some?
    ensures Inv(log, start, Next(log, syncType, s, e).value)
  {
    match e
    case Begin(id, reply) => BeginKeeps(log, start, s, id, reply);
    case Ingest(reply) => IngestKeeps(log, start, s, reply);
    case Commit(lands, ok) => CommitKeeps(log, syncType, start, s, lands, ok);
    case Abort(reply) => AbortKeeps(log, syncType, start, s, reply);
    case Seal => SealKeeps(log, syncType, start, s);
    case FinishHandle => FinishKeeps(log, syncType, start, s);
    case Fetch(i) => FetchKeeps(log, syncType, start, s, i);
    case Recover => RecoverKeeps(log, syncType, start, s);
    case LateCommit(id) => LateCommitKeeps(log, syncType, start, s, id);
    case Crash => CrashKeeps(log, syncType, start, s);
    case _ => JudgeKeeps(log, syncType, start, s, e);
  }

  lemma {:induction false} RunKeeps(log: seq<Entry>, syncType: SyncType, start: Seq, s: State, es: seq<Event>)
    requires Ordered(log) && Inv(log, start, s) && Run(log, syncType, s, es).Some?
    ensures Inv(log, start, Run(log, syncType, s, es).value)
    decreases |es|
  {
    if es != [] {
      StepKeeps(log, syncType, start, s, es[0]);
      RunKeeps(log, syncType, start, Next(log, syncType, s, es[0]).value, es[1..]);
    }
  }

  // ----- Exactly once -----

  ghost function CommittedTxns(s: State, c: Seq): set<int> {
    set t | t in s.txns && CommittedFor(s, t, c)
  }

  /** After any run, with any crashes and lost replies: every upsert up to the stored `prev` was
      either judged to touch nothing the destination lacks and has no committed transaction, or
      has exactly one; and a transaction committed beyond it is the one the stored row names. */
  lemma ExactlyOnce(log: seq<Entry>, syncType: SyncType, start: Seq, s: State, es: seq<Event>)
    requires Ordered(log) && Init(log, start, s) && Run(log, syncType, s, es).Some?
    ensures var s' := Run(log, syncType, s, es).value;
      && (forall i :: 0 <= i < |log| && log[i].kind.Upsert? && start < log[i].at <= s'.prog.db.prev ==>
            |CommittedTxns(s', log[i].at)| == if log[i].at in s'.skipped then 0 else 1)
      && (forall t :: t in s'.txns && s'.txns[t].status.Committed? && s'.txns[t].at > s'.prog.db.prev ==>
            Named(s'.prog.db, t) && s'.txns[t].at == s'.prog.db.commit)
  {
    InitInv(log, start, s);
    RunKeeps(log, syncType, start, s, es);
    var s' := Run(log, syncType, s, es).value;
    forall i | 0 <= i < |log| && log[i].kind.Upsert? && start < log[i].at <= s'.prog.db.prev
      ensures |CommittedTxns(s', log[i].at)| == if log[i].at in s'.skipped then 0 else 1
    {
      var c := log[i].at;
      if c in s'.skipped {
        assert CommittedTxns(s', c) == {};
      } else {
        var t :| CommittedFor(s', t, c);
        assert CommittedTxns(s', c) == {t};
      }
    }
  }

  // ----- Over all phases -----

  /** Replay resumes after a snapshot took over: from a fresh row at or after the done position, with
      the transactions as they were left. */
  ghost predicate Resumes(left: State, s: State) {
    && s.pc.Idle? && s.prog.cur.IsDone() && s.prog.db == s.prog.cur && s.prog.cur.prev >= left.prog.cur.prev
    && s.txns == left.txns && s.requested == left.requested && s.skipped == left.skipped
  }

  /** A phase of replay that a snapshot ended, and the start of the next one. */
  datatype Phase = Phase(es: seq<Event>, next: State)

  ghost predicate EndsPhase(log: seq<Entry>, syncType: SyncType, s: State, ph: Phase) {
    var left := Run(log, syncType, s, ph.es);
    left.Some? && left.value.pc.Left? && Resumes(left.value, ph.next)
  }

  ghost predicate Lives(log: seq<Entry>, syncType: SyncType, s: State, phases: seq<Phase>)
    decreases |phases|
  {
    phases == [] || (EndsPhase(log, syncType, s, phases[0]) && Lives(log, syncType, phases[0].next, phases[1..]))
  }

  function LastStart(s: State, phases: seq<Phase>): State {
    if phases == [] then s else phases[|phases| - 1].next
  }

  /** A snapshot, not replay, brought `c` to the destination. */
  ghost predicate FromSnapshot(log: seq<Entry>, syncType: SyncType, s: State, phases: seq<Phase>, c: Seq)
    requires Lives(log, syncType, s, phases)
    decreases |phases|
  {
    phases != []
    && var next := phases[0].next;
      || Run(log, syncType, s, phases[0].es).value.prog.cur.prev < c <= next.prog.cur.prev
      || FromSnapshot(log, syncType, next, phases[1..], c)
  }

  /** Every phase hands the next one a start that all these results hold from. */
  lemma {:induction false} PhasesChain(log: seq<Entry>, syncType: SyncType, start: Seq, s: State, ph: Phase)
    requires Ordered(log) && Init(log, start, s) && EndsPhase(log, syncType, s, ph)
    ensures Init(log, ph.next.prog.cur.prev, ph.next) && ph.next.prog.cur.prev >= start
  {
    InitInv(log, start, s);
    RunKeeps(log, syncType, start, s, ph.es);
    var left := Run(log, syncType, s, ph.es).value;
    assert forall t :: !Named(left.prog.db, t);
  }

  /** What was settled stays as it is. */
  ghost predicate SamePast(upto: Seq, s: State, s': State) {
    && (forall t, c :: c <= upto ==> (CommittedFor(s, t, c) <==> CommittedFor(s', t, c)))
    && (forall c :: c <= upto ==> (c in s.skipped <==> c in s'.skipped))
  }

  lemma StepKeepsPast(log: seq<Entry>, syncType: SyncType, start: Seq, s: State, e: Event)
    requires Ordered(log) && Inv(log, start, s) && Next(log, syncType, s, e).Some?
    ensures SamePast(s.prog.cur.prev, s, Next(log, syncType, s, e).value)
    ensures s.prog.cur.prev <= Next(log, syncType, s, e).value.prog.cur.prev
  {
    var s' := Next(log, syncType, s, e).value;
    if e.Commit? || e.Abort? {
      var t0 := Payload(s.prog).value.txnId;
      assert Named(s.prog.db, t0);
    } else if e.LateCommit? {
      assert Named(s.prog.db, e.id);
    }
  }

  lemma {:induction false} RunKeepsPast(log: seq<Entry>, syncType: SyncType, start: Seq, s: State, es: seq<Event>)
    requires Ordered(log) && Inv(log, start, s) && Run(log, syncType, s, es).Some?
    ensures SamePast(s.prog.cur.prev, s, Run(log, syncType, s, es).value)
    ensures s.prog.cur.prev <= Run(log, syncType, s, es).value.prog.cur.prev
    decreases |es|
  {
    if es != [] {
      StepKeeps(log, syncType, start, s, es[0]);
      StepKeepsPast(log, syncType, start, s, es[0]);
      RunKeepsPast(log, syncType, start, Next(log, syncType, s, es[0]).value, es[1..]);
    }
  }

  /** Over the whole life of a job, with any number of snapshots taking over from replay in between:
      an upsert up to the stored `prev` has no committed transaction if it was judged to touch nothing
      or came with a snapshot, and exactly one otherwise. */
  lemma {:induction false} ExactlyOnceForLife(log: seq<Entry>, syncType: SyncType, start: Seq, s: State,
                                              phases: seq<Phase>, es: seq<Event>)
    requires Ordered(log) && Init(log, start, s) && Lives(log, syncType, s, phases)
    requires Run(log, syncType, LastStart(s, phases), es).Some?
    ensures var s' := Run(log, syncType, LastStart(s, phases), es).value;
      && SamePast(start, s, s') && start <= s'.prog.db.prev
      && forall i :: 0 <= i < |log| && log[i].kind.Upsert? && start < log[i].at <= s'.prog.db.prev ==>
           |CommittedTxns(s', log[i].at)| ==
             if log[i].at in s'.skipped || FromSnapshot(log, syncType, s, phases, log[i].at) then 0 else 1
    decreases |phases|
  {
    InitInv(log, start, s);
    if phases == [] {
      ExactlyOnce(log, syncType, start, s, es);
      RunKeeps(log, syncType, start, s, es);
      RunKeepsPast(log, syncType, start, s, es);
    } else {
      var ph, rest := phases[0], phases[1..];
      var left, next := Run(log, syncType, s, ph.es).value, ph.next;
      PhasesChain(log, syncType, start, s, ph);
      RunKeeps(log, syncType, start, s, ph.es);
      RunKeepsPast(log, syncType, start, s, ph.es);
      ExactlyOnce(log, syncType, start, s, ph.es);
      assert LastStart(next, rest) == LastStart(s, phases);
      ExactlyOnceForLife(log, syncType, next.prog.cur.prev, next, rest, es);
      var s' := Run(log, syncType, LastStart(s, phases), es).value;
      forall i | 0 <= i < |log| && log[i].kind.Upsert? && start < log[i].at <= next.prog.cur.prev
        ensures |CommittedTxns(s', log[i].at)| ==
             if log[i].at in s'.skipped || FromSnapshot(log, syncType, s, phases, log[i].at) then 0 else 1
      {
        var c := log[i].at;
        JumpsAreLater(log, syncType, next.prog.cur.prev, next, rest, c);
        assert CommittedTxns(s', c) == CommittedTxns(next, c) == CommittedTxns(left, c);
        if c > left.prog.cur.prev {
          assert CommittedTxns(left, c) == {};
        }
      }
    }
  }

  lemma {:induction false} JumpsAreLater(log: seq<Entry>, syncType: SyncType, start: Seq, s: State, phases: seq<Phase>, c: Seq)
    requires Ordered(log) && Init(log, start, s) && Lives(log, syncType, s, phases) && c <= start
    ensures !FromSnapshot(log, syncType, s, phases, c)
    decreases |phases|
  {
    if phases != [] {
      InitInv(log, start, s);
      RunKeeps(log, syncType, start, s, phases[0].es);
      PhasesChain(log, syncType, start, s, phases[0]);
      JumpsAreLater(log, syncType, phases[0].next.prog.cur.prev, phases[0].next, phases[1..], c);
    }
  }

  /** No step of the source reaches a missing payload: whenever the upsert machine is running,
      the payload its sub state needs is there and names a transaction the destination knows. */
  lemma PayloadIsThere(log: seq<Entry>, syncType: SyncType, start: Seq, s: State, es: seq<Event>)
    requires Ordered(log) && Init(log, start, s) && Run(log, syncType, s, es).Some?
    ensures var s' := Run(log, syncType, s, es).value;
      && (s'.prog.cur.sub.BeginTransaction? ==> s'.prog.mem.Some?)
      && (s'.prog.cur.sub.IsUpsert() && !s'.prog.cur.sub.BeginTransaction? ==>
            Payload(s'.prog).Some? && Payload(s'.prog).value.txnId in s'.txns
            && Payload(s'.prog).value.commitSeq == s'.prog.cur.commit)
  {
    InitInv(log, start, s);
    RunKeeps(log, syncType, start, s, es);
    var s' := Run(log, syncType, s, es).value;
    if s'.prog.cur.sub.IsUpsert() && !s'.prog.cur.sub.BeginTransaction? {
      assert Named(s'.prog.db, s'.prog.db.data.value.txnId);
    }
  }
}
