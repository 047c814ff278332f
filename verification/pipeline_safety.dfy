/** What every run of the pipelined replay keeps, across crashes, resets and lost replies. */
module PipelineSafety {
  import opened Wrappers
  import opened Progress
  import opened Binlogs
  import opened TxnLinks
  import opened Pipeline
  import L = TxnLinks
  import M = Pipeline
  import U = UpsertReplay
  import W = Watermarks

  // ----- What the destination holds -----

  ghost function CommittedSeqs(w: World): set<Seq> {
    set id | id in w.txns && w.txns[id].status.Committed? :: w.txns[id].at
  }

  /** An upsert is settled once a transaction for it is committed, or it was found irrelevant. */
  ghost predicate Settled(w: World, c: Seq) { c in w.judged || c in CommittedSeqs(w) }

  ghost predicate SafeUpto(log: seq<Entry>, w: World, c: Seq) {
    forall k :: 0 <= k < |log| && log[k].kind.Upsert? && log[k].at <= c ==> Settled(w, log[k].at)
  }

  ghost predicate SafeBelow(log: seq<Entry>, w: World, c: Seq) {
    forall k :: 0 <= k < |log| && log[k].kind.Upsert? && log[k].at < c ==> Settled(w, log[k].at)
  }

  ghost predicate WorldOk(w: World) {
    && (forall id :: id in w.requested ==> id in w.txns)
    && (forall id :: id in w.txns && w.txns[id].status.Committed? ==> id in w.requested)
  }

  /** A list of launched transactions as kept in memory or in the store: in log order, no upsert
      before the first is open, and only the first can have been asked to commit. */
  ghost predicate PayloadOk(log: seq<Entry>, w: World, l: seq<TxnContext>) {
    && (forall i, j :: 0 <= i < j < |l| ==> l[i].commitSeq < l[j].commitSeq && l[i].txnId != l[j].txnId)
    && (forall i :: 0 <= i < |l| ==> l[i].txnId in w.txns && w.txns[l[i].txnId].at == l[i].commitSeq)
    && (forall i :: 0 < i < |l| ==> l[i].txnId !in w.requested)
    && (|l| > 0 ==> SafeBelow(log, w, l[0].commitSeq))
  }

  ghost predicate DataOk(log: seq<Entry>, w: World, d: Option<Data>) {
    d.Some? ==> PayloadOk(log, w, d.value.running)
  }

  /** No transaction was ever begun for an upsert behind a non-upsert that is not handled yet. */
  ghost predicate Barrier(log: seq<Entry>, w: World, prev: Seq) {
    forall id, k :: id in w.txns && 0 <= k < |log| && log[k].kind.Ddl? && log[k].at < w.txns[id].at ==> log[k].at <= prev
  }

  // ----- The context -----

  /** The queue is the stretch of the log that starts at index `lo` and ends at the fetch position. */
  ghost predicate QueueOk(log: seq<Entry>, c: Ctx, prev: Seq, idle: bool, lo: nat) {
    && lo + |c.queue| <= |log| && c.queue == log[lo..lo + |c.queue|]
    && (forall k :: 0 <= k < |log| ==> (log[k].at <= c.next <==> k < lo + |c.queue|))
    && (|c.queue| > 0 ==> prev <= c.queue[0].at && (!idle ==> prev < c.queue[0].at))
    && prev <= c.next
  }

  ghost predicate InList(l: seq<TxnContext>, c: Seq) { exists i :: 0 <= i < |l| && l[i].commitSeq == c }

  /** A binlog taken off the queue is handled, settled or being ingested. */
  ghost predicate Accounted(w: World, prev: Seq, running: seq<TxnContext>, e: Entry) {
    if e.kind.Ddl? then e.at <= prev else Settled(w, e.at) || InList(running, e.at)
  }

  ghost predicate Covers(log: seq<Entry>, w: World, prev: Seq, running: seq<TxnContext>, lo: nat) {
    forall k :: 0 <= k < lo && k < |log| ==> Accounted(w, prev, running, log[k])
  }

  /** The order P < running < queued, with nothing beyond the fetch position. */
  ghost predicate RunningOk(c: Ctx, prev: Seq, running: seq<TxnContext>, max: nat) {
    && |running| <= max
    && (forall i :: 0 <= i < |running| ==> prev < running[i].commitSeq <= c.next)
    && (|c.queue| > 0 ==> forall i :: 0 <= i < |running| ==> running[i].commitSeq < c.queue[0].at)
  }

  /** The running list is what the chain has launched and not yet handed over; all before it are
      committed.  `pending` results were taken for transactions still in the list. */
  ghost predicate ChainOk(w: World, c: Chain, running: seq<TxnContext>, pending: nat) {
    && Linked(c) && WellFormed(c) && |running| <= |c.txns|
    && var done := |c.txns| - |running|;
    && c.txns[done..] == running
    && |c.taken| == done + pending
    && (forall i :: 0 <= i < done ==> c.txns[i].txnId in w.txns && w.txns[c.txns[i].txnId].status.Committed?)
  }

  predicate AsksForSnapshot(p: Phase) { (p.Waiting? || p.Holding?) && p.outcome.Triggered? }

  /** Nobody in the chain has asked for a partial snapshot. */
  ghost predicate Untriggered(c: Chain) {
    && (forall i :: 0 <= i < |c.phases| ==> !AsksForSnapshot(c.phases[i]))
    && (forall j :: 0 <= j < |c.ch| ==> !c.ch[j].outcome.Triggered?)
  }

  predicate PipelineSub(sub: SubState) {
    sub.LaunchTransaction? || sub.CommitPipeline? || sub.CommitPipelineTransaction?
  }

  predicate Sub(sub: SubState) { sub.Done? || sub.RollbackPipeline? || PipelineSub(sub) }

  function Running(s: State): seq<TxnContext> {
    if PipelineSub(s.prog.cur.sub) && s.prog.mem.Some? then s.prog.mem.value.running else []
  }

  function Pending(s: State): nat { if s.prog.cur.sub.CommitPipelineTransaction? && !s.pc.Sealing? then 1 else 0 }

  /** The context will still be used to launch; otherwise a snapshot is due and it is dropped. */
  predicate Live(s: State) {
    s.ctx.Some? && !s.prog.cur.sub.RollbackPipeline? && !(s.prog.cur.sub.Done? && s.trigger)
  }

  ghost predicate ContextOk(cfg: Config, s: State, lo: nat)
    requires s.ctx.Some?
  {
    var c, prev := s.ctx.value, s.prog.cur.prev;
    && QueueOk(cfg.log, c, prev, s.pc.Idle?, lo)
    && Covers(cfg.log, s.w, prev, Running(s), lo)
    && RunningOk(c, prev, Running(s), cfg.max)
    && ChainOk(s.w, c.chain, Running(s), Pending(s)) && (Untriggered(c.chain) || s.trigger)
    && (PipelineSub(s.prog.cur.sub) ==> s.prog.mem.Some? && (s.pc.Sealing? || s.prog.cur.commit == prev))
    && (s.prog.cur.sub.LaunchTransaction? ==> |Running(s)| < cfg.max)
    && (s.prog.cur.sub.CommitPipelineTransaction? && !s.pc.Sealing? ==>
          && |Running(s)| > 0 && s.prog.mem.value.commitable == Some(Running(s)[0])
          && s.prog.cur.data == s.prog.mem && s.prog.db.data == s.prog.mem && s.prog.db.sub.CommitPipelineTransaction?)
    && (s.pc.Handling? ==> s.prog.cur.sub.Done? && c.HasNonUpsert() && s.prog.cur.commit == c.queue[0].at)
    && (s.pc.Sealing? ==> SealingOk(c, prev, s.prog.cur.commit, Running(s)))
  }

  /** The committed position lies between the done position and all that is still to come. */
  ghost predicate SealingOk(c: Ctx, prev: Seq, commit: Seq, running: seq<TxnContext>) {
    && prev < commit <= c.next
    && (forall i :: 0 <= i < |running| ==> commit < running[i].commitSeq)
    && (|c.queue| > 0 ==> commit < c.queue[0].at)
  }

  ghost predicate PcOk(s: State) {
    match s.pc
    case Idle => true
    case Loop => s.ctx.None? ==> s.prog.cur.sub.Done? || s.prog.cur.sub.RollbackPipeline?
    case Handling => Live(s)
    case Sealing => Live(s) && s.prog.cur.sub.CommitPipelineTransaction?
    case Rolling(i) => s.prog.cur.sub.RollbackPipeline? && s.prog.mem.Some? && i <= |s.prog.mem.value.running|
    case Left => true
    case Fault => false
  }

  ghost predicate ProgOk(log: seq<Entry>, w: World, p: Prog<Data>) {
    && Sub(p.cur.sub) && Sub(p.db.sub) && p.cur.prev == p.db.prev
    && SafeUpto(log, w, p.cur.prev) && SafeUpto(log, w, p.cur.commit) && SafeUpto(log, w, p.db.commit)
    && DataOk(log, w, p.mem) && DataOk(log, w, p.cur.data) && DataOk(log, w, p.db.data)
  }

  ghost predicate Inv(cfg: Config, s: State) {
    && cfg.max >= 1 && Ordered(cfg.log)
    && WorldOk(s.w) && Barrier(cfg.log, s.w, s.prog.cur.prev)
    && ProgOk(cfg.log, s.w, s.prog)
    && PcOk(s)
    && (s.ctx.Some? && !Live(s) && !s.pc.Left? ==> s.trigger)
    && (Live(s) && !s.pc.Left? ==> exists lo: nat :: ContextOk(cfg, s, lo))
  }

  // ----- Changes of the world -----

  ghost predicate Later(w: World, v: World) {
    forall c :: Settled(w, c) ==> Settled(v, c)
  }

  lemma SafeLater(log: seq<Entry>, w: World, v: World, c: Seq)
    requires Later(w, v)
    ensures SafeUpto(log, w, c) ==> SafeUpto(log, v, c)
    ensures SafeBelow(log, w, c) ==> SafeBelow(log, v, c)
  {
  }

  /** Nothing in the list was touched except possibly its first transaction. */
  ghost predicate Spares(w: World, v: World, l: seq<TxnContext>) {
    && Later(w, v)
    && (forall i :: 0 <= i < |l| && l[i].txnId in w.txns ==> l[i].txnId in v.txns && v.txns[l[i].txnId].at == w.txns[l[i].txnId].at)
    && (forall i :: 0 < i < |l| && l[i].txnId !in w.requested ==> l[i].txnId !in v.requested)
  }

  lemma PayloadLater(log: seq<Entry>, w: World, v: World, l: seq<TxnContext>)
    requires PayloadOk(log, w, l) && Spares(w, v, l)
    ensures PayloadOk(log, v, l)
  {
    if |l| > 0 {
      SafeLater(log, w, v, l[0].commitSeq);
    }
  }

  ghost predicate SparesAll(w: World, v: World, p: Prog<Data>) {
    && (p.mem.Some? ==> Spares(w, v, p.mem.value.running))
    && (p.cur.data.Some? ==> Spares(w, v, p.cur.data.value.running))
    && (p.db.data.Some? ==> Spares(w, v, p.db.data.value.running))
    && Later(w, v)
  }

  lemma ProgLater(log: seq<Entry>, w: World, v: World, p: Prog<Data>)
    requires ProgOk(log, w, p) && SparesAll(w, v, p)
    ensures ProgOk(log, v, p)
  {
    SafeLater(log, w, v, p.cur.prev);
    SafeLater(log, w, v, p.cur.commit);
    SafeLater(log, w, v, p.db.commit);
    if p.mem.Some? { PayloadLater(log, w, v, p.mem.value.running); }
    if p.cur.data.Some? { PayloadLater(log, w, v, p.cur.data.value.running); }
    if p.db.data.Some? { PayloadLater(log, w, v, p.db.data.value.running); }
  }

  lemma CoversLater(log: seq<Entry>, w: World, v: World, prev: Seq, prev': Seq,
                    running: seq<TxnContext>, running': seq<TxnContext>, lo: nat)
    requires Covers(log, w, prev, running, lo) && Later(w, v) && prev <= prev' && running <= running'
    ensures Covers(log, v, prev', running', lo)
  {
    forall k | 0 <= k < lo && k < |log| ensures Accounted(v, prev', running', log[k]) {
      assert Accounted(w, prev, running, log[k]);
      if InList(running, log[k].at) {
        var i :| 0 <= i < |running| && running[i].commitSeq == log[k].at;
        assert running'[i].commitSeq == log[k].at;
      }
    }
  }

  /** Beginning, deciding and judging only ever settle more. */
  lemma DecideLater(w: World, t: int, status: U.Status)
    requires t in w.txns ==> !w.txns[t].status.Committed? || status.Committed?
    ensures Later(w, Decide(w, t, status))
  {
    var v := Decide(w, t, status);
    forall c | c in CommittedSeqs(w) ensures c in CommittedSeqs(v) {
      var id :| id in w.txns && w.txns[id].status.Committed? && w.txns[id].at == c;
      assert v.txns[id].status.Committed? && v.txns[id].at == c;
    }
  }

  lemma BeginLater(w: World, id: int, at: Seq)
    requires id !in w.txns
    ensures Later(w, w.(txns := w.txns[id := U.Txn(at, U.Prepared)]))
  {
    var v := w.(txns := w.txns[id := U.Txn(at, U.Prepared)]);
    forall c | c in CommittedSeqs(w) ensures c in CommittedSeqs(v) {
      var x :| x in w.txns && w.txns[x].status.Committed? && w.txns[x].at == c;
      assert v.txns[x].status.Committed? && v.txns[x].at == c;
    }
  }

  ghost predicate KeepsCommitted(w: World, v: World) {
    forall id :: id in w.txns && w.txns[id].status.Committed? ==> id in v.txns && v.txns[id].status.Committed?
  }

  lemma ContextLater(cfg: Config, s: State, v: World, lo: nat)
    requires s.ctx.Some? && ContextOk(cfg, s, lo) && Later(s.w, v) && KeepsCommitted(s.w, v)
    ensures ContextOk(cfg, s.(w := v), lo)
  {
    CoversLater(cfg.log, s.w, v, s.prog.cur.prev, s.prog.cur.prev, Running(s), Running(s), lo);
  }

  // ----- One lemma per kind of step -----

  lemma LateCommitKeeps(cfg: Config, s: State, id: int)
    requires Inv(cfg, s) && id in s.w.requested && id in s.w.txns && s.w.txns[id].status.Prepared?
    ensures Inv(cfg, s.(w := Decide(s.w, id, U.Committed)))
  {
    var v := Decide(s.w, id, U.Committed);
    DecideLater(s.w, id, U.Committed);
    ProgLater(cfg.log, s.w, v, s.prog);
    if Live(s) && !s.pc.Left? {
      var lo: nat :| ContextOk(cfg, s, lo);
      ContextLater(cfg, s, v, lo);
    }
  }

  lemma ChainStepKeeps(w: World, c: Chain, running: seq<TxnContext>, pending: nat, step: L.Event)
    requires ChainOk(w, c, running, pending) && ByGoroutine(step) && L.Enabled(c, step)
    ensures ChainOk(w, L.Next(c, step), running, pending)
  {
    StepKeepsLinked(c, step);
  }

  lemma UntriggeredStep(c: Chain, step: L.Event)
    requires Untriggered(c) && L.Enabled(c, step) && (ByGoroutine(step) || step.Take? || (step.Launch? && !step.triggered))
    ensures Untriggered(L.Next(c, step))
  {
  }

  lemma ChainMoves(cfg: Config, s: State, c': Chain, lo: nat)
    requires s.ctx.Some? && ContextOk(cfg, s, lo) && ChainOk(s.w, c', Running(s), Pending(s))
    requires Untriggered(s.ctx.value.chain) ==> Untriggered(c')
    ensures ContextOk(cfg, s.(ctx := Some(s.ctx.value.(chain := c'))), lo)
  {
  }

  lemma {:induction false} GoroutineKeeps(cfg: Config, s: State, step: L.Event)
    requires Inv(cfg, s) && s.ctx.Some? && ByGoroutine(step) && L.Enabled(s.ctx.value.chain, step)
    ensures Inv(cfg, s.(ctx := Some(s.ctx.value.(chain := L.Next(s.ctx.value.chain, step)))))
  {
    var c' := L.Next(s.ctx.value.chain, step);
    if Live(s) && !s.pc.Left? {
      var lo: nat :| ContextOk(cfg, s, lo);
      ChainStepKeeps(s.w, s.ctx.value.chain, Running(s), Pending(s), step);
      if Untriggered(s.ctx.value.chain) {
        UntriggeredStep(s.ctx.value.chain, step);
      }
      ChainMoves(cfg, s, c', lo);
    }
  }

  /** The queue without its head, which is accounted for otherwise. */
  lemma DropHead(log: seq<Entry>, w: World, c: Ctx, prev: Seq, prev': Seq, idle: bool, lo: nat,
                 running: seq<TxnContext>, running': seq<TxnContext>)
    requires QueueOk(log, c, prev, idle, lo) && Covers(log, w, prev, running, lo) && c.queue != [] && Ordered(log)
    requires prev <= prev' <= c.queue[0].at && running <= running'
    requires Accounted(w, prev', running', c.queue[0])
    ensures QueueOk(log, c.(queue := c.queue[1..]), prev', false, lo + 1) && Covers(log, w, prev', running', lo + 1)
  {
    CoversLater(log, w, w, prev, prev', running, running', lo);
    assert c.queue[0] == log[lo];
    assert c.queue[1..] == log[lo + 1..lo + |c.queue|];
    assert |c.queue| > 1 ==> c.queue[1..][0] == log[lo + 1];
  }

  lemma ResumeDrops(cfg: Config, s: State, lo: nat)
    requires s.pc.Idle? && s.ctx.Some? && Ordered(cfg.log) && ContextOk(cfg, s, lo)
    requires s.ctx.value.queue != [] && s.ctx.value.queue[0].at <= s.prog.cur.prev && SafeUpto(cfg.log, s.w, s.prog.cur.prev)
    ensures ContextOk(cfg, Resume(s), lo + 1)
  {
    var c, prev := s.ctx.value, s.prog.cur.prev;
    assert c.queue[0] == cfg.log[lo];
    DropHead(cfg.log, s.w, c, prev, prev, true, lo, Running(s), Running(s));
    assert DropStale(c.queue, prev) == c.queue[1..];
  }

  lemma ResumeKeeps(cfg: Config, s: State)
    requires Inv(cfg, s) && s.pc.Idle? && s.ctx.Some?
    ensures Inv(cfg, Resume(s))
  {
    if Live(s) {
      var lo: nat :| ContextOk(cfg, s, lo);
      var c, prev := s.ctx.value, s.prog.cur.prev;
      if c.queue != [] && c.queue[0].at <= prev {
        ResumeDrops(cfg, s, lo);
      } else {
        assert DropStale(c.queue, prev) == c.queue;
        assert ContextOk(cfg, Resume(s), lo);
      }
    }
  }

  lemma LoadedOk(log: seq<Entry>, w: World, p: Prog<Data>)
    requires ProgOk(log, w, p)
    ensures var p' := p.(mem := Some(Payload(p)));
      ProgOk(log, w, p') && ProgOk(log, w, NextSubCheckpoint(p', RollbackPipeline, p'.mem))
  {
  }

  lemma ReloadedKeeps(cfg: Config, s: State)
    requires Inv(cfg, s) && s.pc.Idle? && s.ctx.None?
    ensures Inv(cfg, EnterStep(s))
  {
    var p := s.prog;
    var p' := p.(mem := Some(Payload(p)));
    LoadedOk(cfg.log, s.w, p);
    assert EnterStep(s) == Resume(s.(prog :=
      if p.cur.sub.Done? then p
      else if p.cur.sub.RollbackPipeline? then p'
      else NextSubCheckpoint(p', RollbackPipeline, p'.mem)));
  }

  lemma EnterKeeps(cfg: Config, s: State)
    requires Inv(cfg, s) && s.pc.Idle?
    ensures Inv(cfg, EnterStep(s))
  {
    if s.ctx.Some? {
      ResumeKeeps(cfg, s);
    } else {
      ReloadedKeeps(cfg, s);
    }
  }

  /** Where in the log a position falls. */
  lemma {:induction false} Position(log: seq<Entry>, c: Seq) returns (lo: nat)
    requires Ordered(log)
    ensures lo <= |log| && forall k :: 0 <= k < |log| ==> (log[k].at <= c <==> k < lo)
  {
    lo := 0;
    while lo < |log| && log[lo].at <= c
      invariant lo <= |log| && forall k :: 0 <= k < lo ==> log[k].at <= c
    {
      lo := lo + 1;
    }
  }

  lemma OpenedAgain(cfg: Config, s: State, lo: nat)
    requires s.ctx.Some? && ContextOk(cfg, s, lo)
    ensures ContextOk(cfg, Initialized(s), lo)
  {
  }

  lemma NewContext(cfg: Config, s: State) returns (lo: nat)
    requires s.ctx.None? && s.pc.Loop? && s.prog.cur.IsDone() && Ordered(cfg.log) && SafeUpto(cfg.log, s.w, s.prog.cur.prev)
    ensures ContextOk(cfg, Initialized(s), lo)
  {
    lo := Position(cfg.log, s.prog.cur.commit);
    assert TokenAt(Fresh, 0);
    forall k | 0 <= k < lo ensures Accounted(s.w, s.prog.cur.prev, [], cfg.log[k]) {}
  }

  lemma InitializedOk(cfg: Config, s: State) returns (lo: nat)
    requires Inv(cfg, s) && s.pc.Loop? && s.prog.cur.sub.Done? && !s.trigger && s.prog.cur.IsDone()
    ensures ContextOk(cfg, Initialized(s), lo)
  {
    if s.ctx.Some? {
      lo :| ContextOk(cfg, s, lo);
      OpenedAgain(cfg, s, lo);
    } else {
      lo := NewContext(cfg, s);
    }
  }

  /** With nothing running, everything before a non-upsert at the head of the queue is settled. */
  lemma {:induction false} HeadIsSafe(log: seq<Entry>, w: World, c: Ctx, prev: Seq, lo: nat)
    requires Ordered(log) && QueueOk(log, c, prev, false, lo) && Covers(log, w, prev, [], lo) && c.HasNonUpsert()
    ensures SafeUpto(log, w, c.queue[0].at)
  {
    assert c.queue[0] == log[lo];
    forall k | 0 <= k < |log| && log[k].kind.Upsert? && log[k].at <= c.queue[0].at ensures Settled(w, log[k].at) {
      assert Accounted(w, prev, [], log[k]);
    }
  }

  lemma DoneLeaves(cfg: Config, s: State)
    requires Inv(cfg, s) && s.pc.Loop? && s.prog.cur.sub.Done?
    ensures Inv(cfg, Reset(Initialized(s)).(pc := Left))
    ensures Inv(cfg, Reset(Initialized(s)).(prog := Rollback(s.prog)))
  {
  }

  lemma DoneHandles(cfg: Config, s: State, lo: nat)
    requires Inv(cfg, s) && s.ctx.Some? && ContextOk(cfg, s, lo) && s.pc.Loop? && s.prog.cur.sub.Done? && !s.trigger
    requires s.ctx.value.HasNonUpsert()
    ensures Inv(cfg, s.(prog := StartHandle(s.prog, s.ctx.value.queue[0].at), pc := Handling))
  {
    HeadIsSafe(cfg.log, s.w, s.ctx.value, s.prog.cur.prev, lo);
    assert ContextOk(cfg, s.(prog := StartHandle(s.prog, s.ctx.value.queue[0].at), pc := Handling), lo);
  }

  lemma DoneLaunches(cfg: Config, s: State, lo: nat)
    requires Inv(cfg, s) && s.ctx.Some? && ContextOk(cfg, s, lo) && s.pc.Loop? && s.prog.cur.IsDone() && !s.trigger
    ensures Inv(cfg, s.(prog := NextSubVolatile(s.prog, LaunchTransaction, Some(NoTxns))))
    ensures Inv(cfg, s.(pc := Idle))
  {
    assert ContextOk(cfg, s.(prog := NextSubVolatile(s.prog, LaunchTransaction, Some(NoTxns))), lo);
    assert ContextOk(cfg, s.(pc := Idle), lo);
  }

  lemma InitializedInv(cfg: Config, s: State, lo: nat)
    requires Inv(cfg, s) && s.pc.Loop? && s.prog.cur.sub.Done? && !s.trigger && ContextOk(cfg, Initialized(s), lo)
    ensures Inv(cfg, Initialized(s))
  {
  }

  lemma DoneKeeps(cfg: Config, s: State, skip: SkipReply)
    requires Inv(cfg, s) && s.pc.Loop? && s.prog.cur.sub.Done?
    ensures Inv(cfg, DoneStep(s, skip))
  {
    if s.trigger || !s.prog.cur.IsDone() || skip.SkipExit? {
      DoneLeaves(cfg, s);
    } else {
      var lo := InitializedOk(cfg, s);
      var s1 := Initialized(s);
      InitializedInv(cfg, s, lo);
      if skip.NoSkip? && s1.ctx.value.HasNonUpsert() {
        DoneHandles(cfg, s1, lo);
      } else {
        DoneLaunches(cfg, s1, lo);
      }
    }
  }

  lemma HandledContext(cfg: Config, s: State, locked: bool, lo: nat)
    requires s.ctx.Some? && ContextOk(cfg, s, lo) && s.pc.Handling? && Ordered(cfg.log)
    ensures ContextOk(cfg, HandleStep(cfg, s, Handled(locked)), if locked then lo + 1 else lo)
  {
    var c, prev := s.ctx.value, s.prog.cur.prev;
    DropHead(cfg.log, s.w, c, prev, c.queue[0].at, false, lo, [], []);
    CoversLater(cfg.log, s.w, s.w, prev, c.queue[0].at, [], [], lo);
  }

  lemma HandledOk(cfg: Config, w: World, p: Prog<Data>, c: Seq)
    requires ProgOk(cfg.log, w, p)
    ensures ProgOk(cfg.log, w, Finish(p.(cur := W.AfterHandle(cfg.syncType, p.cur, c))))
  {
  }

  lemma HandleEndKeeps(cfg: Config, s: State, r: HandleReply)
    requires Inv(cfg, s) && s.pc.Handling?
    ensures Inv(cfg, HandleStep(cfg, s, r))
  {
    var lo: nat :| ContextOk(cfg, s, lo);
    if r.Handled? {
      HandledContext(cfg, s, r.locked, lo);
      HandledOk(cfg, s.w, s.prog, s.ctx.value.queue[0].at);
      BarrierMore(cfg.log, s.w, s.prog.cur.prev, s.ctx.value.queue[0].at);
    } else if r.HandleFailed? {
      assert ContextOk(cfg, s.(pc := Idle), lo);
    }
  }

  lemma BarrierMore(log: seq<Entry>, w: World, prev: Seq, prev': Seq)
    requires Barrier(log, w, prev) && prev <= prev'
    ensures Barrier(log, w, prev')
  {
  }

  lemma CrashKeeps(cfg: Config, s: State, keep: bool)
    requires Inv(cfg, s)
    ensures Inv(cfg, s.(prog := Reload(s.prog), ctx := None, pc := Idle, trigger := s.trigger && keep))
  {
  }

  lemma RollbackStartKeeps(cfg: Config, s: State)
    requires Inv(cfg, s) && s.pc.Loop? && s.prog.cur.sub.RollbackPipeline?
    ensures Inv(cfg, s.(prog := s.prog.(mem := Some(Payload(s.prog))), pc := Rolling(0)))
  {
  }

  lemma RollbackEndKeeps(cfg: Config, s: State)
    requires Inv(cfg, s) && s.pc.Rolling?
    ensures Inv(cfg, s.(prog := NextSubCheckpoint(s.prog, Done, None), pc := Loop))
  {
  }

  lemma AbortKeeps(cfg: Config, s: State, t: TxnContext, next: Pc)
    requires Inv(cfg, s) && s.pc.Rolling? && s.prog.mem.Some? && s.pc.i < |s.prog.mem.value.running|
    requires t == s.prog.mem.value.running[s.pc.i] && !s.w.txns[t.txnId].status.Committed?
    requires next == Idle || next == Rolling(s.pc.i + 1)
    ensures Inv(cfg, s.(w := Decide(s.w, t.txnId, U.Aborted), pc := next))
  {
    DecideLater(s.w, t.txnId, U.Aborted);
    ProgLater(cfg.log, s.w, Decide(s.w, t.txnId, U.Aborted), s.prog);
  }

  /** Only the oldest transaction of a list can turn out committed, so its position is safe. */
  lemma {:induction false} FoundCommittedKeeps(cfg: Config, s: State, t: TxnContext)
    requires Inv(cfg, s) && s.pc.Rolling? && s.prog.mem.Some? && s.pc.i < |s.prog.mem.value.running|
    requires t == s.prog.mem.value.running[s.pc.i] && t.txnId in s.w.txns && s.w.txns[t.txnId].status.Committed?
    ensures Inv(cfg, s.(prog := Applied(cfg, s.prog, t), pc := Rolling(s.pc.i + 1)))
  {
    assert s.pc.i == 0;
    assert t.commitSeq in CommittedSeqs(s.w);
    HeadCommitted(cfg.log, s.w, s.prog.mem.value.running);
    AppliedOk(cfg, s.w, s.prog, t);
  }

  lemma StepOverKeeps(cfg: Config, s: State, next: Pc)
    requires Inv(cfg, s) && s.pc.Rolling? && s.prog.mem.Some? && s.pc.i < |s.prog.mem.value.running|
    requires next == Idle || next == Rolling(s.pc.i + 1)
    ensures Inv(cfg, s.(pc := next))
  {
  }

  lemma RollbackTxnKeeps(cfg: Config, s: State, r: U.AbortReply)
    requires Inv(cfg, s) && M.Enabled(cfg, s, RollbackTxn(r))
    ensures Inv(cfg, RollbackTxnStep(cfg, s, r))
  {
    var t := s.prog.mem.value.running[s.pc.i];
    match r
    case AlreadyCommitted => FoundCommittedKeeps(cfg, s, t);
    case AlreadyAborted => StepOverKeeps(cfg, s, Rolling(s.pc.i + 1));
    case AbortFailed(lands) =>
      if lands && s.w.txns[t.txnId].status.Prepared? {
        AbortKeeps(cfg, s, t, Idle);
      } else {
        StepOverKeeps(cfg, s, Idle);
      }
    case _ => AbortKeeps(cfg, s, t, Rolling(s.pc.i + 1));
  }

  // ----- Launching -----

  lemma PersistOk(log: seq<Entry>, w: World, p: Prog<Data>)
    requires ProgOk(log, w, p)
    ensures ProgOk(log, w, Persist(p)) && ProgOk(log, w, Rollback(p))
  {
  }

  lemma FetchedContext(cfg: Config, s: State, i: nat, n: nat, lo: nat)
    requires s.ctx.Some? && ContextOk(cfg, s, lo) && Ordered(cfg.log) && s.ctx.value.queue == []
    requires s.prog.cur.sub.LaunchTransaction? && s.pc.Loop?
    requires IsNext(cfg.log, s.ctx.value.next, i) && 0 < n <= |cfg.log| - i
    ensures ContextOk(cfg, FetchStep(cfg, s, Fetched(i, n)), lo)
  {
    assert i == lo;
    var q := cfg.log[i..i + n];
    assert q[0] == cfg.log[i];
  }

  lemma FetchKeeps(cfg: Config, s: State, r: FetchReply)
    requires Inv(cfg, s) && s.pc.Loop? && s.prog.cur.sub.LaunchTransaction?
    requires r.Fetched? ==> s.ctx.Some? && IsNext(cfg.log, s.ctx.value.next, r.i) && 0 < r.n <= |cfg.log| - r.i
    ensures Inv(cfg, FetchStep(cfg, s, r))
    ensures FetchStep(cfg, s, r).prog.cur.sub.LaunchTransaction? && FetchStep(cfg, s, r).w == s.w
  {
    var lo: nat :| ContextOk(cfg, s, lo);
    var s' := FetchStep(cfg, s, r);
    PersistOk(cfg.log, s.w, s.prog);
    if s.ctx.value.queue == [] && r.Fetched? {
      FetchedContext(cfg, s, r.i, r.n, lo);
    } else {
      assert ContextOk(cfg, s', lo);
    }
  }

  lemma ResetKeeps(cfg: Config, s: State)
    requires Inv(cfg, s) && s.ctx.Some?
    ensures Inv(cfg, Reset(s))
  {
  }

  lemma JudgeKeeps(cfg: Config, s: State)
    requires Inv(cfg, s) && s.pc.Loop? && s.prog.cur.sub.LaunchTransaction? && s.ctx.Some? && s.ctx.value.HasUpsert()
    ensures Inv(cfg, Launched(s.(w := s.w.(judged := s.w.judged + {s.ctx.value.queue[0].at}))))
  {
    var lo: nat :| ContextOk(cfg, s, lo);
    var c, prev := s.ctx.value, s.prog.cur.prev;
    var v := s.w.(judged := s.w.judged + {c.queue[0].at});
    ProgLater(cfg.log, s.w, v, s.prog);
    JudgedContext(cfg, s, v, lo);
  }

  lemma JudgedContext(cfg: Config, s: State, v: World, lo: nat)
    requires s.ctx.Some? && ContextOk(cfg, s, lo) && Ordered(cfg.log) && s.ctx.value.HasUpsert()
    requires s.pc.Loop? && s.prog.cur.sub.LaunchTransaction? && v == s.w.(judged := s.w.judged + {s.ctx.value.queue[0].at})
    ensures ContextOk(cfg, Launched(s.(w := v)), lo + 1)
  {
    var c, prev := s.ctx.value, s.prog.cur.prev;
    CoversLater(cfg.log, s.w, v, prev, prev, Running(s), Running(s), lo);
    DropHead(cfg.log, v, c, prev, prev, false, lo, Running(s), Running(s));
    HeadStaysBehind(cfg.log, c, lo);
  }

  lemma HeadStaysBehind(log: seq<Entry>, c: Ctx, lo: nat)
    requires Ordered(log) && lo + |c.queue| <= |log| && c.queue == log[lo..lo + |c.queue|]
    ensures forall i, j :: 0 <= i < j < |c.queue| ==> c.queue[i].at < c.queue[j].at
  {
    forall i, j | 0 <= i < j < |c.queue| ensures c.queue[i].at < c.queue[j].at {
      assert c.queue[i] == log[lo + i] && c.queue[j] == log[lo + j];
    }
  }

  lemma BegunWorld(cfg: Config, s: State, id: int, lo: nat)
    requires WorldOk(s.w) && Barrier(cfg.log, s.w, s.prog.cur.prev) && Ordered(cfg.log)
    requires s.ctx.Some? && s.ctx.value.queue != [] && id !in s.w.txns
    requires QueueOk(cfg.log, s.ctx.value, s.prog.cur.prev, false, lo)
    requires Covers(cfg.log, s.w, s.prog.cur.prev, Running(s), lo)
    ensures var v := s.w.(txns := s.w.txns[id := U.Txn(s.ctx.value.queue[0].at, U.Prepared)]);
      && WorldOk(v) && Barrier(cfg.log, v, s.prog.cur.prev) && Later(s.w, v) && KeepsCommitted(s.w, v)
  {
    var at := s.ctx.value.queue[0].at;
    BeginLater(s.w, id, at);
    assert cfg.log[lo] == s.ctx.value.queue[0];
    forall k | 0 <= k < |cfg.log| && cfg.log[k].kind.Ddl? && cfg.log[k].at < at ensures cfg.log[k].at <= s.prog.cur.prev {
      assert Accounted(s.w, s.prog.cur.prev, Running(s), cfg.log[k]);
    }
  }

  lemma BeginLostKeeps(cfg: Config, s: State, id: int)
    requires Inv(cfg, s) && s.pc.Loop? && s.prog.cur.sub.LaunchTransaction? && s.ctx.Some? && s.ctx.value.HasUpsert()
    requires id !in s.w.txns
    ensures Inv(cfg, Reset(s.(w := s.w.(txns := s.w.txns[id := U.Txn(s.ctx.value.queue[0].at, U.Prepared)]))))
  {
    var lo: nat :| ContextOk(cfg, s, lo);
    BegunWorld(cfg, s, id, lo);
    ProgLater(cfg.log, s.w, s.w.(txns := s.w.txns[id := U.Txn(s.ctx.value.queue[0].at, U.Prepared)]), s.prog);
  }

  /** The running list with the new transaction at its end. */
  lemma BegunPayload(cfg: Config, s: State, id: int, t: TxnContext, lo: nat)
    requires s.ctx.Some? && ContextOk(cfg, s, lo) && WorldOk(s.w) && s.pc.Loop? && s.prog.cur.sub.LaunchTransaction?
    requires PayloadOk(cfg.log, s.w, Running(s)) && s.ctx.value.HasUpsert() && id !in s.w.txns && Ordered(cfg.log)
    requires t.txnId == id && t.commitSeq == s.ctx.value.queue[0].at
    ensures var v := s.w.(txns := s.w.txns[id := U.Txn(t.commitSeq, U.Prepared)]);
      PayloadOk(cfg.log, v, Running(s) + [t])
  {
    var v := s.w.(txns := s.w.txns[id := U.Txn(t.commitSeq, U.Prepared)]);
    BeginLater(s.w, id, t.commitSeq);
    PayloadLater(cfg.log, s.w, v, Running(s));
    if Running(s) == [] {
      assert s.ctx.value.queue[0] == cfg.log[lo];
      forall k | 0 <= k < |cfg.log| && cfg.log[k].kind.Upsert? && cfg.log[k].at < t.commitSeq
        ensures Settled(v, cfg.log[k].at) {
        assert Accounted(s.w, s.prog.cur.prev, [], cfg.log[k]);
      }
    }
  }

  lemma LaunchedChain(w: World, c: Chain, running: seq<TxnContext>, t: TxnContext, triggered: bool)
    requires ChainOk(w, c, running, 0)
    ensures ChainOk(w, L.Next(c, Launch(t, triggered)), running + [t], 0)
  {
    var c' := L.Next(c, Launch(t, triggered));
    StepKeepsLinked(c, Launch(t, triggered));
    var done := |c.txns| - |running|;
    assert c'.txns[done..] == c.txns[done..] + [t];
  }

  lemma BegunQueue(log: seq<Entry>, w: World, v: World, c: Ctx, prev: Seq, r: seq<TxnContext>, t: TxnContext, max: nat, lo: nat)
    requires QueueOk(log, c, prev, false, lo) && Covers(log, w, prev, r, lo) && RunningOk(c, prev, r, max) && |r| < max
    requires c.HasUpsert() && Ordered(log) && Later(w, v) && t.commitSeq == c.queue[0].at
    ensures QueueOk(log, c.(queue := c.queue[1..]), prev, false, lo + 1) && Covers(log, v, prev, r + [t], lo + 1)
    ensures RunningOk(c.(queue := c.queue[1..]), prev, r + [t], max)
  {
    CoversLater(log, w, v, prev, prev, r, r, lo);
    assert (r + [t])[|r|].commitSeq == c.queue[0].at;
    DropHead(log, v, c, prev, prev, false, lo, r, r + [t]);
    HeadStaysBehind(log, c, lo);
    assert c.queue[0] == log[lo];
  }

  lemma BegunContext(cfg: Config, s: State, id: int, destTables: set<int>, triggered: bool, lo: nat)
    requires s.ctx.Some? && ContextOk(cfg, s, lo) && s.pc.Loop? && s.prog.cur.sub.LaunchTransaction?
    requires s.ctx.value.HasUpsert() && id !in s.w.txns && Ordered(cfg.log)
    requires WorldOk(s.w) && Barrier(cfg.log, s.w, s.prog.cur.prev)
    ensures ContextOk(cfg, LaunchedWith(s, id, destTables, triggered), lo + 1)
  {
    var c, prev, r := s.ctx.value, s.prog.cur.prev, Running(s);
    var t := TxnContext(c.queue[0].at, id, destTables);
    var s' := Begin(s, id, destTables, triggered);
    BegunWorld(cfg, s, id, lo);
    BegunQueue(cfg.log, s.w, s'.w, c, prev, r, t, cfg.max, lo);
    LaunchedChain(s.w, c.chain, r, t, triggered);
    ChainLater(s.w, s'.w, s'.ctx.value.chain, r + [t]);
    if Untriggered(c.chain) && !triggered {
      UntriggeredStep(c.chain, Launch(t, triggered));
    }
    BegunAssembled(cfg, LaunchedWith(s, id, destTables, triggered), lo + 1);
  }

  function LaunchedWith(s: State, id: int, destTables: set<int>, triggered: bool): State
    requires s.ctx.Some? && s.ctx.value.queue != [] && s.prog.mem.Some? && L.WellFormed(s.ctx.value.chain)
  {
    var s' := Begin(s, id, destTables, triggered);
    Launched(if triggered then s'.(trigger := true, ctx := Some(s'.ctx.value.(close := true))) else s')
  }

  lemma ChainLater(w: World, v: World, c: Chain, running: seq<TxnContext>)
    requires ChainOk(w, c, running, 0) && KeepsCommitted(w, v)
    ensures ChainOk(v, c, running, 0)
  {
  }

  lemma BegunAssembled(cfg: Config, s: State, lo: nat)
    requires s.ctx.Some? && s.prog.cur.sub.CommitPipeline? && s.prog.mem.Some? && s.prog.cur.commit == s.prog.cur.prev
    requires s.pc.Loop? && QueueOk(cfg.log, s.ctx.value, s.prog.cur.prev, false, lo)
    requires Covers(cfg.log, s.w, s.prog.cur.prev, Running(s), lo) && ChainOk(s.w, s.ctx.value.chain, Running(s), 0)
    requires RunningOk(s.ctx.value, s.prog.cur.prev, Running(s), cfg.max) && (Untriggered(s.ctx.value.chain) || s.trigger)
    ensures ContextOk(cfg, s, lo)
  {
  }

  lemma BegunProg(cfg: Config, s: State, id: int, destTables: set<int>, triggered: bool, lo: nat)
    requires Inv(cfg, s) && s.ctx.Some? && ContextOk(cfg, s, lo) && s.pc.Loop? && s.prog.cur.sub.LaunchTransaction?
    requires s.ctx.value.HasUpsert() && id !in s.w.txns
    ensures var s' := Begin(s, id, destTables, triggered);
      WorldOk(s'.w) && Barrier(cfg.log, s'.w, s.prog.cur.prev) && ProgOk(cfg.log, s'.w, s'.prog)
  {
    var s' := Begin(s, id, destTables, triggered);
    var t := TxnContext(s.ctx.value.queue[0].at, id, destTables);
    BegunWorld(cfg, s, id, lo);
    BegunPayload(cfg, s, id, t, lo);
    ProgLater(cfg.log, s.w, s'.w, s.prog);
  }

  lemma Assembled(cfg: Config, s: State, lo: nat)
    requires cfg.max >= 1 && Ordered(cfg.log) && WorldOk(s.w) && Barrier(cfg.log, s.w, s.prog.cur.prev)
    requires ProgOk(cfg.log, s.w, s.prog) && Live(s) && ContextOk(cfg, s, lo)
    requires s.pc.Loop? || s.pc.Idle? || (s.pc.Sealing? && s.prog.cur.sub.CommitPipelineTransaction?)
    ensures Inv(cfg, s)
  {
  }

  lemma AssembledIdle(cfg: Config, s: State)
    requires cfg.max >= 1 && Ordered(cfg.log) && WorldOk(s.w) && Barrier(cfg.log, s.w, s.prog.cur.prev)
    requires ProgOk(cfg.log, s.w, s.prog) && s.ctx.None? && s.pc.Idle?
    ensures Inv(cfg, s)
  {
  }

  lemma BegunStays(cfg: Config, s: State, id: int, destTables: set<int>, triggered: bool, lo: nat)
    requires Inv(cfg, s) && s.ctx.Some? && ContextOk(cfg, s, lo) && s.pc.Loop? && s.prog.cur.sub.LaunchTransaction?
    requires s.ctx.value.HasUpsert() && id !in s.w.txns
    ensures Inv(cfg, LaunchedWith(s, id, destTables, triggered))
  {
    BegunProg(cfg, s, id, destTables, triggered, lo);
    BegunContext(cfg, s, id, destTables, triggered, lo);
    BegunMoved(cfg.log, s, id, destTables, triggered);
    Assembled(cfg, LaunchedWith(s, id, destTables, triggered), lo + 1);
  }

  lemma BegunMoved(log: seq<Entry>, s: State, id: int, destTables: set<int>, triggered: bool)
    requires s.ctx.Some? && s.ctx.value.queue != [] && s.prog.mem.Some? && L.WellFormed(s.ctx.value.chain) && s.pc.Loop?
    requires ProgOk(log, Begin(s, id, destTables, triggered).w, Begin(s, id, destTables, triggered).prog)
    requires Barrier(log, Begin(s, id, destTables, triggered).w, s.prog.cur.prev)
    ensures var s' := LaunchedWith(s, id, destTables, triggered);
      && ProgOk(log, s'.w, s'.prog) && s'.w == Begin(s, id, destTables, triggered).w
      && s'.prog.cur.prev == s.prog.cur.prev && Live(s') && s'.pc.Loop?
  {
    MovedOk(log, Begin(s, id, destTables, triggered).w, Begin(s, id, destTables, triggered).prog, CommitPipeline);
  }

  lemma MovedOk(log: seq<Entry>, w: World, p: Prog<Data>, sub: SubState)
    requires ProgOk(log, w, p) && Sub(sub)
    ensures ProgOk(log, w, NextSubVolatile(p, sub, p.mem))
  {
  }

  lemma BegunFails(cfg: Config, s: State, id: int, destTables: set<int>, lo: nat)
    requires Inv(cfg, s) && s.ctx.Some? && ContextOk(cfg, s, lo) && s.pc.Loop? && s.prog.cur.sub.LaunchTransaction?
    requires s.ctx.value.HasUpsert() && id !in s.w.txns
    ensures Inv(cfg, Reset(Begin(s, id, destTables, false)))
  {
    BegunProg(cfg, s, id, destTables, false, lo);
    AssembledIdle(cfg, Reset(Begin(s, id, destTables, false)));
  }

  function AfterBegin(s: State, id: int, destTables: set<int>, ingest: IngestStart): State
    requires s.ctx.Some? && s.ctx.value.queue != [] && s.prog.mem.Some? && L.WellFormed(s.ctx.value.chain)
  {
    if ingest.PrepareFailed? then Reset(Begin(s, id, destTables, false)) else LaunchedWith(s, id, destTables, ingest.Triggers?)
  }

  lemma LaunchIsBegin(s: State, id: int, destTables: set<int>, ingest: IngestStart)
    requires s.ctx.Some? && s.ctx.value.HasUpsert() && s.prog.mem.Some? && L.WellFormed(s.ctx.value.chain)
    ensures LaunchStep(s, Begun(id, destTables, ingest)) == AfterBegin(s, id, destTables, ingest)
  {
  }

  lemma BegunKeeps(cfg: Config, s: State, id: int, destTables: set<int>, ingest: IngestStart)
    requires Inv(cfg, s) && s.pc.Loop? && s.prog.cur.sub.LaunchTransaction? && s.ctx.Some? && s.ctx.value.HasUpsert()
    requires id !in s.w.txns && s.prog.mem.Some? && L.WellFormed(s.ctx.value.chain)
    ensures Inv(cfg, AfterBegin(s, id, destTables, ingest))
  {
    var lo: nat :| ContextOk(cfg, s, lo);
    if ingest.PrepareFailed? {
      BegunFails(cfg, s, id, destTables, lo);
    } else {
      BegunStays(cfg, s, id, destTables, ingest.Triggers?, lo);
    }
  }

  lemma NothingToLaunch(cfg: Config, s: State)
    requires Inv(cfg, s) && s.pc.Loop? && s.prog.cur.sub.LaunchTransaction?
    ensures s.ctx.Some? && s.prog.mem.Some? && L.WellFormed(s.ctx.value.chain)
    ensures Inv(cfg, s.(prog := NextSubVolatile(s.prog, CommitPipeline, s.prog.mem)))
  {
    var lo: nat :| ContextOk(cfg, s, lo);
    NothingContext(cfg, s, lo);
    Assembled(cfg, s.(prog := NextSubVolatile(s.prog, CommitPipeline, s.prog.mem)), lo);
  }

  lemma NothingContext(cfg: Config, s: State, lo: nat)
    requires s.ctx.Some? && ContextOk(cfg, s, lo) && s.pc.Loop? && s.prog.cur.sub.LaunchTransaction?
    ensures ContextOk(cfg, s.(prog := NextSubVolatile(s.prog, CommitPipeline, s.prog.mem)), lo)
  {
  }

  lemma LaunchKeeps(cfg: Config, s: State, r: LaunchReply)
    requires Inv(cfg, s) && s.pc.Loop? && s.prog.cur.sub.LaunchTransaction?
    requires r.Begun? || r.BeginLost? ==> r.id !in s.w.txns
    ensures Inv(cfg, LaunchStep(s, r))
  {
    NothingToLaunch(cfg, s);
    if s.ctx.value.HasUpsert() {
      match r
      case Irrelevant => JudgeKeeps(cfg, s);
      case BeginLost(id) => BeginLostKeeps(cfg, s, id);
      case TableNotFound => PersistOk(cfg.log, s.w, s.prog);
      case Begun(id, destTables, ingest) =>
        BegunKeeps(cfg, s, id, destTables, ingest);
        LaunchIsBegin(s, id, destTables, ingest);
      case _ => ResetKeeps(cfg, s);
    }
  }

  // ----- Committing -----

  /** The result received is the one of the transaction at the head of the running list, so the
      mismatch the source checks for cannot occur. */
  lemma TakenIsHead(w: World, c: Chain, running: seq<TxnContext>)
    requires ChainOk(w, c, running, 0) && |running| > 0 && L.Enabled(c, Take)
    ensures c.ch[0].context == running[0]
    ensures ChainOk(w, L.Next(c, Take), running, 1)
  {
    StepKeepsLinked(c, Take);
    var k: nat :| TokenAt(c, k);
    assert (c.taken + c.ch)[|c.taken|] == c.ch[0];
    assert c.txns[|c.txns| - |running|..][0] == running[0];
  }

  lemma TakenChain(w: World, c: Chain, running: seq<TxnContext>)
    requires ChainOk(w, c, running, 0) && |running| > 0 && L.Enabled(c, Take)
    ensures c.ch[0].context == running[0] && ChainOk(w, L.Next(c, Take), running, 1)
    ensures Untriggered(c) ==> Untriggered(L.Next(c, Take))
  {
    TakenIsHead(w, c, running);
    if Untriggered(c) {
      UntriggeredStep(c, Take);
    }
  }

  function Handed(s: State): State
    requires s.ctx.Some? && s.prog.mem.Some? && |s.prog.mem.value.running| > 0 && L.Enabled(s.ctx.value.chain, Take)
  {
    var d := Some(Data(s.prog.mem.value.running, Some(s.prog.mem.value.running[0])));
    s.(ctx := Some(s.ctx.value.(chain := L.Next(s.ctx.value.chain, Take))),
       prog := NextSubCheckpoint(s.prog.(mem := d), CommitPipelineTransaction, d))
  }

  lemma TakeIsHanded(s: State)
    requires s.ctx.Some? && s.prog.mem.Some? && |s.prog.mem.value.running| > 0 && L.Enabled(s.ctx.value.chain, Take)
    requires s.ctx.value.chain.ch[0] == TxnIngestResult(s.prog.mem.value.running[0], Ingested)
    ensures TakeStep(s) == Handed(s)
  {
  }

  lemma HandedContext(cfg: Config, s: State, lo: nat)
    requires s.ctx.Some? && ContextOk(cfg, s, lo) && s.prog.cur.sub.CommitPipeline? && s.pc.Loop?
    requires |Running(s)| > 0 && L.Enabled(s.ctx.value.chain, Take)
    requires ChainOk(s.w, L.Next(s.ctx.value.chain, Take), Running(s), 1)
    requires Untriggered(s.ctx.value.chain) ==> Untriggered(L.Next(s.ctx.value.chain, Take))
    ensures ContextOk(cfg, Handed(s), lo)
  {
  }

  lemma TakenContext(cfg: Config, s: State, lo: nat)
    requires s.ctx.Some? && ContextOk(cfg, s, lo) && s.prog.cur.sub.CommitPipeline? && s.pc.Loop?
    requires |Running(s)| > 0 && L.Enabled(s.ctx.value.chain, Take) && s.ctx.value.chain.ch[0].outcome.Ingested?
    ensures TakeStep(s) == Handed(s) && ContextOk(cfg, Handed(s), lo)
  {
    TakenChain(s.w, s.ctx.value.chain, Running(s));
    TakeIsHanded(s);
    HandedContext(cfg, s, lo);
  }

  lemma CheckpointOk(log: seq<Entry>, w: World, p: Prog<Data>, sub: SubState, d: Option<Data>)
    requires ProgOk(log, w, p) && DataOk(log, w, d) && Sub(sub)
    ensures ProgOk(log, w, NextSubCheckpoint(p.(mem := d), sub, d))
    ensures ProgOk(log, w, NextSubCheckpoint(p, sub, d)) && ProgOk(log, w, DoneSubCheckpoint(p, sub, d))
  {
  }

  lemma TakeStopKeeps(cfg: Config, s: State, lo: nat)
    requires Inv(cfg, s) && s.ctx.Some? && ContextOk(cfg, s, lo) && s.pc.Loop? && s.prog.cur.sub.CommitPipeline? && s.prog.mem.Some?
    requires L.Enabled(s.ctx.value.chain, Take) && |s.prog.mem.value.running| > 0
    requires !s.ctx.value.chain.ch[0].outcome.Ingested?
    ensures Inv(cfg, TakeStep(s))
  {
    CheckpointOk(cfg.log, s.w, s.prog, RollbackPipeline, s.prog.mem);
  }

  lemma TakeKeeps(cfg: Config, s: State)
    requires Inv(cfg, s) && s.pc.Loop? && s.prog.cur.sub.CommitPipeline? && s.ctx.Some? && s.prog.mem.Some?
    requires L.Enabled(s.ctx.value.chain, Take) && |s.prog.mem.value.running| > 0
    ensures Inv(cfg, TakeStep(s))
  {
    var lo: nat :| ContextOk(cfg, s, lo);
    if s.ctx.value.chain.ch[0].outcome.Ingested? {
      TakenContext(cfg, s, lo);
      CheckpointOk(cfg.log, s.w, s.prog, CommitPipelineTransaction, Handed(s).prog.mem);
      Assembled(cfg, Handed(s), lo);
    } else {
      TakeStopKeeps(cfg, s, lo);
    }
  }

  lemma DecidedProg(cfg: Config, s: State, skipBinlog: bool)
    requires ProgOk(cfg.log, s.w, s.prog) && s.prog.cur.sub.CommitPipeline?
    ensures ProgOk(cfg.log, s.w, CommitPipelineStep(cfg, s, false, skipBinlog).prog)
  {
    CheckpointOk(cfg.log, s.w, s.prog, Done, None);
    CheckpointOk(cfg.log, s.w, s.prog, CommitPipeline, s.prog.mem);
    MovedOk(cfg.log, s.w, s.prog, LaunchTransaction);
  }

  /** With nothing running `DoneCase` follows; otherwise the loop launches again, waits or yields. */
  lemma DecideKeeps(cfg: Config, s: State, skipBinlog: bool)
    requires Inv(cfg, s) && s.pc.Loop? && s.prog.cur.sub.CommitPipeline?
    ensures Inv(cfg, CommitPipelineStep(cfg, s, false, skipBinlog))
  {
    var lo: nat :| ContextOk(cfg, s, lo);
    var s' := CommitPipelineStep(cfg, s, false, skipBinlog);
    DecidedProg(cfg, s, skipBinlog);
    DecidedContext(cfg, s, skipBinlog, lo);
    DecidedShape(cfg, s, skipBinlog);
    if Live(s') {
      Assembled(cfg, s', lo);
    } else {
      AssembledDue(cfg, s');
    }
  }

  lemma DecidedShape(cfg: Config, s: State, skipBinlog: bool)
    requires s.ctx.Some? && s.prog.mem.Some? && s.pc.Loop? && s.prog.cur.sub.CommitPipeline? && s.prog.cur.commit == s.prog.cur.prev
    ensures var s' := CommitPipelineStep(cfg, s, false, skipBinlog);
      && s'.w == s.w && s'.ctx == s.ctx && s'.trigger == s.trigger && (s'.pc.Loop? || s'.pc.Idle?)
      && s'.prog.cur.prev == s.prog.cur.prev && !s'.prog.cur.sub.RollbackPipeline?
  {
  }

  lemma AssembledDue(cfg: Config, s: State)
    requires cfg.max >= 1 && Ordered(cfg.log) && WorldOk(s.w) && Barrier(cfg.log, s.w, s.prog.cur.prev)
    requires ProgOk(cfg.log, s.w, s.prog) && s.ctx.Some? && !Live(s) && s.trigger && (s.pc.Loop? || s.pc.Idle?)
    ensures Inv(cfg, s)
  {
  }

  lemma DecidedContext(cfg: Config, s: State, skipBinlog: bool, lo: nat)
    requires s.ctx.Some? && ContextOk(cfg, s, lo) && s.pc.Loop? && s.prog.cur.sub.CommitPipeline?
    ensures ContextOk(cfg, CommitPipelineStep(cfg, s, false, skipBinlog), lo)
  {
  }

  // ----- The commit itself -----

  lemma CommitWorld(log: seq<Entry>, w: World, t: TxnContext, p: Prog<Data>, lands: bool)
    requires WorldOk(w) && ProgOk(log, w, p) && p.mem.Some? && |p.mem.value.running| > 0 && t == p.mem.value.running[0]
    requires p.cur.data.Some? && p.cur.data.value == p.mem.value && p.db.data == p.cur.data
    ensures var v := w.(requested := w.requested + {t.txnId});
      var v' := if lands then Decide(v, t.txnId, U.Committed) else v;
      && WorldOk(v') && ProgOk(log, v', p) && Later(w, v') && KeepsCommitted(w, v')
      && (lands ==> t.commitSeq in CommittedSeqs(v') && v'.txns[t.txnId].status.Committed?)
  {
    var v := w.(requested := w.requested + {t.txnId});
    DecideLater(v, t.txnId, U.Committed);
    var v' := if lands then Decide(v, t.txnId, U.Committed) else v;
    assert Spares(w, v', p.mem.value.running);
    ProgLater(log, w, v', p);
  }

  lemma CommitFailedKeeps(cfg: Config, s: State, lands: bool)
    requires Inv(cfg, s) && s.pc.Loop? && s.prog.cur.sub.CommitPipelineTransaction?
    ensures Inv(cfg, CommitTxnStep(cfg, s, CommitFailed(lands)))
  {
    var lo: nat :| ContextOk(cfg, s, lo);
    var t := s.prog.mem.value.running[0];
    var s' := CommitTxnStep(cfg, s, CommitFailed(lands));
    CommitFailedWorld(s, t, lands);
    CommitWorld(cfg.log, s.w, t, s.prog, lands && s.w.txns[t.txnId].status.Prepared?);
    BarrierSame(cfg.log, s.w, s'.w, s.prog.cur.prev);
    AssembledIdle(cfg, s');
  }

  lemma CommitFailedWorld(s: State, t: TxnContext, lands: bool)
    requires s.ctx.Some? && s.prog.mem.Some? && s.prog.mem.value.running != [] && s.prog.mem.value.commitable == Some(t)
    requires t.txnId in s.w.txns
    ensures forall cfg :: var s' := CommitTxnStep(cfg, s, CommitFailed(lands));
      var v := s.w.(requested := s.w.requested + {t.txnId});
      && s'.ctx == None && s'.pc == Idle && s'.prog == s.prog
      && s'.w == if lands && s.w.txns[t.txnId].status.Prepared? then Decide(v, t.txnId, U.Committed) else v
  {
  }

  lemma BarrierSame(log: seq<Entry>, w: World, v: World, prev: Seq)
    requires Barrier(log, w, prev)
    requires forall id :: id in v.txns ==> id in w.txns && v.txns[id].at == w.txns[id].at
    ensures Barrier(log, v, prev)
  {
  }

  /** Everything up to the committed head is settled. */
  lemma HeadCommitted(log: seq<Entry>, v: World, l: seq<TxnContext>)
    requires |l| > 0 && PayloadOk(log, v, l) && l[0].commitSeq in CommittedSeqs(v)
    ensures SafeUpto(log, v, l[0].commitSeq)
  {
  }

  lemma TailPayload(log: seq<Entry>, v: World, c: Ctx, prev: Seq, l: seq<TxnContext>, max: nat, lo: nat)
    requires |l| > 0 && PayloadOk(log, v, l) && l[0].commitSeq in CommittedSeqs(v) && Ordered(log)
    requires QueueOk(log, c, prev, false, lo) && Covers(log, v, prev, l, lo) && RunningOk(c, prev, l, max)
    ensures PayloadOk(log, v, l[1..])
  {
    if |l| > 1 {
      forall k | 0 <= k < |log| && log[k].kind.Upsert? && log[k].at < l[1].commitSeq ensures Settled(v, log[k].at) {
        assert k < lo;
        assert Accounted(v, prev, l, log[k]);
      }
    }
  }

  lemma CommittedChain(w: World, v: World, c: Chain, l: seq<TxnContext>)
    requires ChainOk(w, c, l, 1) && |l| > 0 && KeepsCommitted(w, v)
    requires l[0].txnId in v.txns && v.txns[l[0].txnId].status.Committed?
    ensures ChainOk(v, c, l[1..], 0)
  {
    var done := |c.txns| - |l|;
    assert c.txns[done + 1..] == c.txns[done..][1..];
    assert c.txns[done] == c.txns[done..][0];
  }

  lemma CommittedProg(cfg: Config, s: State, lo: nat)
    requires Inv(cfg, s) && s.ctx.Some? && ContextOk(cfg, s, lo) && s.pc.Loop? && s.prog.cur.sub.CommitPipelineTransaction?
    ensures var s' := CommitTxnStep(cfg, s, CommitOk);
      && WorldOk(s'.w) && Barrier(cfg.log, s'.w, s'.prog.cur.prev) && ProgOk(cfg.log, s'.w, s'.prog)
  {
    var l := s.prog.mem.value.running;
    var s' := CommitTxnStep(cfg, s, CommitOk);
    CommitWorld(cfg.log, s.w, l[0], s.prog, true);
    CoversLater(cfg.log, s.w, s'.w, s.prog.cur.prev, s.prog.cur.prev, l, l, lo);
    HeadCommitted(cfg.log, s'.w, l);
    TailPayload(cfg.log, s'.w, s.ctx.value, s.prog.cur.prev, l, cfg.max, lo);
    BarrierSame(cfg.log, s.w, s'.w, s.prog.cur.prev);
    AppliedOk(cfg, s'.w, s.prog, l[0]);
  }

  lemma AppliedOk(cfg: Config, w: World, p: Prog<Data>, t: TxnContext)
    requires ProgOk(cfg.log, w, p) && SafeUpto(cfg.log, w, t.commitSeq)
    ensures ProgOk(cfg.log, w, Applied(cfg, p, t))
  {
  }

  lemma CommittedContext(cfg: Config, s: State, lo: nat)
    requires Inv(cfg, s) && s.ctx.Some? && ContextOk(cfg, s, lo) && s.pc.Loop? && s.prog.cur.sub.CommitPipelineTransaction?
    ensures ContextOk(cfg, CommitTxnStep(cfg, s, CommitOk), lo)
    ensures var s' := CommitTxnStep(cfg, s, CommitOk);
      Live(s') && s'.pc.Sealing? && s'.prog.cur.sub.CommitPipelineTransaction?
  {
    var l := s.prog.mem.value.running;
    var s' := CommitTxnStep(cfg, s, CommitOk);
    var c := s.ctx.value;
    CommitWorld(cfg.log, s.w, l[0], s.prog, true);
    CoversLater(cfg.log, s.w, s'.w, s.prog.cur.prev, s.prog.cur.prev, l, l, lo);
    HeadCovered(cfg.log, s'.w, s.prog.cur.prev, l, lo);
    CommittedChain(s.w, s'.w, c.chain, l);
    CommittedAssembled(cfg, s', l, lo);
  }

  /** The list without its head: the head is settled now. */
  lemma HeadCovered(log: seq<Entry>, v: World, prev: Seq, l: seq<TxnContext>, lo: nat)
    requires |l| > 0 && Covers(log, v, prev, l, lo) && l[0].commitSeq in CommittedSeqs(v)
    ensures Covers(log, v, prev, l[1..], lo)
  {
    forall k | 0 <= k < lo && k < |log| ensures Accounted(v, prev, l[1..], log[k]) {
      assert Accounted(v, prev, l, log[k]);
      if log[k].kind.Upsert? && !Settled(v, log[k].at) {
        var i :| 0 <= i < |l| && l[i].commitSeq == log[k].at;
        assert l[1..][i - 1].commitSeq == log[k].at;
      }
    }
  }

  lemma CommittedAssembled(cfg: Config, s: State, l: seq<TxnContext>, lo: nat)
    requires s.ctx.Some? && s.pc.Sealing? && s.prog.cur.sub.CommitPipelineTransaction? && s.prog.mem.Some?
    requires |l| > 0 && Running(s) == l[1..] && s.prog.cur.commit == l[0].commitSeq
    requires forall i, j :: 0 <= i < j < |l| ==> l[i].commitSeq < l[j].commitSeq
    requires QueueOk(cfg.log, s.ctx.value, s.prog.cur.prev, false, lo) && Covers(cfg.log, s.w, s.prog.cur.prev, l[1..], lo)
    requires ChainOk(s.w, s.ctx.value.chain, l[1..], 0) && RunningOk(s.ctx.value, s.prog.cur.prev, l, cfg.max)
    requires Untriggered(s.ctx.value.chain) || s.trigger
    ensures ContextOk(cfg, s, lo)
  {
    assert forall i :: 0 <= i < |l[1..]| ==> l[1..][i] == l[i + 1];
  }

  lemma CommitOkKeeps(cfg: Config, s: State)
    requires Inv(cfg, s) && s.pc.Loop? && s.prog.cur.sub.CommitPipelineTransaction?
    ensures Inv(cfg, CommitTxnStep(cfg, s, CommitOk))
  {
    var lo: nat :| ContextOk(cfg, s, lo);
    CommittedProg(cfg, s, lo);
    CommittedContext(cfg, s, lo);
    Assembled(cfg, CommitTxnStep(cfg, s, CommitOk), lo);
  }

  lemma SealedContext(cfg: Config, s: State, locked: bool, lo: nat)
    requires s.ctx.Some? && s.pc.Sealing? && s.prog.cur.sub.CommitPipelineTransaction? && ContextOk(cfg, s, lo)
    ensures ContextOk(cfg, SealStep(s, locked), lo)
  {
    CoversLater(cfg.log, s.w, s.w, s.prog.cur.prev, s.prog.cur.commit, Running(s), Running(s), lo);
  }

  lemma SealKeeps(cfg: Config, s: State, locked: bool)
    requires Inv(cfg, s) && s.pc.Sealing?
    ensures Inv(cfg, SealStep(s, locked))
  {
    var lo: nat :| ContextOk(cfg, s, lo);
    SealedContext(cfg, s, locked, lo);
    CheckpointOk(cfg.log, s.w, s.prog, CommitPipeline, s.prog.mem);
    BarrierMore(cfg.log, s.w, s.prog.cur.prev, s.prog.cur.commit);
    Assembled(cfg, SealStep(s, locked), lo);
  }

  // ----- Every step, every run -----

  lemma InterruptKeeps(cfg: Config, s: State)
    requires Inv(cfg, s) && s.pc.Loop?
    ensures Inv(cfg, s.(pc := Idle))
  {
    if Live(s) {
      var lo: nat :| ContextOk(cfg, s, lo);
      assert ContextOk(cfg, s.(pc := Idle), lo);
    }
  }

  lemma LaunchCaseKeeps(cfg: Config, s: State, f: FetchReply, r: LaunchReply)
    requires Inv(cfg, s) && M.Enabled(cfg, s, LaunchCase(f, r))
    ensures Inv(cfg, LaunchCaseStep(cfg, s, f, r))
  {
    FetchKeeps(cfg, s, f);
    if FetchStep(cfg, s, f).pc.Loop? {
      LaunchKeeps(cfg, FetchStep(cfg, s, f), r);
    }
  }

  lemma CommitPipelineKeeps(cfg: Config, s: State, take: bool, skipBinlog: bool)
    requires Inv(cfg, s) && M.Enabled(cfg, s, CommitPipelineCase(take, skipBinlog))
    ensures Inv(cfg, CommitPipelineStep(cfg, s, take, skipBinlog))
  {
    var lo: nat :| ContextOk(cfg, s, lo);
    if take && |s.prog.mem.value.running| > 0 {
      TakeKeeps(cfg, s);
    } else {
      DecideKeeps(cfg, s, skipBinlog);
    }
  }

  lemma StepKeeps(cfg: Config, s: State, e: M.Event)
    requires Inv(cfg, s) && M.Enabled(cfg, s, e)
    ensures Inv(cfg, M.Next(cfg, s, e))
  {
    match e
    case Enter => EnterKeeps(cfg, s);
    case Interrupt => InterruptKeeps(cfg, s);
    case DoneCase(skip) => DoneKeeps(cfg, s, skip);
    case HandleEnd(r) => HandleEndKeeps(cfg, s, r);
    case LaunchCase(f, r) => LaunchCaseKeeps(cfg, s, f, r);
    case Goroutine(step) => GoroutineKeeps(cfg, s, step);
    case CommitPipelineCase(take, skip) => CommitPipelineKeeps(cfg, s, take, skip);
    case CommitTxnCase(r) =>
      if r.CommitOk? { CommitOkKeeps(cfg, s); } else { CommitFailedKeeps(cfg, s, r.lands); }
    case Seal(locked) => SealKeeps(cfg, s, locked);
    case RollbackCase => RollbackStartKeeps(cfg, s);
    case RollbackTxn(r) => RollbackTxnKeeps(cfg, s, r);
    case RollbackEnd => RollbackEndKeeps(cfg, s);
    case LateCommit(id) => LateCommitKeeps(cfg, s, id);
    case Crash(keep) => CrashKeeps(cfg, s, keep);
  }

  lemma {:induction false} RunKeeps(cfg: Config, s: State, es: seq<M.Event>)
    requires Inv(cfg, s) && M.CanRun(cfg, s, es)
    ensures Inv(cfg, M.Run(cfg, s, es))
    decreases |es|
  {
    if es != [] {
      StepKeeps(cfg, s, es[0]);
      RunKeeps(cfg, M.Next(cfg, s, es[0]), es[1..]);
    }
  }

  /** Incremental sync begins, for the first time or after a snapshot: no context, no payload, every
      upsert at or below the starting point settled, and whatever earlier phases left at the
      destination in order. */
  ghost predicate Init(cfg: Config, s: State) {
    && cfg.max >= 1 && Ordered(cfg.log)
    && s.pc.Idle? && s.ctx.None? && s.prog.cur.IsDone() && s.prog.db == s.prog.cur
    && s.prog.cur.data.None? && s.prog.mem.None?
    && WorldOk(s.w) && Barrier(cfg.log, s.w, s.prog.cur.prev) && SafeUpto(cfg.log, s.w, s.prog.cur.prev)
  }

  /** Nothing is lost: whatever crashed, was reset or went unanswered, every upsert at or below the
      stored positions is committed or was judged irrelevant. */
  lemma {:induction false} LosesNothing(cfg: Config, s: State, es: seq<M.Event>)
    requires Init(cfg, s) && M.CanRun(cfg, s, es)
    ensures var s' := M.Run(cfg, s, es);
      forall k :: 0 <= k < |cfg.log| && cfg.log[k].kind.Upsert? &&
        (cfg.log[k].at <= s'.prog.db.prev || cfg.log[k].at <= s'.prog.db.commit || cfg.log[k].at <= s'.prog.cur.commit)
        ==> Settled(s'.w, cfg.log[k].at)
  {
    RunKeeps(cfg, s, es);
  }

  /** The source's panics and its errors for broken bookkeeping cannot occur. */
  lemma {:induction false} NeverFaults(cfg: Config, s: State, es: seq<M.Event>)
    requires Init(cfg, s) && M.CanRun(cfg, s, es)
    ensures !M.Run(cfg, s, es).pc.Fault?
  {
    RunKeeps(cfg, s, es);
  }

  /** A non-upsert is a barrier: while it is handled every earlier upsert is settled, no transaction
      was ever begun for a later one, and every transaction this context launched is committed. */
  lemma {:induction false} NonUpsertIsBarrier(cfg: Config, s: State, es: seq<M.Event>)
    requires Init(cfg, s) && M.CanRun(cfg, s, es) && M.Run(cfg, s, es).pc.Handling?
    ensures var s' := M.Run(cfg, s, es);
      && s'.ctx.Some? && s'.ctx.value.HasNonUpsert()
      && var c, at := s'.ctx.value.chain, s'.ctx.value.queue[0].at;
      && s'.prog.cur.commit == at
      && (forall k :: 0 <= k < |cfg.log| && cfg.log[k].kind.Upsert? && cfg.log[k].at < at ==> Settled(s'.w, cfg.log[k].at))
      && (forall id :: id in s'.w.txns ==> s'.w.txns[id].at <= at)
      && |c.taken| == |c.txns| && c.ch == []
      && (forall i :: 0 <= i < |c.txns| ==> c.txns[i].txnId in s'.w.txns && s'.w.txns[c.txns[i].txnId].status.Committed?)
  {
    RunKeeps(cfg, s, es);
    var s' := M.Run(cfg, s, es);
    var lo: nat :| ContextOk(cfg, s', lo);
    assert s'.ctx.value.queue[0] == cfg.log[lo];
    var k: nat :| TokenAt(s'.ctx.value.chain, k);
  }

  /** The bookkeeping of a live context: P < running < queued <= N, both lists increasing, and never
      more running than allowed.  With `N >= P` the fetch is never refused. */
  lemma {:induction false} Bookkeeping(cfg: Config, s: State, es: seq<M.Event>)
    requires Init(cfg, s) && M.CanRun(cfg, s, es) && Live(M.Run(cfg, s, es)) && M.Run(cfg, s, es).pc.Loop?
    ensures var s' := M.Run(cfg, s, es);
      var c, r, prev := s'.ctx.value, Running(s'), s'.prog.cur.prev;
      && |r| <= cfg.max && prev <= c.next
      && (forall i :: 0 <= i < |r| ==> prev < r[i].commitSeq <= c.next)
      && (forall i, j :: 0 <= i < j < |r| ==> r[i].commitSeq < r[j].commitSeq)
      && (forall q :: 0 <= q < |c.queue| ==> prev < c.queue[q].at <= c.next)
      && (forall i, q :: 0 <= i < |r| && 0 <= q < |c.queue| ==> r[i].commitSeq < c.queue[q].at)
      && (forall p, q :: 0 <= p < q < |c.queue| ==> c.queue[p].at < c.queue[q].at)
  {
    RunKeeps(cfg, s, es);
    var s' := M.Run(cfg, s, es);
    var lo: nat :| ContextOk(cfg, s', lo);
    HeadStaysBehind(cfg.log, s'.ctx.value, lo);
    forall q | 0 <= q < |s'.ctx.value.queue| ensures s'.ctx.value.queue[q].at <= s'.ctx.value.next {
      assert s'.ctx.value.queue[q] == cfg.log[lo + q];
    }
  }

  /** Whatever the goroutines do, the next result is that of the oldest running transaction. */
  lemma {:induction false} ResultIsHead(cfg: Config, s: State, es: seq<M.Event>)
    requires Init(cfg, s) && M.CanRun(cfg, s, es)
    requires var s' := M.Run(cfg, s, es);
      s'.pc.Loop? && s'.prog.cur.sub.CommitPipeline? && s'.ctx.Some? && s'.ctx.value.chain.ch != []
    ensures var s' := M.Run(cfg, s, es);
      s'.prog.mem.Some? && (|s'.prog.mem.value.running| > 0 ==>
        s'.ctx.value.chain.ch[0].context == s'.prog.mem.value.running[0])
  {
    RunKeeps(cfg, s, es);
    var s' := M.Run(cfg, s, es);
    var lo: nat :| ContextOk(cfg, s', lo);
    if |s'.prog.mem.value.running| > 0 {
      TakenIsHead(s'.w, s'.ctx.value.chain, Running(s'));
    }
  }

  // ----- What a yield records -----

  /** The commit position in memory runs ahead of the stored one only inside a rollback and before a
      commit is sealed. */
  predicate Stored(s: State) {
    s.prog.cur.sub.RollbackPipeline? || s.pc.Sealing? || s.prog.cur.commit == s.prog.db.commit
  }

  lemma LaunchStores(cfg: Config, s: State, f: FetchReply, r: LaunchReply)
    requires s.pc.Loop? && s.prog.cur.sub.LaunchTransaction? && Stored(s)
    ensures Stored(LaunchCaseStep(cfg, s, f, r))
  {
    var s1 := FetchStep(cfg, s, f);
    assert s1.prog.cur.sub.LaunchTransaction? && Stored(s1);
    if s1.pc.Loop? {
      assert Stored(LaunchStep(s1, r));
    }
  }

  lemma StepStores(cfg: Config, s: State, e: M.Event)
    requires Stored(s) && PcOk(s) && Sub(s.prog.cur.sub) && M.Enabled(cfg, s, e)
    ensures Stored(M.Next(cfg, s, e))
  {
    if e.LaunchCase? {
      LaunchStores(cfg, s, e.fetch, e.launch);
    }
  }

  lemma {:induction false} RunStores(cfg: Config, s: State, es: seq<M.Event>)
    requires Inv(cfg, s) && M.CanRun(cfg, s, es) && Stored(s)
    ensures Stored(M.Run(cfg, s, es))
    decreases |es|
  {
    if es != [] {
      StepKeeps(cfg, s, es[0]);
      StepStores(cfg, s, es[0]);
      RunStores(cfg, M.Next(cfg, s, es[0]), es[1..]);
    }
  }

  /** In whatever state the pipeline yields, the write it makes moves neither stored position: an
      upsert skipped by the launch leaves no trace in it. */
  lemma {:induction false} YieldRecordsNothing(cfg: Config, s: State, es: seq<M.Event>, take: bool, skipBinlog: bool)
    requires Init(cfg, s) && M.CanRun(cfg, s, es) && M.Enabled(cfg, M.Run(cfg, s, es), CommitPipelineCase(take, skipBinlog))
    ensures var before := M.Run(cfg, s, es);
      var after := CommitPipelineStep(cfg, before, take, skipBinlog);
      after.prog.db.prev == before.prog.db.prev && after.prog.db.commit == before.prog.db.commit
  {
    RunKeeps(cfg, s, es);
    RunStores(cfg, s, es);
    var before := M.Run(cfg, s, es);
    CommitPipelineStores(cfg, before, take, skipBinlog);
  }

  lemma QuietAtCommit(cfg: Config, s: State)
    requires Inv(cfg, s) && s.pc.Loop? && s.prog.cur.sub.CommitPipeline?
    ensures s.prog.cur.prev == s.prog.db.prev && s.prog.mem.Some? && s.prog.cur.commit == s.prog.cur.prev
  {
    var lo: nat :| ContextOk(cfg, s, lo);
  }

  lemma QuietStores(cfg: Config, s: State, take: bool, skipBinlog: bool)
    requires s.prog.cur.prev == s.prog.db.prev && s.prog.cur.commit == s.prog.db.commit && s.prog.cur.commit == s.prog.cur.prev
    ensures var s' := CommitPipelineStep(cfg, s, take, skipBinlog);
      s'.prog.db.prev == s.prog.db.prev && s'.prog.db.commit == s.prog.db.commit
  {
  }

  lemma CommitPipelineStores(cfg: Config, s: State, take: bool, skipBinlog: bool)
    requires Inv(cfg, s) && s.pc.Loop? && s.prog.cur.sub.CommitPipeline? && s.prog.cur.commit == s.prog.db.commit
    ensures var s' := CommitPipelineStep(cfg, s, take, skipBinlog);
      s'.prog.db.prev == s.prog.db.prev && s'.prog.db.commit == s.prog.db.commit
  {
    QuietAtCommit(cfg, s);
    QuietStores(cfg, s, take, skipBinlog);
  }
}
