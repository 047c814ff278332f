/** When the pipelined replay commits an upsert a second time: exactly when a commit took effect and
    was not recorded before the context it belonged to was lost. */
module PipelineOnce {
  import opened Wrappers
  import opened Progress
  import opened Binlogs
  import opened TxnLinks
  import opened Pipeline
  import opened PipelineSafety
  import opened PipelineRuns
  import L = TxnLinks
  import M = Pipeline
  import U = UpsertReplay

  ghost predicate CommittedOnce(w: World) {
    forall x, y :: x in w.txns && y in w.txns && w.txns[x].status.Committed? && w.txns[y].status.Committed? && x != y
      ==> w.txns[x].at != w.txns[y].at
  }

  /** How far commits are recorded, counting the one about to be. */
  function Recorded(s: State): Seq { if s.pc.Sealing? then s.prog.cur.commit else s.prog.cur.prev }

  /** A committed transaction lies beyond what is recorded. */
  ghost predicate Exposed(s: State) {
    exists id :: id in s.w.txns && s.w.txns[id].status.Committed? && s.w.txns[id].at > Recorded(s)
  }

  /** The event loses a commit: it takes effect behind the pipeline's back, or the process dies between
      the answer and the write that records it. */
  predicate Loses(s: State, e: M.Event) {
    || e.LateCommit?
    || (e.Crash? && s.pc.Sealing?)
    || (e.CommitTxnCase? && e.commit.CommitFailed? && e.commit.lands && s.prog.mem.Some? && s.prog.mem.value.commitable.Some?
        && var t := s.prog.mem.value.commitable.value.txnId; t in s.w.txns && s.w.txns[t].status.Prepared?)
  }

  /** No commit is lost along the run. */
  ghost predicate Sealed(cfg: Config, s: State, es: seq<M.Event>)
    requires M.CanRun(cfg, s, es)
    decreases |es|
  {
    es == [] || (!Loses(s, es[0]) && Sealed(cfg, M.Next(cfg, s, es[0]), es[1..]))
  }

  // ----- Without a lost commit -----

  ghost predicate Secure(s: State) { CommittedOnce(s.w) && !Exposed(s) }

  ghost predicate NoNewCommits(w: World, v: World) {
    forall id :: id in v.txns && v.txns[id].status.Committed? ==> id in w.txns && w.txns[id] == v.txns[id]
  }

  lemma SecureLater(s: State, s': State)
    requires Secure(s) && NoNewCommits(s.w, s'.w) && Recorded(s) <= Recorded(s')
    ensures Secure(s')
  {
  }

  lemma LaunchRecords(cfg: Config, s: State, f: FetchReply, r: LaunchReply)
    requires s.pc.Loop? && (r.Begun? || r.BeginLost? ==> r.id !in s.w.txns)
    ensures NoNewCommits(s.w, LaunchCaseStep(cfg, s, f, r).w)
    ensures Recorded(s) == Recorded(LaunchCaseStep(cfg, s, f, r))
  {
    var s1 := FetchStep(cfg, s, f);
    assert s1.w == s.w && Recorded(s1) == Recorded(s);
    if s1.pc.Loop? {
      assert Recorded(LaunchStep(s1, r)) == Recorded(s1);
    }
  }

  lemma HandleRecords(cfg: Config, s: State, r: HandleReply)
    requires Inv(cfg, s) && s.pc.Handling?
    ensures HandleStep(cfg, s, r).w == s.w && Recorded(s) <= Recorded(HandleStep(cfg, s, r))
  {
    var lo: nat :| ContextOk(cfg, s, lo);
  }

  lemma CommitPipelineRecords(cfg: Config, s: State, take: bool, skipBinlog: bool)
    requires s.pc.Loop? && s.prog.cur.commit == s.prog.cur.prev
    ensures var s' := CommitPipelineStep(cfg, s, take, skipBinlog); s'.w == s.w && Recorded(s') == Recorded(s)
  {
  }

  lemma CommitTxnSecures(cfg: Config, s: State, r: CommitReply)
    requires Inv(cfg, s) && s.pc.Loop? && s.prog.cur.sub.CommitPipelineTransaction?
    requires Secure(s) && !Loses(s, CommitTxnCase(r))
    ensures Secure(CommitTxnStep(cfg, s, r))
  {
    var t := BeforeCommit(cfg, s);
    if r.CommitOk? { CommitOkSecures(cfg, s, t); } else { CommitFailedSecures(cfg, s, t, r.lands); }
  }

  lemma CommitOkSecures(cfg: Config, s: State, t: TxnContext)
    requires Secure(s) && s.pc.Loop? && s.prog.mem.Some? && s.prog.mem.value.commitable == Some(t)
    requires s.prog.mem.value.running != [] && t.txnId in s.w.txns && s.w.txns[t.txnId].at == t.commitSeq > s.prog.cur.prev
    ensures Secure(CommitTxnStep(cfg, s, CommitOk))
  {
    var s' := CommitTxnStep(cfg, s, CommitOk);
    assert s'.w.txns == s.w.txns[t.txnId := s.w.txns[t.txnId].(status := U.Committed)];
    assert Recorded(s') == t.commitSeq && Recorded(s) == s.prog.cur.prev;
    forall x | x in s.w.txns && s.w.txns[x].status.Committed? ensures s.w.txns[x].at <= s.prog.cur.prev {}
  }

  lemma CommitFailedSecures(cfg: Config, s: State, t: TxnContext, lands: bool)
    requires Secure(s) && s.pc.Loop? && s.ctx.Some? && s.prog.mem.Some? && s.prog.mem.value.commitable == Some(t)
    requires s.prog.mem.value.running != [] && t.txnId in s.w.txns
    requires lands ==> !s.w.txns[t.txnId].status.Prepared?
    ensures Secure(CommitTxnStep(cfg, s, CommitFailed(lands)))
  {
    CommitFailedWorld(s, t, lands);
    SecureLater(s, CommitTxnStep(cfg, s, CommitFailed(lands)));
  }

  lemma RollbackRecords(cfg: Config, s: State, r: U.AbortReply)
    requires s.pc.Rolling?
    ensures NoNewCommits(s.w, RollbackTxnStep(cfg, s, r).w) && Recorded(RollbackTxnStep(cfg, s, r)) == Recorded(s)
  {
  }

  lemma OtherRecords(cfg: Config, s: State, e: M.Event)
    requires M.Enabled(cfg, s, e) && s.prog.cur.prev == s.prog.db.prev && !Loses(s, e)
    requires !e.CommitTxnCase? && !e.LaunchCase? && !e.HandleEnd? && !e.CommitPipelineCase? && !e.RollbackTxn?
    ensures M.Next(cfg, s, e).w == s.w && Recorded(M.Next(cfg, s, e)) == Recorded(s)
  {
  }

  lemma StepSecures(cfg: Config, s: State, e: M.Event)
    requires Inv(cfg, s) && M.Enabled(cfg, s, e) && Secure(s) && !Loses(s, e)
    ensures Secure(M.Next(cfg, s, e))
  {
    var s' := M.Next(cfg, s, e);
    if e.CommitTxnCase? {
      CommitTxnSecures(cfg, s, e.commit);
    } else {
      match e
      case LaunchCase(f, r) => LaunchRecords(cfg, s, f, r);
      case HandleEnd(r) => HandleRecords(cfg, s, r);
      case CommitPipelineCase(take, skip) =>
        QuietAtCommit(cfg, s);
        CommitPipelineRecords(cfg, s, take, skip);
      case RollbackTxn(r) => RollbackRecords(cfg, s, r);
      case _ => OtherRecords(cfg, s, e);
      SecureLater(s, s');
    }
  }

  lemma {:induction false} RunSecures(cfg: Config, s: State, es: seq<M.Event>)
    requires Inv(cfg, s) && M.CanRun(cfg, s, es) && Secure(s) && Sealed(cfg, s, es)
    ensures Secure(M.Run(cfg, s, es))
    decreases |es|
  {
    if es != [] {
      StepKeeps(cfg, s, es[0]);
      StepSecures(cfg, s, es[0]);
      RunSecures(cfg, M.Next(cfg, s, es[0]), es[1..]);
    }
  }

  /** If every commit that takes effect is recorded before the next crash or reset, no upsert is
      committed a second time, and none beyond the recorded position is committed at all. */
  lemma {:induction false} AtMostOnceIfSealed(cfg: Config, s: State, es: seq<M.Event>)
    requires Init(cfg, s) && M.CanRun(cfg, s, es) && Sealed(cfg, s, es) && Secure(s)
    ensures CommittedOnce(M.Run(cfg, s, es).w) && !Exposed(M.Run(cfg, s, es))
  {
    RunSecures(cfg, s, es);
  }

  // ----- A lost commit is exposed -----

  /** The commit being recorded did take effect. */
  ghost predicate Answered(s: State) { s.pc.Sealing? ==> s.prog.cur.commit in CommittedSeqs(s.w) }

  function Head(d: Option<Data>): Option<int> {
    if d.Some? && |d.value.running| > 0 then Some(d.value.running[0].txnId) else None
  }

  /** A commit was sent for `id` and its fate is open: the context is gone and the transaction is
      still the first to be rolled back, here and in the store. */
  predicate Unresolved(s: State, id: int) {
    && s.ctx.None? && !s.prog.cur.sub.Done? && !s.prog.db.sub.Done?
    && Head(s.prog.db.data) == Some(id)
    && (match s.pc
        case Rolling(i) => i == 0 && Head(s.prog.mem) == Some(id)
        case Idle => Head(Some(Payload(s.prog))) == Some(id)
        case Loop => Head(Some(Payload(s.prog))) == Some(id)
        case _ => false)
  }

  ghost predicate Awaiting(s: State) {
    forall id :: id in s.w.requested && id in s.w.txns && s.w.txns[id].status.Prepared? ==>
      s.w.txns[id].at > s.prog.cur.prev && Unresolved(s, id)
  }

  /** The fate of every commit sent is known. */
  ghost predicate NoneOpen(w: World) {
    forall id :: id in w.requested && id in w.txns ==> !w.txns[id].status.Prepared?
  }

  /** What the state before a commit says of the transaction and the list it heads. */
  lemma BeforeCommit(cfg: Config, s: State) returns (t: TxnContext)
    requires Inv(cfg, s) && s.pc.Loop? && s.prog.cur.sub.CommitPipelineTransaction?
    ensures s.ctx.Some? && s.prog.mem.Some? && s.prog.mem.value.commitable == Some(t)
    ensures s.prog.mem.value.running != [] && s.prog.mem.value.running[0] == t
    ensures t.txnId in s.w.txns && s.w.txns[t.txnId].at == t.commitSeq > s.prog.cur.prev
    ensures s.prog.db.data == s.prog.mem && !s.prog.db.sub.Done?
  {
    var lo: nat :| ContextOk(cfg, s, lo);
    t := s.prog.mem.value.running[0];
  }

  lemma CommitOkAwaits(cfg: Config, s: State, t: TxnContext)
    requires NoneOpen(s.w) && s.prog.mem.Some? && s.prog.mem.value.commitable == Some(t) && s.prog.mem.value.running != []
    requires t.txnId in s.w.txns && s.w.txns[t.txnId].at == t.commitSeq
    ensures NoneOpen(CommitTxnStep(cfg, s, CommitOk).w) && Answered(CommitTxnStep(cfg, s, CommitOk))
  {
    var w := CommitTxnStep(cfg, s, CommitOk).w;
    assert w.txns[t.txnId].status.Committed? && w.txns[t.txnId].at == t.commitSeq;
  }

  lemma CommitFailedAwaits(cfg: Config, s: State, t: TxnContext, lands: bool)
    requires NoneOpen(s.w) && s.pc.Loop? && s.prog.cur.sub.CommitPipelineTransaction? && s.ctx.Some?
    requires s.prog.mem.Some? && s.prog.mem.value.commitable == Some(t)
    requires s.prog.mem.value.running != [] && s.prog.mem.value.running[0] == t
    requires t.txnId in s.w.txns && s.w.txns[t.txnId].at > s.prog.cur.prev
    requires s.prog.db.data == s.prog.mem && !s.prog.db.sub.Done?
    ensures var s' := CommitTxnStep(cfg, s, CommitFailed(lands)); Awaiting(s') && !s'.pc.Sealing?
  {
    CommitFailedWorld(s, t, lands);
    var s' := CommitTxnStep(cfg, s, CommitFailed(lands));
    assert s'.prog == s.prog && Unresolved(s', t.txnId);
  }

  lemma RollbackAwaits(cfg: Config, s: State, r: U.AbortReply)
    requires Inv(cfg, s) && Awaiting(s) && M.Enabled(cfg, s, RollbackTxn(r))
    ensures Awaiting(RollbackTxnStep(cfg, s, r))
  {
  }

  lemma LaunchAwaits(cfg: Config, s: State, f: FetchReply, r: LaunchReply)
    requires Inv(cfg, s) && Awaiting(s) && M.Enabled(cfg, s, LaunchCase(f, r))
    ensures Awaiting(LaunchCaseStep(cfg, s, f, r)) && !LaunchCaseStep(cfg, s, f, r).pc.Sealing?
  {
    var s1 := FetchStep(cfg, s, f);
    assert s1.w == s.w && s1.ctx.Some? && (s1.pc.Loop? || s1.pc.Idle? || s1.pc.Fault?);
    if s1.pc.Loop? {
      LaunchAsksNothing(s1, r);
    }
  }

  lemma LaunchAsksNothing(s: State, r: LaunchReply)
    requires s.pc.Loop? && (r.Begun? || r.BeginLost? ==> r.id !in s.w.txns && r.id !in s.w.requested)
    requires forall id :: id in s.w.requested && id in s.w.txns ==> !s.w.txns[id].status.Prepared?
    ensures var s' := LaunchStep(s, r);
      !s'.pc.Sealing? && forall id :: id in s'.w.requested && id in s'.w.txns ==> !s'.w.txns[id].status.Prepared?
  {
  }

  lemma LateAwaits(cfg: Config, s: State, id: int)
    requires Inv(cfg, s) && Awaiting(s) && Answered(s) && M.Enabled(cfg, s, LateCommit(id))
    ensures Awaiting(M.Next(cfg, s, LateCommit(id))) && Answered(M.Next(cfg, s, LateCommit(id)))
  {
  }

  lemma OtherAwaits(cfg: Config, s: State, e: M.Event)
    requires Inv(cfg, s) && Awaiting(s) && Answered(s) && M.Enabled(cfg, s, e)
    requires e.Interrupt? || e.Goroutine? || e.Crash? || e.Seal?
    ensures Awaiting(M.Next(cfg, s, e)) && Answered(M.Next(cfg, s, e))
  {
  }

  lemma EnterAwaits(cfg: Config, s: State)
    requires Sub(s.prog.cur.sub) && Awaiting(s) && s.pc.Idle?
    ensures Awaiting(EnterStep(s)) && Answered(EnterStep(s))
  {
    var s' := EnterStep(s);
    forall id | id in s'.w.requested && id in s'.w.txns && s'.w.txns[id].status.Prepared?
      ensures s'.w.txns[id].at > s'.prog.cur.prev && Unresolved(s', id)
    {
      assert Unresolved(s, id);
    }
  }

  lemma RollbackTurnsAwait(cfg: Config, s: State, e: M.Event)
    requires Inv(cfg, s) && Awaiting(s) && M.Enabled(cfg, s, e) && (e.RollbackCase? || e.RollbackEnd?)
    ensures Awaiting(M.Next(cfg, s, e)) && Answered(M.Next(cfg, s, e))
  {
  }

  lemma LoopIsSettled(cfg: Config, s: State, e: M.Event)
    requires PcOk(s) && Awaiting(s) && M.Enabled(cfg, s, e)
    requires e.DoneCase? || e.HandleEnd? || e.CommitPipelineCase? || e.CommitTxnCase?
    ensures NoneOpen(s.w)
  {
  }

  lemma LoopAwaits(cfg: Config, s: State, e: M.Event)
    requires NoneOpen(s.w) && M.Enabled(cfg, s, e) && (e.DoneCase? || e.HandleEnd? || e.CommitPipelineCase?)
    ensures M.Next(cfg, s, e).w == s.w && !M.Next(cfg, s, e).pc.Sealing?
  {
  }

  lemma StepAwaits(cfg: Config, s: State, e: M.Event)
    requires Inv(cfg, s) && Awaiting(s) && Answered(s) && M.Enabled(cfg, s, e)
    ensures Awaiting(M.Next(cfg, s, e)) && Answered(M.Next(cfg, s, e))
  {
    if e.DoneCase? || e.HandleEnd? || e.CommitPipelineCase? {
      LoopIsSettled(cfg, s, e);
      LoopAwaits(cfg, s, e);
    } else {
      match e
      case CommitTxnCase(r) =>
        LoopIsSettled(cfg, s, e);
        var t := BeforeCommit(cfg, s);
        if r.CommitOk? { CommitOkAwaits(cfg, s, t); } else { CommitFailedAwaits(cfg, s, t, r.lands); }
      case RollbackTxn(r) => RollbackAwaits(cfg, s, r);
      case LaunchCase(f, r) => LaunchAwaits(cfg, s, f, r);
      case LateCommit(id) => LateAwaits(cfg, s, id);
      case Enter => EnterAwaits(cfg, s);
      case RollbackCase => RollbackTurnsAwait(cfg, s, e);
      case RollbackEnd => RollbackTurnsAwait(cfg, s, e);
      case _ => OtherAwaits(cfg, s, e);
    }
  }

  lemma {:induction false} RunAwaits(cfg: Config, s: State, es: seq<M.Event>)
    requires Inv(cfg, s) && M.CanRun(cfg, s, es) && Awaiting(s) && Answered(s)
    ensures Awaiting(M.Run(cfg, s, es)) && Answered(M.Run(cfg, s, es))
    decreases |es|
  {
    if es != [] {
      StepKeeps(cfg, s, es[0]);
      StepAwaits(cfg, s, es[0]);
      RunAwaits(cfg, M.Next(cfg, s, es[0]), es[1..]);
    }
  }

  lemma LossExposes(cfg: Config, s: State, e: M.Event)
    requires Inv(cfg, s) && Awaiting(s) && Answered(s) && M.Enabled(cfg, s, e) && Loses(s, e)
    ensures Exposed(M.Next(cfg, s, e))
  {
    var s' := M.Next(cfg, s, e);
    match e
    case LateCommit(id) => assert s'.w.txns[id].status.Committed? && s'.w.txns[id].at > Recorded(s');
    case Crash(_) =>
      var lo: nat :| ContextOk(cfg, s, lo);
      var id :| id in s.w.txns && s.w.txns[id].status.Committed? && s.w.txns[id].at == s.prog.cur.commit;
      assert s'.w.txns[id].at > Recorded(s');
    case CommitTxnCase(r) =>
      var t := BeforeCommit(cfg, s);
      var id := t.txnId;
      assert s'.w.txns[id].status.Committed? && s'.w.txns[id].at > Recorded(s');
  }

  // ----- From an exposed state to a second commit -----

  /** The run is possible, loses no commit, and ends in `s'`. */
  ghost predicate Goes(cfg: Config, s: State, es: seq<M.Event>, s': State) {
    M.CanRun(cfg, s, es) && Sealed(cfg, s, es) && M.Run(cfg, s, es) == s'
  }

  lemma GoesOne(cfg: Config, s: State, e: M.Event)
    requires M.Enabled(cfg, s, e) && !Loses(s, e)
    ensures Goes(cfg, s, [e], M.Next(cfg, s, e))
  {
    var s' := M.Next(cfg, s, e);
    assert [e][1..] == [];
    assert M.CanRun(cfg, s', []) && M.Run(cfg, s', []) == s' && Sealed(cfg, s', []);
  }

  lemma {:induction false} GoesOn(cfg: Config, s: State, es: seq<M.Event>, s': State, fs: seq<M.Event>, s'': State)
    requires Goes(cfg, s, es, s') && Goes(cfg, s', fs, s'')
    ensures Goes(cfg, s, es + fs, s'')
    decreases |es|
  {
    if es == [] {
      assert es + fs == fs;
    } else {
      assert (es + fs)[0] == es[0] && (es + fs)[1..] == es[1..] + fs;
      GoesOn(cfg, M.Next(cfg, s, es[0]), es[1..], s', fs, s'');
    }
  }

  lemma Then(cfg: Config, s: State, es: seq<M.Event>, s': State, e: M.Event)
    requires Goes(cfg, s, es, s') && M.Enabled(cfg, s', e) && !Loses(s', e)
    ensures Goes(cfg, s, es + [e], M.Next(cfg, s', e))
  {
    GoesOne(cfg, s', e);
    GoesOn(cfg, s, es, s', [e], M.Next(cfg, s', e));
  }

  ghost predicate SameCommits(w: World, v: World) {
    forall id :: id in w.txns && w.txns[id].status.Committed? ==> id in v.txns && v.txns[id] == w.txns[id]
  }

  /** The reply that names the status the transaction has. */
  function TrueReply(status: U.Status): U.AbortReply {
    match status
    case Prepared => U.AbortOk
    case Committed => U.AlreadyCommitted
    case Aborted => U.AlreadyAborted
  }

  /** The same process between the same positions. */
  predicate Steady(s: State, s': State) {
    s'.ctx.None? && !s'.trigger && s'.prog.cur.prev == s.prog.cur.prev
  }

  lemma RollOne(cfg: Config, s: State) returns (e: M.Event)
    requires Inv(cfg, s) && s.pc.Rolling? && s.ctx.None? && !s.trigger && s.pc.i < |s.prog.mem.value.running|
    ensures M.Enabled(cfg, s, e) && !Loses(s, e)
    ensures var s' := M.Next(cfg, s, e);
      Steady(s, s') && SameCommits(s.w, s'.w) && s'.pc == Rolling(s.pc.i + 1) && s'.prog.mem == s.prog.mem
  {
    var t := s.prog.mem.value.running[s.pc.i];
    e := RollbackTxn(TrueReply(s.w.txns[t.txnId].status));
  }

  lemma {:induction false} RollAll(cfg: Config, s: State) returns (es: seq<M.Event>, s': State)
    requires Inv(cfg, s) && s.pc.Rolling? && s.ctx.None? && !s.trigger
    ensures Goes(cfg, s, es, s') && Inv(cfg, s') && Steady(s, s') && SameCommits(s.w, s'.w)
    ensures s'.pc.Loop? && s'.prog.cur.sub.Done?
    decreases |s.prog.mem.value.running| - s.pc.i
  {
    if s.pc.i < |s.prog.mem.value.running| {
      var e := RollOne(cfg, s);
      var s1 := M.Next(cfg, s, e);
      StepKeeps(cfg, s, e);
      GoesOne(cfg, s, e);
      es, s' := RollAll(cfg, s1);
      GoesOn(cfg, s, [e], s1, es, s');
      es := [e] + es;
    } else {
      GoesOne(cfg, s, RollbackEnd);
      StepKeeps(cfg, s, RollbackEnd);
      es, s' := [RollbackEnd], M.Next(cfg, s, RollbackEnd);
    }
  }

  lemma EnterBack(cfg: Config, s: State) returns (s': State)
    requires Inv(cfg, s) && s.pc.Idle? && s.ctx.None? && !s.trigger
    ensures Goes(cfg, s, [Enter], s') && Inv(cfg, s') && Steady(s, s') && s'.w == s.w
    ensures s'.pc.Loop? && (s'.prog.cur.sub.Done? || s'.prog.cur.sub.RollbackPipeline?)
  {
    s' := M.Next(cfg, s, Enter);
    StepKeeps(cfg, s, Enter);
    GoesOne(cfg, s, Enter);
  }

  lemma StartRolling(cfg: Config, s: State) returns (s': State)
    requires Inv(cfg, s) && s.pc.Loop? && s.prog.cur.sub.RollbackPipeline? && s.ctx.None? && !s.trigger
    ensures Goes(cfg, s, [RollbackCase], s') && Inv(cfg, s') && Steady(s, s') && s'.w == s.w && s'.pc.Rolling?
  {
    s' := M.Next(cfg, s, RollbackCase);
    StepKeeps(cfg, s, RollbackCase);
    GoesOne(cfg, s, RollbackCase);
  }

  /** After a crash: whatever was launched is rolled back. */
  lemma ComeBack(cfg: Config, s: State) returns (es: seq<M.Event>, s': State)
    requires Inv(cfg, s) && s.pc.Idle? && s.ctx.None? && !s.trigger
    ensures Goes(cfg, s, es, s') && Inv(cfg, s') && Steady(s, s') && SameCommits(s.w, s'.w)
    ensures s'.pc.Loop? && s'.prog.cur.sub.Done?
  {
    s' := EnterBack(cfg, s);
    es := [Enter];
    if !s'.prog.cur.sub.Done? {
      var s1 := s';
      var s2 := StartRolling(cfg, s1);
      GoesOn(cfg, s, es, s1, [RollbackCase], s2);
      es := es + [RollbackCase];
      var fs;
      fs, s' := RollAll(cfg, s2);
      GoesOn(cfg, s, es, s2, fs, s');
      es := es + fs;
    }
  }

  /** Back at the head of the loop with nothing to recover. */
  lemma Recover(cfg: Config, s: State) returns (es: seq<M.Event>, s': State)
    requires Inv(cfg, s) && s.pc.Loop? && s.prog.cur.sub.Done? && s.ctx.None? && !s.trigger
    ensures Goes(cfg, s, es, s') && Inv(cfg, s') && Steady(s, s') && s'.w == s.w && s'.pc.Loop? && s'.prog.cur.IsDone()
  {
    if s.prog.cur.IsDone() {
      es, s' := [], s;
    } else {
      var e := DoneCase(NoSkip);
      var s1 := M.Next(cfg, s, e);
      StepKeeps(cfg, s, e);
      GoesOne(cfg, s, e);
      StepKeeps(cfg, s1, Enter);
      Then(cfg, s, [e], s1, Enter);
      es, s' := [e] + [Enter], M.Next(cfg, s1, Enter);
    }
  }

  /** Ready to launch `log[j]` into an empty context. */
  predicate Ready(cfg: Config, s: State, j: nat) {
    && cfg.max >= 1 && s.pc.Loop? && s.prog.cur.sub.LaunchTransaction? && s.prog.mem == Some(NoTxns)
    && s.ctx.Some? && s.ctx.value.queue == [] && !s.ctx.value.close && s.ctx.value.chain == Fresh
    && s.prog.cur.prev <= s.ctx.value.next && IsNext(cfg.log, s.ctx.value.next, j)
  }

  lemma GetReady(cfg: Config, s: State, j: nat) returns (s': State)
    requires cfg.max >= 1 && s.pc.Loop? && s.ctx.None? && !s.trigger && s.prog.cur.IsDone() && IsNext(cfg.log, s.prog.cur.prev, j)
    ensures Goes(cfg, s, [DoneCase(NoSkip)], s') && Ready(cfg, s', j) && s'.w == s.w && s'.prog.cur.prev == s.prog.cur.prev
  {
    s' := M.Next(cfg, s, DoneCase(NoSkip));
    GoesOne(cfg, s, DoneCase(NoSkip));
  }

  lemma SkipOne(cfg: Config, s: State, j: nat) returns (es: seq<M.Event>, s': State)
    requires Ready(cfg, s, j) && Ordered(cfg.log) && j + 1 < |cfg.log| && cfg.log[j].kind.Upsert?
    ensures Goes(cfg, s, es, s') && Ready(cfg, s', j + 1) && s'.w.txns == s.w.txns && s'.w.requested == s.w.requested
    ensures s'.prog.cur.prev == s.prog.cur.prev
  {
    var e := Skipping(j);
    assert cfg.log[j..j + 1][1..] == [];
    var s1 := M.Next(cfg, s, e);
    GoesOne(cfg, s, e);
    Then(cfg, s, [e], s1, CommitPipelineCase(false, false));
    es, s' := [e] + [CommitPipelineCase(false, false)], M.Next(cfg, s1, CommitPipelineCase(false, false));
  }

  lemma {:induction false} SkipTo(cfg: Config, s: State, j: nat, k: nat) returns (es: seq<M.Event>, s': State)
    requires Ready(cfg, s, j) && Ordered(cfg.log) && j <= k < |cfg.log| && forall i :: j <= i < k ==> cfg.log[i].kind.Upsert?
    ensures Goes(cfg, s, es, s') && Ready(cfg, s', k) && s'.w.txns == s.w.txns && s'.w.requested == s.w.requested
    ensures s'.prog.cur.prev == s.prog.cur.prev
    decreases k - j
  {
    if j == k {
      es, s' := [], s;
    } else {
      var s1;
      es, s1 := SkipOne(cfg, s, j);
      var fs;
      fs, s' := SkipTo(cfg, s1, j + 1, k);
      GoesOn(cfg, s, es, s1, fs, s');
      es := es + fs;
    }
  }

  /** The upsert `log[k]` is launched under the id `id` and handed over for its commit. */
  predicate Handed(cfg: Config, s: State, s': State, k: nat, id: int)
    requires k < |cfg.log|
  {
    var t := TxnContext(cfg.log[k].at, id, {});
    && s'.pc.Loop? && s'.ctx.Some? && s'.prog.cur.sub.CommitPipelineTransaction? && s'.prog.cur.prev == s.prog.cur.prev
    && s'.prog.mem == Some(Data([t], Some(t)))
    && s'.w == s.w.(txns := s.w.txns[id := U.Txn(t.commitSeq, U.Prepared)])
  }

  lemma LaunchIt(cfg: Config, s: State, k: nat, id: int) returns (s': State)
    requires Ready(cfg, s, k) && cfg.log[k].kind.Upsert? && id !in s.w.txns && id !in s.w.requested
    ensures Goes(cfg, s, [LaunchCase(Fetched(k, 1), Begun(id, {}, Started))], s')
    ensures var t := TxnContext(cfg.log[k].at, id, {});
      && s'.pc.Loop? && s'.ctx.Some? && s'.ctx.value.chain == Chain([t], [Ingesting], [true, false], [], [])
      && s'.prog.cur.sub.CommitPipeline? && s'.prog.cur.prev == s.prog.cur.prev && s'.prog.mem == Some(Data([t], None))
      && s'.w == s.w.(txns := s.w.txns[id := U.Txn(t.commitSeq, U.Prepared)])
  {
    var e := LaunchCase(Fetched(k, 1), Begun(id, {}, Started));
    s' := M.Next(cfg, s, e);
    GoesOne(cfg, s, e);
  }

  /** The goroutine ingests, receives its token and reports. */
  lemma IngestEndsWell(cfg: Config, s: State, t: TxnContext) returns (es: seq<M.Event>, s': State)
    requires s.ctx.Some? && s.ctx.value.chain == Chain([t], [Ingesting], [true, false], [], [])
    ensures Goes(cfg, s, es, s') && s'.ctx.Some? && s'.ctx.value.chain.ch == [TxnIngestResult(t, Ingested)] && L.Enabled(s'.ctx.value.chain, Take)
    ensures s' == s.(ctx := s'.ctx)
  {
    var s1 := M.Next(cfg, s, Goroutine(IngestEnds(0, Ingested)));
    var s2 := M.Next(cfg, s1, Goroutine(Receive(0)));
    s' := M.Next(cfg, s2, Goroutine(Report(0)));
    GoesOne(cfg, s, Goroutine(IngestEnds(0, Ingested)));
    es := [Goroutine(IngestEnds(0, Ingested))];
    Then(cfg, s, es, s1, Goroutine(Receive(0)));
    es := es + [Goroutine(Receive(0))];
    Then(cfg, s, es, s2, Goroutine(Report(0)));
    es := es + [Goroutine(Report(0))];
  }

  lemma IngestIt(cfg: Config, s: State, t: TxnContext) returns (es: seq<M.Event>, s': State)
    requires s.pc.Loop? && s.ctx.Some? && s.prog.cur.sub.CommitPipeline? && s.prog.mem == Some(Data([t], None))
    requires s.ctx.value.chain == Chain([t], [Ingesting], [true, false], [], [])
    ensures Goes(cfg, s, es, s') && s'.pc.Loop? && s'.ctx.Some? && s'.w == s.w
    ensures s'.prog.cur.sub.CommitPipelineTransaction? && s'.prog.cur.prev == s.prog.cur.prev && s'.prog.mem == Some(Data([t], Some(t)))
  {
    var s1;
    es, s1 := IngestEndsWell(cfg, s, t);
    s' := M.Next(cfg, s1, CommitPipelineCase(true, false));
    Then(cfg, s, es, s1, CommitPipelineCase(true, false));
    es := es + [CommitPipelineCase(true, false)];
  }

  lemma FreshId(ids: set<int>) returns (id: int)
    ensures id !in ids
  {
    id := 0;
    var seen: set<int> := {};
    while id in ids
      invariant forall x :: x in seen ==> x < id
      decreases |ids - seen|
    {
      assert ids - (seen + {id}) == (ids - seen) - {id};
      seen := seen + {id};
      id := id + 1;
    }
  }

  /** One attempt from a state ready for the upsert. */
  lemma Attempt(cfg: Config, s: State, k: nat) returns (es: seq<M.Event>, s': State, id: int)
    requires Ready(cfg, s, k) && cfg.log[k].kind.Upsert?
    ensures Goes(cfg, s, es, s') && Handed(cfg, s, s', k, id) && id !in s.w.txns
  {
    id := FreshId(s.w.txns.Keys + s.w.requested);
    var s1 := LaunchIt(cfg, s, k, id);
    var fs;
    fs, s' := IngestIt(cfg, s1, TxnContext(cfg.log[k].at, id, {}));
    es := [LaunchCase(Fetched(k, 1), Begun(id, {}, Started))];
    GoesOn(cfg, s, es, s1, fs, s');
    es := es + fs;
  }

  ghost predicate IsUpsertAt(log: seq<Entry>, c: Seq) { exists k :: 0 <= k < |log| && log[k].kind.Upsert? && log[k].at == c }

  /** Every transaction was begun for an upsert of the log. */
  ghost predicate Logged(log: seq<Entry>, w: World) {
    forall id :: id in w.txns ==> IsUpsertAt(log, w.txns[id].at)
  }

  /** Where the upsert of a committed transaction beyond the done position lies in the log: after the
      next binlog, with nothing but upserts between. */
  lemma Ahead(cfg: Config, s: State, id: int) returns (j: nat, k: nat)
    requires Inv(cfg, s) && id in s.w.txns && IsUpsertAt(cfg.log, s.w.txns[id].at) && s.w.txns[id].at > s.prog.cur.prev
    ensures IsNext(cfg.log, s.prog.cur.prev, j) && j <= k < |cfg.log| && cfg.log[k].at == s.w.txns[id].at
    ensures forall i :: j <= i <= k ==> cfg.log[i].kind.Upsert?
  {
    k :| 0 <= k < |cfg.log| && cfg.log[k].kind.Upsert? && cfg.log[k].at == s.w.txns[id].at;
    j := Position(cfg.log, s.prog.cur.prev);
    forall i | j <= i <= k ensures cfg.log[i].kind.Upsert? {
      assert i < k ==> cfg.log[i].at < cfg.log[k].at;
    }
  }

  /** Idle after a crash with a commit unrecorded: the same upsert is committed again. */
  lemma CommitsAgain(cfg: Config, s: State, x: int) returns (es: seq<M.Event>)
    requires Inv(cfg, s) && s.pc.Idle? && s.ctx.None? && !s.trigger
    requires x in s.w.txns && s.w.txns[x].status.Committed? && s.w.txns[x].at > s.prog.cur.prev && IsUpsertAt(cfg.log, s.w.txns[x].at)
    ensures M.CanRun(cfg, s, es) && Sealed(cfg, s, es) && !CommittedOnce(M.Run(cfg, s, es).w)
  {
    var j, k := Ahead(cfg, s, x);
    var s1;
    es, s1 := ComeBack(cfg, s);
    var fs, s2 := Recover(cfg, s1);
    GoesOn(cfg, s, es, s1, fs, s2);
    es := es + fs;
    var s3 := GetReady(cfg, s2, j);
    GoesOn(cfg, s, es, s2, [DoneCase(NoSkip)], s3);
    es := es + [DoneCase(NoSkip)];
    var gs, s4 := SkipTo(cfg, s3, j, k);
    GoesOn(cfg, s, es, s3, gs, s4);
    es := es + gs;
    var hs, s5, y := Attempt(cfg, s4, k);
    GoesOn(cfg, s, es, s4, hs, s5);
    es := es + hs;
    Then(cfg, s, es, s5, CommitTxnCase(CommitOk));
    es := es + [CommitTxnCase(CommitOk)];
    Twice(cfg, s5, x, y);
  }

  lemma Twice(cfg: Config, s: State, x: int, y: int)
    requires s.prog.mem.Some? && s.prog.mem.value.running != [] && s.prog.mem.value.commitable.Some?
    requires s.prog.mem.value.commitable.value.txnId == y && x != y
    requires x in s.w.txns && y in s.w.txns && s.w.txns[x].status.Committed? && s.w.txns[x].at == s.w.txns[y].at
    ensures !CommittedOnce(CommitTxnStep(cfg, s, CommitOk).w)
  {
    var w := CommitTxnStep(cfg, s, CommitOk).w;
    assert w.txns[x].status.Committed? && w.txns[y].status.Committed?;
  }

  lemma Record(cfg: Config, s: State) returns (es: seq<M.Event>, s': State)
    requires Inv(cfg, s) && !s.pc.Left?
    ensures Goes(cfg, s, es, s') && Inv(cfg, s') && !s'.pc.Left? && !s'.pc.Sealing?
    ensures s'.w == s.w && s'.prog.cur.prev == Recorded(s)
  {
    es, s' := [], s;
    if s.pc.Sealing? {
      GoesOne(cfg, s, Seal(true));
      StepKeeps(cfg, s, Seal(true));
      es, s' := [Seal(true)], M.Next(cfg, s, Seal(true));
    }
  }

  lemma Stop(cfg: Config, s: State) returns (s': State)
    requires Inv(cfg, s) && !s.pc.Left? && !s.pc.Sealing?
    ensures Goes(cfg, s, [Crash(false)], s') && Inv(cfg, s')
    ensures s'.w == s.w && s'.prog.cur.prev == s.prog.cur.prev && s'.pc.Idle? && s'.ctx.None? && !s'.trigger
  {
    s' := M.Next(cfg, s, Crash(false));
    StepKeeps(cfg, s, Crash(false));
    GoesOne(cfg, s, Crash(false));
  }

  /** From any exposed state. */
  lemma ExposedCommitsAgain(cfg: Config, s: State) returns (es: seq<M.Event>)
    requires Inv(cfg, s) && Logged(cfg.log, s.w) && Exposed(s) && !s.pc.Left?
    ensures M.CanRun(cfg, s, es) && Sealed(cfg, s, es) && !CommittedOnce(M.Run(cfg, s, es).w)
  {
    var x :| x in s.w.txns && s.w.txns[x].status.Committed? && s.w.txns[x].at > Recorded(s);
    var s1;
    es, s1 := Record(cfg, s);
    var s2 := Stop(cfg, s1);
    GoesOn(cfg, s, es, s1, [Crash(false)], s2);
    es := es + [Crash(false)];
    var fs := CommitsAgain(cfg, s2, x);
    GoesOn(cfg, s, es, s2, fs, M.Run(cfg, s2, fs));
    es := es + fs;
  }

  lemma LaunchLogs(cfg: Config, s: State, f: FetchReply, r: LaunchReply)
    requires Inv(cfg, s) && Logged(cfg.log, s.w) && M.Enabled(cfg, s, LaunchCase(f, r))
    ensures Logged(cfg.log, LaunchCaseStep(cfg, s, f, r).w)
  {
    FetchKeeps(cfg, s, f);
    var s1 := FetchStep(cfg, s, f);
    if s1.pc.Loop? {
      var lo: nat :| ContextOk(cfg, s1, lo);
      LaunchAddsHead(cfg.log, s1, r, lo);
    }
  }

  lemma LaunchAddsHead(log: seq<Entry>, s: State, r: LaunchReply, lo: nat)
    requires s.ctx.Some? && Logged(log, s.w) && lo + |s.ctx.value.queue| <= |log|
    requires s.ctx.value.queue == log[lo..lo + |s.ctx.value.queue|]
    ensures Logged(log, LaunchStep(s, r).w)
  {
    if s.ctx.value.HasUpsert() {
      assert s.ctx.value.queue[0] == log[lo];
      assert IsUpsertAt(log, s.ctx.value.queue[0].at);
    }
  }

  /** Nothing but a launch begins a transaction. */
  lemma NothingBegun(cfg: Config, s: State, e: M.Event)
    requires M.Enabled(cfg, s, e) && !e.LaunchCase?
    ensures var v := M.Next(cfg, s, e).w; forall id :: id in v.txns ==> id in s.w.txns && v.txns[id].at == s.w.txns[id].at
  {
  }

  lemma StepLogs(cfg: Config, s: State, e: M.Event)
    requires Inv(cfg, s) && Logged(cfg.log, s.w) && M.Enabled(cfg, s, e)
    ensures Logged(cfg.log, M.Next(cfg, s, e).w)
  {
    if e.LaunchCase? {
      LaunchLogs(cfg, s, e.fetch, e.launch);
    } else {
      NothingBegun(cfg, s, e);
      LoggedSame(cfg.log, s.w, M.Next(cfg, s, e).w);
    }
  }

  lemma LoggedSame(log: seq<Entry>, w: World, v: World)
    requires Logged(log, w) && forall id :: id in v.txns ==> id in w.txns && v.txns[id].at == w.txns[id].at
    ensures Logged(log, v)
  {
    forall id | id in v.txns ensures IsUpsertAt(log, v.txns[id].at) {
      assert IsUpsertAt(log, w.txns[id].at);
    }
  }

  lemma {:induction false} RunLogs(cfg: Config, s: State, es: seq<M.Event>)
    requires Inv(cfg, s) && M.CanRun(cfg, s, es) && Logged(cfg.log, s.w)
    ensures Logged(cfg.log, M.Run(cfg, s, es).w)
    decreases |es|
  {
    if es != [] {
      StepKeeps(cfg, s, es[0]);
      StepLogs(cfg, s, es[0]);
      RunLogs(cfg, M.Next(cfg, s, es[0]), es[1..]);
    }
  }

  // ----- Both directions -----

  /** Without losing any further commit the pipeline can still commit some upsert a second time. */
  ghost predicate Doomed(cfg: Config, s: State) {
    exists fs :: M.CanRun(cfg, s, fs) && Sealed(cfg, s, fs) && !CommittedOnce(M.Run(cfg, s, fs).w)
  }

  lemma DoomedExactly(cfg: Config, s: State)
    requires Inv(cfg, s) && Logged(cfg.log, s.w) && CommittedOnce(s.w) && !s.pc.Left?
    ensures Doomed(cfg, s) <==> Exposed(s)
  {
    if Exposed(s) {
      var fs := ExposedCommitsAgain(cfg, s);
    } else {
      forall fs | M.CanRun(cfg, s, fs) && Sealed(cfg, s, fs) ensures CommittedOnce(M.Run(cfg, s, fs).w) {
        RunSecures(cfg, s, fs);
      }
    }
  }

  /** In any reachable state in which nothing was committed twice so far, a second commit can follow
      without any further loss if and only if a committed transaction lies beyond what is recorded. */
  lemma {:induction false} SecondCommitExactly(cfg: Config, s: State, es: seq<M.Event>)
    requires Init(cfg, s) && Logged(cfg.log, s.w) && M.CanRun(cfg, s, es)
    requires CommittedOnce(M.Run(cfg, s, es).w) && !M.Run(cfg, s, es).pc.Left?
    ensures Doomed(cfg, M.Run(cfg, s, es)) <==> Exposed(M.Run(cfg, s, es))
  {
    RunKeeps(cfg, s, es);
    RunLogs(cfg, s, es);
    DoomedExactly(cfg, M.Run(cfg, s, es));
  }

  /** No state of the run is doomed. */
  ghost predicate NeverDoomed(cfg: Config, s: State, es: seq<M.Event>)
    requires M.CanRun(cfg, s, es)
    decreases |es|
  {
    !Doomed(cfg, s) && (es == [] || NeverDoomed(cfg, M.Next(cfg, s, es[0]), es[1..]))
  }

  lemma SecureIsNotDoomed(cfg: Config, s: State)
    requires Inv(cfg, s) && Secure(s)
    ensures !Doomed(cfg, s)
  {
    forall fs | M.CanRun(cfg, s, fs) && Sealed(cfg, s, fs) ensures CommittedOnce(M.Run(cfg, s, fs).w) {
      RunSecures(cfg, s, fs);
    }
  }

  lemma LossDooms(cfg: Config, s: State, e: M.Event)
    requires Inv(cfg, s) && Awaiting(s) && Answered(s) && Logged(cfg.log, s.w) && M.Enabled(cfg, s, e) && Loses(s, e)
    ensures Doomed(cfg, M.Next(cfg, s, e))
  {
    LossExposes(cfg, s, e);
    StepKeeps(cfg, s, e);
    StepLogs(cfg, s, e);
    LossIsNotLeaving(cfg, s, e);
    var fs := ExposedCommitsAgain(cfg, M.Next(cfg, s, e));
  }

  lemma LossIsNotLeaving(cfg: Config, s: State, e: M.Event)
    requires M.Enabled(cfg, s, e) && Loses(s, e) && (e.LateCommit? ==> !s.pc.Left?)
    ensures !M.Next(cfg, s, e).pc.Left?
  {
  }

  lemma {:induction false} RunDoomsExactly(cfg: Config, s: State, es: seq<M.Event>)
    requires Inv(cfg, s) && M.CanRun(cfg, s, es) && Secure(s) && Awaiting(s) && Answered(s) && Logged(cfg.log, s.w)
    ensures NeverDoomed(cfg, s, es) <==> Sealed(cfg, s, es)
    decreases |es|
  {
    SecureIsNotDoomed(cfg, s);
    if es != [] {
      var s1 := M.Next(cfg, s, es[0]);
      if Loses(s, es[0]) {
        LossDooms(cfg, s, es[0]);
      } else {
        StepKeeps(cfg, s, es[0]);
        StepSecures(cfg, s, es[0]);
        StepAwaits(cfg, s, es[0]);
        StepLogs(cfg, s, es[0]);
        RunDoomsExactly(cfg, s1, es[1..]);
      }
    }
  }

  /** Exactly when: along a run no second commit ever becomes possible if and only if every commit that
      took effect was recorded before the next crash or reset. */
  lemma {:induction false} SealedExactly(cfg: Config, s: State, es: seq<M.Event>)
    requires Init(cfg, s) && M.CanRun(cfg, s, es) && Secure(s) && NoneOpen(s.w) && Logged(cfg.log, s.w)
    ensures NeverDoomed(cfg, s, es) <==> Sealed(cfg, s, es)
  {
    RunDoomsExactly(cfg, s, es);
  }

  /** A phase without a lost commit hands the next one a start that these results hold from. */
  lemma {:induction false} SealedPhasesChain(cfg: Config, s: State, es: seq<M.Event>, next: State)
    requires Init(cfg, s) && M.CanRun(cfg, s, es) && M.Run(cfg, s, es).pc.Left? && Resumes(cfg, M.Run(cfg, s, es), next)
    requires Sealed(cfg, s, es) && Secure(s) && NoneOpen(s.w) && Logged(cfg.log, s.w)
    ensures Init(cfg, next) && Secure(next) && NoneOpen(next.w) && Logged(cfg.log, next.w)
  {
    PhasesChain(cfg, s, es, next);
    RunSecures(cfg, s, es);
    RunAwaits(cfg, s, es);
    RunLogs(cfg, s, es);
    LoggedSame(cfg.log, M.Run(cfg, s, es).w, next.w);
  }

  // ----- The two ways to lose a commit, as runs -----

  /** Up to the commit of the next upsert. */
  lemma UpToCommit(cfg: Config, s: State, i: nat) returns (es: seq<M.Event>, s': State, id: int)
    requires Init(cfg, s) && Settling(cfg, s, i)
    ensures Goes(cfg, s, es, s') && Inv(cfg, s') && Handed(cfg, s, s', i, id) && id !in s.w.txns
  {
    var s1 := M.Next(cfg, s, Enter);
    GoesOne(cfg, s, Enter);
    var s2 := GetReady(cfg, s1, i);
    GoesOn(cfg, s, [Enter], s1, [DoneCase(NoSkip)], s2);
    var fs;
    fs, s', id := Attempt(cfg, s2, i);
    es := [Enter] + [DoneCase(NoSkip)];
    GoesOn(cfg, s, es, s2, fs, s');
    es := es + fs;
    RunKeeps(cfg, s, es);
  }

  /** The rest of either run, from the crash or reset that lost the commit. */
  lemma AndAgain(cfg: Config, s: State, es: seq<M.Event>, s': State, id: int) returns (fs: seq<M.Event>)
    requires M.CanRun(cfg, s, es) && M.Run(cfg, s, es) == s' && Inv(cfg, s') && s'.pc.Idle? && s'.ctx.None?
    requires id in s'.w.txns && s'.w.txns[id].status.Committed? && s'.w.txns[id].at > s'.prog.cur.prev
    requires IsUpsertAt(cfg.log, s'.w.txns[id].at)
    ensures M.CanRun(cfg, s, es + fs) && !CommittedOnce(M.Run(cfg, s, es + fs).w)
  {
    var s1 := Stop(cfg, s');
    var gs := CommitsAgain(cfg, s1, id);
    GoesOn(cfg, s', [Crash(false)], s1, gs, M.Run(cfg, s1, gs));
    fs := [Crash(false)] + gs;
    RunConcat(cfg, s, es, fs);
  }

  lemma Extend(cfg: Config, s: State, es: seq<M.Event>, s': State, e: M.Event) returns (s'': State)
    requires M.CanRun(cfg, s, es) && M.Run(cfg, s, es) == s' && M.Enabled(cfg, s', e) && Inv(cfg, s')
    ensures s'' == M.Next(cfg, s', e) && Inv(cfg, s'') && M.CanRun(cfg, s, es + [e]) && M.Run(cfg, s, es + [e]) == s''
  {
    s'' := M.Next(cfg, s', e);
    StepKeeps(cfg, s', e);
    RunCons(cfg, s', e, []);
    assert [e] + [] == [e];
    RunConcat(cfg, s, es, [e]);
  }

  /** The commit of `id` took effect and is not recorded. */
  predicate Unrecorded(cfg: Config, s: State, i: nat, id: int)
    requires i < |cfg.log|
  {
    && s.pc.Idle? && s.ctx.None? && id in s.w.txns && s.w.txns[id].status.Committed?
    && s.w.txns[id].at == cfg.log[i].at > s.prog.cur.prev
  }

  lemma HandedFails(cfg: Config, s: State, s': State, i: nat, id: int)
    requires i < |cfg.log| && Inv(cfg, s') && Handed(cfg, s, s', i, id)
    ensures M.Enabled(cfg, s', CommitTxnCase(CommitFailed(true)))
    ensures Unrecorded(cfg, M.Next(cfg, s', CommitTxnCase(CommitFailed(true))), i, id)
  {
    var t := BeforeCommit(cfg, s');
  }

  lemma HandedOk(cfg: Config, s: State, s': State, i: nat, id: int)
    requires i < |cfg.log| && Inv(cfg, s') && Handed(cfg, s, s', i, id)
    ensures M.Enabled(cfg, s', CommitTxnCase(CommitOk))
    ensures var r := M.Next(cfg, s', CommitTxnCase(CommitOk));
      r.pc.Sealing? && M.Enabled(cfg, r, Crash(false)) && Unrecorded(cfg, M.Next(cfg, r, Crash(false)), i, id)
  {
    var t := BeforeCommit(cfg, s');
  }

  lemma ExtendTwice(cfg: Config, s: State, es: seq<M.Event>, s': State, e: M.Event, f: M.Event) returns (r: State)
    requires M.CanRun(cfg, s, es) && M.Run(cfg, s, es) == s' && Inv(cfg, s')
    requires M.Enabled(cfg, s', e) && M.Enabled(cfg, M.Next(cfg, s', e), f)
    ensures r == M.Next(cfg, M.Next(cfg, s', e), f) && Inv(cfg, r)
    ensures M.CanRun(cfg, s, es + [e] + [f]) && M.Run(cfg, s, es + [e] + [f]) == r
  {
    var m := Extend(cfg, s, es, s', e);
    r := Extend(cfg, s, es + [e], m, f);
  }

  /** What either run has in common after the loss. */
  lemma LostIsRepeated(cfg: Config, s: State, es: seq<M.Event>, s': State, i: nat, id: int) returns (fs: seq<M.Event>)
    requires M.CanRun(cfg, s, es) && M.Run(cfg, s, es) == s' && Inv(cfg, s')
    requires i < |cfg.log| && cfg.log[i].kind.Upsert? && Unrecorded(cfg, s', i, id)
    ensures M.CanRun(cfg, s, es + fs) && !CommittedOnce(M.Run(cfg, s, es + fs).w)
  {
    assert IsUpsertAt(cfg.log, cfg.log[i].at);
    fs := AndAgain(cfg, s, es, s', id);
  }

  /** The answer is lost: wherever replay starts with an upsert next, one commit that took effect
      without its reply lets that upsert be committed a second time. */
  lemma {:induction false} LostReplyCommitsTwice(cfg: Config, s: State, i: nat) returns (es: seq<M.Event>, fs: seq<M.Event>)
    requires Init(cfg, s) && Settling(cfg, s, i)
    ensures var gs := es + [CommitTxnCase(CommitFailed(true))] + fs;
      M.CanRun(cfg, s, gs) && !CommittedOnce(M.Run(cfg, s, gs).w)
  {
    var s1, id;
    es, s1, id := UpToCommit(cfg, s, i);
    HandedFails(cfg, s, s1, i, id);
    var s2 := Extend(cfg, s, es, s1, CommitTxnCase(CommitFailed(true)));
    fs := LostIsRepeated(cfg, s, es + [CommitTxnCase(CommitFailed(true))], s2, i, id);
  }

  /** The answer arrives and the process dies before it is recorded: every commit was answered, and
      the upsert is committed a second time all the same. */
  lemma {:induction false} CrashBeforeSealCommitsTwice(cfg: Config, s: State, i: nat) returns (es: seq<M.Event>, fs: seq<M.Event>)
    requires Init(cfg, s) && Settling(cfg, s, i)
    ensures var gs := es + [CommitTxnCase(CommitOk)] + [Crash(false)] + fs;
      M.CanRun(cfg, s, gs) && !CommittedOnce(M.Run(cfg, s, gs).w)
  {
    var s1, id;
    es, s1, id := UpToCommit(cfg, s, i);
    HandedOk(cfg, s, s1, i, id);
    var s2 := ExtendTwice(cfg, s, es, s1, CommitTxnCase(CommitOk), Crash(false));
    fs := LostIsRepeated(cfg, s, es + [CommitTxnCase(CommitOk)] + [Crash(false)], s2, i, id);
  }
}
