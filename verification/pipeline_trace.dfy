/** Whole runs of the pipelined replay, read off their events: what went before a commit. */
module PipelineTrace {
  import opened Wrappers
  import opened Progress
  import opened Binlogs
  import opened TxnLinks
  import opened Pipeline
  import opened PipelineSafety
  import L = TxnLinks
  import M = Pipeline
  import U = UpsertReplay

  /** The state after the first `n` events. */
  ghost function At(cfg: Config, s: State, es: seq<M.Event>, n: nat): State
    requires n <= |es| && M.CanRun(cfg, s, es)
    ensures n == 0 ==> At(cfg, s, es, n) == s
    ensures n == |es| ==> At(cfg, s, es, n) == M.Run(cfg, s, es)
    decreases |es|
  {
    if n == 0 then s else At(cfg, M.Next(cfg, s, es[0]), es[1..], n - 1)
  }

  lemma {:induction false} AtNext(cfg: Config, s: State, es: seq<M.Event>, n: nat)
    requires n < |es| && M.CanRun(cfg, s, es)
    ensures M.Enabled(cfg, At(cfg, s, es, n), es[n])
    ensures M.Next(cfg, At(cfg, s, es, n), es[n]) == At(cfg, s, es, n + 1)
    decreases |es|
  {
    if n > 0 {
      AtNext(cfg, M.Next(cfg, s, es[0]), es[1..], n - 1);
    }
  }

  lemma {:induction false} AtKeeps(cfg: Config, s: State, es: seq<M.Event>, n: nat)
    requires Inv(cfg, s) && n <= |es| && M.CanRun(cfg, s, es)
    ensures Inv(cfg, At(cfg, s, es, n))
    decreases |es|
  {
    if n > 0 {
      StepKeeps(cfg, s, es[0]);
      AtKeeps(cfg, M.Next(cfg, s, es[0]), es[1..], n - 1);
    }
  }

  // ----- The chain of one context -----

  /** The event tells the outcome of transaction `t`, the `i`-th of its context. */
  predicate Tells(e: M.Event, i: nat, t: TxnContext, o: Outcome) {
    || e == Goroutine(IngestEnds(i, o))
    || (o.Triggered? && e.LaunchCase? && e.launch.Begun? && e.launch.ingest.Triggers? && e.launch.id == t.txnId)
  }

  ghost predicate ChainLinked(s: State) { s.ctx.Some? ==> Linked(s.ctx.value.chain) }

  /** What one step does to the chain of the context. */
  ghost predicate ChainStep(s: State, s': State, e: M.Event) {
    s'.ctx.Some? ==>
      || (s.ctx.Some? && s'.ctx.value.chain == s.ctx.value.chain)
      || (s.ctx.None? && s'.ctx.value.chain == Fresh)
      || (s.ctx.Some? && exists step :: ByStep(s, s', e, step))
  }

  ghost predicate ByStep(s: State, s': State, e: M.Event, step: L.Event)
    requires s.ctx.Some? && s'.ctx.Some?
  {
    L.Enabled(s.ctx.value.chain, step) && s'.ctx.value.chain == L.Next(s.ctx.value.chain, step) && Comes(e, step)
  }

  /** Where a step of the chain comes from. */
  predicate Comes(e: M.Event, step: L.Event) {
    match step
    case Launch(t, triggered) => e.LaunchCase? && e.launch.Begun? && e.launch.id == t.txnId && triggered == e.launch.ingest.Triggers?
    case Take => e.CommitPipelineCase?
    case _ => e == Goroutine(step)
  }

  lemma LaunchMovesChain(cfg: Config, s: State, f: FetchReply, r: LaunchReply)
    ensures ChainStep(s, LaunchCaseStep(cfg, s, f, r), LaunchCase(f, r))
  {
    var s1, s' := FetchStep(cfg, s, f), LaunchCaseStep(cfg, s, f, r);
    assert s1.ctx.Some? == s.ctx.Some? && (s.ctx.Some? ==> s1.ctx.value.chain == s.ctx.value.chain);
    if s1.pc.Loop? && s1.ctx.Some? && s'.ctx.Some? && s'.ctx.value.chain != s.ctx.value.chain {
      var step := Launch(TxnContext(s1.ctx.value.queue[0].at, r.id, r.destTables), r.ingest.Triggers?);
      assert ByStep(s, s', LaunchCase(f, r), step);
    }
  }

  lemma TakeMovesChain(cfg: Config, s: State, take: bool, skipBinlog: bool)
    ensures ChainStep(s, CommitPipelineStep(cfg, s, take, skipBinlog), CommitPipelineCase(take, skipBinlog))
  {
    var s' := CommitPipelineStep(cfg, s, take, skipBinlog);
    if s.ctx.Some? && s'.ctx.Some? && s'.ctx.value.chain != s.ctx.value.chain {
      assert ByStep(s, s', CommitPipelineCase(take, skipBinlog), Take);
    }
  }

  lemma StepMovesChain(cfg: Config, s: State, e: M.Event)
    requires M.Enabled(cfg, s, e)
    ensures ChainStep(s, M.Next(cfg, s, e), e)
  {
    match e
    case LaunchCase(f, r) => LaunchMovesChain(cfg, s, f, r);
    case CommitPipelineCase(take, skip) => TakeMovesChain(cfg, s, take, skip);
    case Goroutine(step) => assert ByStep(s, M.Next(cfg, s, e), e, step);
    case _ =>
  }

  lemma FreshIsLinked()
    ensures Linked(Fresh)
  {
    assert TokenAt(Fresh, 0);
  }

  lemma StepKeepsChain(cfg: Config, s: State, e: M.Event)
    requires M.Enabled(cfg, s, e) && ChainLinked(s)
    ensures ChainLinked(M.Next(cfg, s, e))
  {
    var s' := M.Next(cfg, s, e);
    StepMovesChain(cfg, s, e);
    FreshIsLinked();
    if s'.ctx.Some? && s.ctx.Some? && s'.ctx.value.chain != s.ctx.value.chain {
      var step :| ByStep(s, s', e, step);
      StepKeepsLinked(s.ctx.value.chain, step);
    }
  }

  /** What is said of the `i`-th transaction was said before, or this event tells it. */
  lemma SaidOrTold(cfg: Config, s: State, e: M.Event, i: nat, o: Outcome)
    requires M.Enabled(cfg, s, e) && ChainLinked(s)
    requires var s' := M.Next(cfg, s, e); s'.ctx.Some? && i < |s'.ctx.value.chain.txns| && Says(s'.ctx.value.chain, i, o)
    ensures s.ctx.Some?
    ensures var t := M.Next(cfg, s, e).ctx.value.chain.txns[i];
      || Tells(e, i, t, o)
      || (i < |s.ctx.value.chain.txns| && s.ctx.value.chain.txns[i] == t && Says(s.ctx.value.chain, i, o))
  {
    var s' := M.Next(cfg, s, e);
    StepMovesChain(cfg, s, e);
    if s.ctx.Some? && s'.ctx.value.chain != s.ctx.value.chain {
      var step :| ByStep(s, s', e, step);
      var k: nat :| TokenAt(s.ctx.value.chain, k);
      OutcomeIsOwn(s.ctx.value.chain, k, step, i, o);
    }
  }

  // ----- The history of an outcome -----

  /** The context is the same one after events `k` to `n`. */
  ghost predicate SameContext(cfg: Config, s: State, es: seq<M.Event>, k: nat, n: nat)
    requires n <= |es| && M.CanRun(cfg, s, es)
  {
    forall m :: k <= m <= n ==> At(cfg, s, es, m).ctx.Some?
  }

  /** Within the context that exists after `n` events, one of them told that `t`, its `i`-th transaction,
      came out as `o`. */
  ghost predicate Told(cfg: Config, s: State, es: seq<M.Event>, n: nat, i: nat, t: TxnContext, o: Outcome)
    requires n <= |es| && M.CanRun(cfg, s, es)
  {
    exists k :: 0 <= k < n && Tells(es[k], i, t, o) && ToldAt(cfg, s, es, k, n, i, t)
  }

  ghost predicate ToldAt(cfg: Config, s: State, es: seq<M.Event>, k: nat, n: nat, i: nat, t: TxnContext)
    requires k < n <= |es| && M.CanRun(cfg, s, es)
  {
    && SameContext(cfg, s, es, k, n)
    && i < |At(cfg, s, es, k + 1).ctx.value.chain.txns| && At(cfg, s, es, k + 1).ctx.value.chain.txns[i] == t
  }

  ghost predicate AllTold(cfg: Config, s: State, es: seq<M.Event>, n: nat)
    requires n <= |es| && M.CanRun(cfg, s, es)
  {
    var r := At(cfg, s, es, n);
    r.ctx.Some? ==>
      forall i: nat, o :: i < |r.ctx.value.chain.txns| && Says(r.ctx.value.chain, i, o) ==>
        Told(cfg, s, es, n, i, r.ctx.value.chain.txns[i], o)
  }

  lemma ToldLater(cfg: Config, s: State, es: seq<M.Event>, n: nat, i: nat, t: TxnContext, o: Outcome)
    requires n < |es| && M.CanRun(cfg, s, es) && Told(cfg, s, es, n, i, t, o) && At(cfg, s, es, n + 1).ctx.Some?
    ensures Told(cfg, s, es, n + 1, i, t, o)
  {
    var k :| 0 <= k < n && Tells(es[k], i, t, o) && ToldAt(cfg, s, es, k, n, i, t);
    assert ToldAt(cfg, s, es, k, n + 1, i, t);
  }

  lemma ToldStep(cfg: Config, s: State, es: seq<M.Event>, n: nat, i: nat, o: Outcome)
    requires n < |es| && M.CanRun(cfg, s, es) && ChainLinked(At(cfg, s, es, n)) && AllTold(cfg, s, es, n)
    requires var r := At(cfg, s, es, n + 1); r.ctx.Some? && i < |r.ctx.value.chain.txns| && Says(r.ctx.value.chain, i, o)
    ensures Told(cfg, s, es, n + 1, i, At(cfg, s, es, n + 1).ctx.value.chain.txns[i], o)
  {
    var t := At(cfg, s, es, n + 1).ctx.value.chain.txns[i];
    AtNext(cfg, s, es, n);
    SaidOrTold(cfg, At(cfg, s, es, n), es[n], i, o);
    if Tells(es[n], i, t, o) {
      assert ToldAt(cfg, s, es, n, n + 1, i, t);
    } else {
      ToldLater(cfg, s, es, n, i, t, o);
    }
  }

  lemma {:induction false} ToldAlways(cfg: Config, s: State, es: seq<M.Event>, n: nat)
    requires n <= |es| && M.CanRun(cfg, s, es) && s.ctx.None?
    ensures ChainLinked(At(cfg, s, es, n)) && AllTold(cfg, s, es, n)
  {
    if n > 0 {
      ToldAlways(cfg, s, es, n - 1);
      AtNext(cfg, s, es, n - 1);
      StepKeepsChain(cfg, At(cfg, s, es, n - 1), es[n - 1]);
      var r := At(cfg, s, es, n);
      if r.ctx.Some? {
        forall i: nat, o | i < |r.ctx.value.chain.txns| && Says(r.ctx.value.chain, i, o)
          ensures Told(cfg, s, es, n, i, r.ctx.value.chain.txns[i], o)
        {
          ToldStep(cfg, s, es, n - 1, i, o);
        }
      }
    }
  }

  // ----- The history of a commit -----

  /** The transaction whose commit is due is the one received last, and it was ingested. */
  predicate HandedOver(s: State) {
    s.prog.cur.sub.CommitPipelineTransaction? && !s.pc.Sealing? && s.ctx.Some? ==>
      && s.prog.mem.Some? && s.prog.mem.value.commitable.Some?
      && var taken := s.ctx.value.chain.taken;
      && taken != [] && taken[|taken| - 1] == TxnIngestResult(s.prog.mem.value.commitable.value, Ingested)
  }

  lemma TakeHandsOver(cfg: Config, s: State, take: bool, skipBinlog: bool)
    requires s.prog.cur.sub.CommitPipeline? && CommitPipelineStep(cfg, s, take, skipBinlog).pc != Fault
    ensures HandedOver(CommitPipelineStep(cfg, s, take, skipBinlog))
  {
  }

  lemma LaunchHandsNothing(cfg: Config, s: State, f: FetchReply, r: LaunchReply)
    requires s.prog.cur.sub.LaunchTransaction?
    ensures HandedOver(LaunchCaseStep(cfg, s, f, r))
  {
  }

  lemma OtherHandsNothing(cfg: Config, s: State, e: M.Event)
    requires PcOk(s) && M.Enabled(cfg, s, e) && HandedOver(s) && !e.LaunchCase? && !e.CommitPipelineCase?
    requires !M.Next(cfg, s, e).pc.Fault?
    ensures HandedOver(M.Next(cfg, s, e))
  {
  }

  lemma StepHandsOver(cfg: Config, s: State, e: M.Event)
    requires Inv(cfg, s) && M.Enabled(cfg, s, e) && HandedOver(s)
    ensures HandedOver(M.Next(cfg, s, e))
  {
    StepKeeps(cfg, s, e);
    match e
    case LaunchCase(f, r) => LaunchHandsNothing(cfg, s, f, r);
    case CommitPipelineCase(take, skip) => TakeHandsOver(cfg, s, take, skip);
    case _ => OtherHandsNothing(cfg, s, e);
  }

  lemma {:induction false} HandedAlways(cfg: Config, s: State, es: seq<M.Event>, n: nat)
    requires Init(cfg, s) && n <= |es| && M.CanRun(cfg, s, es)
    ensures Inv(cfg, At(cfg, s, es, n)) && HandedOver(At(cfg, s, es, n))
  {
    AtKeeps(cfg, s, es, n);
    if n > 0 {
      HandedAlways(cfg, s, es, n - 1);
      AtNext(cfg, s, es, n - 1);
      StepHandsOver(cfg, At(cfg, s, es, n - 1), es[n - 1]);
    }
  }

  /** Whenever a commit is made, the transaction is the one received last, its result says that the
      ingest succeeded, and within the same context the goroutine of that very transaction ended so. */
  lemma {:induction false} CommitsWereIngested(cfg: Config, s: State, es: seq<M.Event>, n: nat)
    requires Init(cfg, s) && M.CanRun(cfg, s, es) && n < |es| && es[n].CommitTxnCase?
    ensures var r := At(cfg, s, es, n);
      && r.ctx.Some? && r.prog.mem.Some? && r.prog.mem.value.commitable.Some?
      && var t, taken := r.prog.mem.value.commitable.value, r.ctx.value.chain.taken;
      && taken != [] && taken[|taken| - 1] == TxnIngestResult(t, Ingested)
      && exists k :: 0 <= k < n && es[k] == Goroutine(IngestEnds(|taken| - 1, Ingested)) && ToldAt(cfg, s, es, k, n, |taken| - 1, t)
  {
    HandedAlways(cfg, s, es, n);
    AtNext(cfg, s, es, n);
    ToldAlways(cfg, s, es, n);
    var r := At(cfg, s, es, n);
    var c := r.ctx.value.chain;
    var i := |c.taken| - 1;
    var k: nat :| TokenAt(c, k);
    assert (c.taken + c.ch)[i] == c.taken[i] && Says(c, i, Ingested);
    assert Told(cfg, s, es, n, i, c.txns[i], Ingested);
  }

  /** Along the first `n` events the goroutine of transaction `id` ended its ingest well. */
  ghost predicate WasIngested(cfg: Config, s: State, es: seq<M.Event>, n: nat, id: int)
    requires n <= |es| && M.CanRun(cfg, s, es)
  {
    exists k: nat, i: nat :: k < n && es[k] == Goroutine(IngestEnds(i, Ingested)) && IdAt(cfg, s, es, k + 1, i, id)
  }

  ghost predicate IdAt(cfg: Config, s: State, es: seq<M.Event>, n: nat, i: nat, id: int)
    requires n <= |es| && M.CanRun(cfg, s, es)
  {
    var r := At(cfg, s, es, n);
    r.ctx.Some? && i < |r.ctx.value.chain.txns| && r.ctx.value.chain.txns[i].txnId == id
  }

  lemma AskedIsDue(cfg: Config, s: State, e: M.Event)
    requires M.Enabled(cfg, s, e)
    ensures forall id :: id in M.Next(cfg, s, e).w.requested && id !in s.w.requested ==>
      e.CommitTxnCase? && s.prog.mem.Some? && s.prog.mem.value.commitable.Some? && s.prog.mem.value.commitable.value.txnId == id
  {
  }

  lemma {:induction false} AskedWereIngested(cfg: Config, s: State, es: seq<M.Event>, n: nat, id: int)
    requires Init(cfg, s) && M.CanRun(cfg, s, es) && n <= |es| && id in At(cfg, s, es, n).w.requested && id !in s.w.requested
    ensures WasIngested(cfg, s, es, n, id)
  {
    if n > 0 {
      var r := At(cfg, s, es, n - 1);
      AtNext(cfg, s, es, n - 1);
      if id in r.w.requested {
        AskedWereIngested(cfg, s, es, n - 1, id);
      } else {
        AskedIsDue(cfg, r, es[n - 1]);
        CommitsWereIngested(cfg, s, es, n - 1);
        var i := |r.ctx.value.chain.taken| - 1;
        var k :| 0 <= k < n - 1 && es[k] == Goroutine(IngestEnds(i, Ingested))
          && ToldAt(cfg, s, es, k, n - 1, i, r.prog.mem.value.commitable.value);
        assert IdAt(cfg, s, es, k + 1, i, id);
      }
    }
  }

  /** So every transaction committed along the run that was not asked to commit before it was ingested
      along the run. */
  lemma {:induction false} NoneCommittedUningested(cfg: Config, s: State, es: seq<M.Event>, id: int)
    requires Init(cfg, s) && M.CanRun(cfg, s, es) && id !in s.w.requested
    requires var w := M.Run(cfg, s, es).w; id in w.txns && w.txns[id].status.Committed?
    ensures WasIngested(cfg, s, es, |es|, id)
  {
    HandedAlways(cfg, s, es, |es|);
    AskedWereIngested(cfg, s, es, |es|, id);
  }
}
