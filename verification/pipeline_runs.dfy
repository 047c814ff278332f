/** Runs of the pipelined replay: a skipped upsert judged twice, and one phase leading to the next. */
module PipelineRuns {
  import opened Wrappers
  import opened Progress
  import opened Binlogs
  import opened TxnLinks
  import opened Pipeline
  import opened PipelineSafety
  import L = TxnLinks
  import M = Pipeline
  import U = UpsertReplay

  lemma RunCons(cfg: Config, s: State, e: M.Event, es: seq<M.Event>)
    requires M.Enabled(cfg, s, e) && M.CanRun(cfg, M.Next(cfg, s, e), es)
    ensures M.CanRun(cfg, s, [e] + es) && M.Run(cfg, s, [e] + es) == M.Run(cfg, M.Next(cfg, s, e), es)
  {
    assert ([e] + es)[1..] == es;
  }

  lemma {:induction false} RunConcat(cfg: Config, s: State, es: seq<M.Event>, fs: seq<M.Event>)
    requires M.CanRun(cfg, s, es) && M.CanRun(cfg, M.Run(cfg, s, es), fs)
    ensures M.CanRun(cfg, s, es + fs) && M.Run(cfg, s, es + fs) == M.Run(cfg, M.Run(cfg, s, es), fs)
    decreases |es|
  {
    if es == [] {
      assert es + fs == fs;
    } else {
      RunConcat(cfg, M.Next(cfg, s, es[0]), es[1..], fs);
      RunCons(cfg, s, es[0], es[1..] + fs);
      assert es + fs == [es[0]] + (es[1..] + fs);
    }
  }

  /** Nothing is going on, and the next binlog is the upsert `log[i]`. */
  predicate Settling(cfg: Config, s: State, i: nat) {
    && IsNext(cfg.log, s.prog.cur.prev, i) && cfg.log[i].kind.Upsert? && cfg.max >= 1
    && s.pc.Idle? && s.ctx.None? && s.prog.cur.IsDone() && !s.trigger
  }

  // ----- A skipped upsert is judged again -----

  function Skipping(i: nat): M.Event { LaunchCase(Fetched(i, 1), Irrelevant) }

  /** From the head of the loop with nothing going on, the next upsert is fetched and skipped. */
  lemma SkipNext(cfg: Config, s: State, i: nat)
    requires IsNext(cfg.log, s.prog.cur.prev, i) && cfg.log[i].kind.Upsert? && cfg.max >= 1
    requires s.pc.Loop? && s.ctx.None? && s.prog.cur.IsDone() && !s.trigger
    ensures var es := [DoneCase(NoSkip)] + [Skipping(i)];
      && M.CanRun(cfg, s, es)
      && var s' := M.Run(cfg, s, es);
      && s'.pc.Loop? && s'.prog.cur.sub.CommitPipeline? && s'.prog.mem == Some(NoTxns) && !s'.trigger && s'.hasMore
      && s'.ctx == Some(Ctx(cfg.log[i].at, [], false, Fresh)) && cfg.log[i].at in s'.w.judged
      && s'.prog.cur.prev == s'.prog.cur.commit == s.prog.cur.prev && s'.prog.db == s.prog.db
  {
    var s1 := M.Next(cfg, s, DoneCase(NoSkip));
    assert [Skipping(i)] + [] == [Skipping(i)];
    assert cfg.log[i..i + 1][1..] == [];
    RunCons(cfg, s1, Skipping(i), []);
    RunCons(cfg, s, DoneCase(NoSkip), [Skipping(i)]);
  }

  const Yield: seq<M.Event> := [CommitPipelineCase(false, false)] + ([LaunchCase(NoneNew(false), BuildFailed)] + [CommitPipelineCase(false, false)])

  /** With nothing more in the log the pipeline yields. */
  lemma YieldNext(cfg: Config, s: State)
    requires s.pc.Loop? && s.prog.cur.sub.CommitPipeline? && s.prog.mem == Some(NoTxns) && !s.trigger && s.hasMore && cfg.max >= 1
    requires s.ctx.Some? && s.ctx.value.queue == [] && !s.ctx.value.close && s.ctx.value.chain == Fresh
    requires s.prog.cur.prev == s.prog.cur.commit <= s.ctx.value.next
    ensures M.CanRun(cfg, s, Yield)
    ensures var s' := M.Run(cfg, s, Yield);
      && s'.pc.Idle? && !s'.trigger && s'.w == s.w && s'.prog.db == s'.prog.cur && s'.prog.cur.sub.CommitPipeline?
      && s'.prog.cur.data == Some(NoTxns) && s'.prog.cur.prev == s'.prog.cur.commit == s.prog.cur.prev
  {
    var s1 := M.Next(cfg, s, CommitPipelineCase(false, false));
    var s2 := M.Next(cfg, s1, LaunchCase(NoneNew(false), BuildFailed));
    assert [CommitPipelineCase(false, false)] + [] == [CommitPipelineCase(false, false)];
    RunCons(cfg, s2, CommitPipelineCase(false, false), []);
    RunCons(cfg, s1, LaunchCase(NoneNew(false), BuildFailed), [CommitPipelineCase(false, false)]);
    RunCons(cfg, s, CommitPipelineCase(false, false), [LaunchCase(NoneNew(false), BuildFailed)] + [CommitPipelineCase(false, false)]);
  }

  const Restart: seq<M.Event> := [Crash(false)] + ([Enter] + ([RollbackCase] + [RollbackEnd]))

  /** A crash while the pipeline is idle, and the rollback of its empty list. */
  lemma RestartNext(cfg: Config, s: State)
    requires s.pc.Idle? && s.prog.db == s.prog.cur && s.prog.cur.sub.CommitPipeline? && s.prog.cur.data == Some(NoTxns)
    requires s.prog.cur.prev == s.prog.cur.commit
    ensures M.CanRun(cfg, s, Restart)
    ensures var s' := M.Run(cfg, s, Restart);
      s'.pc.Loop? && s'.ctx.None? && s'.prog.cur.IsDone() && !s'.trigger && s'.prog.cur.prev == s.prog.cur.prev && s'.w == s.w
  {
    var s1 := M.Next(cfg, s, Crash(false));
    var s2 := M.Next(cfg, s1, Enter);
    var s3 := M.Next(cfg, s2, RollbackCase);
    assert [RollbackEnd] + [] == [RollbackEnd];
    RunCons(cfg, s3, RollbackEnd, []);
    RunCons(cfg, s2, RollbackCase, [RollbackEnd]);
    RunCons(cfg, s1, Enter, [RollbackCase] + [RollbackEnd]);
    RunCons(cfg, s, Crash(false), [Enter] + ([RollbackCase] + [RollbackEnd]));
  }

  /** A skipped upsert is judged once more after every restart: it is skipped, the pipeline yields and
      stores its positions, the process crashes, and the same upsert is fetched and skipped again. */
  lemma {:induction false} SkippedIsJudgedAgain(cfg: Config, s: State, i: nat) returns (es: seq<M.Event>, fs: seq<M.Event>)
    requires Init(cfg, s) && Settling(cfg, s, i)
    ensures es == [Enter] + ([DoneCase(NoSkip)] + [Skipping(i)]) + Yield && fs == Restart + ([DoneCase(NoSkip)] + [Skipping(i)])
    ensures M.CanRun(cfg, s, es) && M.CanRun(cfg, M.Run(cfg, s, es), fs)
    ensures var yielded := M.Run(cfg, s, es);
      && cfg.log[i].at in yielded.w.judged && yielded.pc.Idle?
      && yielded.prog.db.prev == yielded.prog.db.commit == s.prog.db.prev < cfg.log[i].at
  {
    var skip := [DoneCase(NoSkip)] + [Skipping(i)];
    var s0 := M.Next(cfg, s, Enter);
    SkipNext(cfg, s0, i);
    RunCons(cfg, s, Enter, skip);
    var s1 := M.Run(cfg, s, [Enter] + skip);
    YieldNext(cfg, s1);
    RunConcat(cfg, s, [Enter] + skip, Yield);
    es := [Enter] + skip + Yield;
    var s2 := M.Run(cfg, s, es);
    RestartNext(cfg, s2);
    var s3 := M.Run(cfg, s2, Restart);
    SkipNext(cfg, s3, i);
    RunConcat(cfg, s2, Restart, skip);
    fs := Restart + skip;
  }

  // ----- From one phase to the next -----

  /** Replay resumes after a snapshot took over: from a fresh row at or after the done position, with
      every upsert the new position skips in the snapshot, and nothing else changed. */
  ghost predicate Resumes(cfg: Config, left: State, s: State) {
    && s.pc.Idle? && s.ctx.None? && s.prog.cur.IsDone() && s.prog.db == s.prog.cur
    && s.prog.cur.data.None? && s.prog.mem.None? && s.prog.cur.prev >= left.prog.cur.prev
    && s.w.txns == left.w.txns && s.w.requested == left.w.requested && left.w.judged <= s.w.judged
    && (forall k :: 0 <= k < |cfg.log| && cfg.log[k].kind.Upsert? && left.prog.cur.commit < cfg.log[k].at <= s.prog.cur.prev ==>
          cfg.log[k].at in s.w.judged)
  }

  /** Every phase of replay hands the next one a start that all these results hold from. */
  lemma {:induction false} PhasesChain(cfg: Config, s: State, es: seq<M.Event>, next: State)
    requires Init(cfg, s) && M.CanRun(cfg, s, es) && M.Run(cfg, s, es).pc.Left? && Resumes(cfg, M.Run(cfg, s, es), next)
    ensures Init(cfg, next)
  {
    RunKeeps(cfg, s, es);
    var left := M.Run(cfg, s, es);
    BarrierSame(cfg.log, left.w, next.w, left.prog.cur.prev);
    BarrierMore(cfg.log, next.w, left.prog.cur.prev, next.prog.cur.prev);
    assert CommittedSeqs(next.w) == CommittedSeqs(left.w);
  }
}
