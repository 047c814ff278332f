/** Whole runs of the upsert replay, read off their events: what went before a commit. */
module UpsertTrace {
  import opened Wrappers
  import opened Progress
  import opened Binlogs
  import opened UpsertReplay
  import U = UpsertReplay
  import W = Watermarks

  /** The state after the first `n` events. */
  ghost function At(log: seq<Entry>, syncType: SyncType, s: State, es: seq<Event>, n: nat): State
    requires n <= |es| && U.Run(log, syncType, s, es).Some?
    ensures n == 0 ==> At(log, syncType, s, es, n) == s
    ensures n == |es| ==> At(log, syncType, s, es, n) == U.Run(log, syncType, s, es).value
    decreases |es|
  {
    if n == 0 then s else At(log, syncType, U.Next(log, syncType, s, es[0]).value, es[1..], n - 1)
  }

  lemma {:induction false} AtNext(log: seq<Entry>, syncType: SyncType, s: State, es: seq<Event>, n: nat)
    requires n < |es| && U.Run(log, syncType, s, es).Some?
    ensures U.Next(log, syncType, At(log, syncType, s, es, n), es[n]) == Some(At(log, syncType, s, es, n + 1))
    decreases |es|
  {
    if n > 0 {
      AtNext(log, syncType, U.Next(log, syncType, s, es[0]).value, es[1..], n - 1);
    }
  }

  lemma {:induction false} AtKeeps(log: seq<Entry>, syncType: SyncType, start: Seq, s: State, es: seq<Event>, n: nat)
    requires Ordered(log) && Inv(log, start, s) && n <= |es| && U.Run(log, syncType, s, es).Some?
    ensures Inv(log, start, At(log, syncType, s, es, n))
    decreases |es|
  {
    if n > 0 {
      StepKeeps(log, syncType, start, s, es[0]);
      AtKeeps(log, syncType, start, U.Next(log, syncType, s, es[0]).value, es[1..], n - 1);
    }
  }

  /** The transaction the payload of a state names. */
  function Named(s: State): Option<int> {
    var m := Payload(s.prog);
    if m.Some? then Some(m.value.txnId) else None
  }

  /** Among the first `n` events one says that the load of transaction `t` succeeded. */
  ghost predicate Ingested(log: seq<Entry>, syncType: SyncType, s: State, es: seq<Event>, n: nat, t: int)
    requires n <= |es| && U.Run(log, syncType, s, es).Some?
  {
    exists k :: 0 <= k < n && es[k] == Ingest(IngestOk) && Named(At(log, syncType, s, es, k)) == Some(t)
  }

  /** After `n` events: a commit that is due has been earned, and so has every commit sent. */
  ghost predicate Earned(log: seq<Entry>, syncType: SyncType, s: State, es: seq<Event>, n: nat)
    requires n <= |es| && U.Run(log, syncType, s, es).Some?
  {
    var r := At(log, syncType, s, es, n);
    && (r.prog.cur.sub.CommitTransaction? ==> Named(r).Some? && Ingested(log, syncType, s, es, n, Named(r).value))
    && (forall t :: t in r.requested && t !in s.requested ==> Ingested(log, syncType, s, es, n, t))
    && (forall t :: t in r.txns && r.txns[t].status.Committed? ==>
          (t in s.txns && s.txns[t].status.Committed?) || (t in r.requested && t !in s.requested))
    && (forall t :: t in s.requested ==> t in r.txns && !r.txns[t].status.Prepared?)
  }

  /** The steps on the way to a commit, without the history. */
  lemma CommitIsEarned(log: seq<Entry>, syncType: SyncType, start: Seq, s: State, e: Event)
    requires Ordered(log) && Inv(log, start, s) && U.Next(log, syncType, s, e).Some?
    ensures var s' := U.Next(log, syncType, s, e).value;
      s'.prog.cur.sub.CommitTransaction? ==>
        Named(s').Some? && Named(s) == Named(s') && (s.prog.cur.sub.CommitTransaction? || e == Ingest(IngestOk))
  {
  }

  lemma RequestIsCommit(log: seq<Entry>, syncType: SyncType, s: State, e: Event)
    requires U.Next(log, syncType, s, e).Some?
    ensures var s' := U.Next(log, syncType, s, e).value;
      && (forall t :: t in s'.requested && t !in s.requested ==> s.prog.cur.sub.CommitTransaction? && Named(s) == Some(t))
      && s.requested <= s'.requested
  {
  }

  lemma CommittedWasAsked(log: seq<Entry>, syncType: SyncType, s: State, e: Event)
    requires U.Next(log, syncType, s, e).Some?
    ensures var s' := U.Next(log, syncType, s, e).value;
      forall t :: t in s'.txns && s'.txns[t].status.Committed? ==>
        (t in s.txns && s.txns[t].status.Committed?) || (t in s'.requested && t in s.txns && s.txns[t].status.Prepared?)
  {
  }

  lemma DecidedStays(log: seq<Entry>, syncType: SyncType, s: State, e: Event)
    requires U.Next(log, syncType, s, e).Some?
    ensures var s' := U.Next(log, syncType, s, e).value;
      forall t :: t in s.txns && !s.txns[t].status.Prepared? ==> t in s'.txns && s'.txns[t] == s.txns[t]
  {
  }

  lemma IngestedLater(log: seq<Entry>, syncType: SyncType, s: State, es: seq<Event>, n: nat)
    requires n < |es| && U.Run(log, syncType, s, es).Some?
    ensures forall t :: Ingested(log, syncType, s, es, n, t) ==> Ingested(log, syncType, s, es, n + 1, t)
  {
  }

  lemma EarnedStep(log: seq<Entry>, syncType: SyncType, start: Seq, s: State, es: seq<Event>, n: nat)
    requires Ordered(log) && n < |es| && U.Run(log, syncType, s, es).Some? && Inv(log, start, At(log, syncType, s, es, n))
    requires Earned(log, syncType, s, es, n)
    ensures Earned(log, syncType, s, es, n + 1)
  {
    var r, r' := At(log, syncType, s, es, n), At(log, syncType, s, es, n + 1);
    AtNext(log, syncType, s, es, n);
    CommitIsEarned(log, syncType, start, r, es[n]);
    RequestIsCommit(log, syncType, r, es[n]);
    CommittedWasAsked(log, syncType, r, es[n]);
    DecidedStays(log, syncType, r, es[n]);
    IngestedLater(log, syncType, s, es, n);
    if r'.prog.cur.sub.CommitTransaction? && !r.prog.cur.sub.CommitTransaction? {
      assert Ingested(log, syncType, s, es, n + 1, Named(r).value);
    }
  }

  lemma {:induction false} EarnedAlways(log: seq<Entry>, syncType: SyncType, start: Seq, s: State, es: seq<Event>, n: nat)
    requires Ordered(log) && Init(log, start, s) && n <= |es| && U.Run(log, syncType, s, es).Some?
    ensures Inv(log, start, At(log, syncType, s, es, n)) && Earned(log, syncType, s, es, n)
  {
    InitInv(log, start, s);
    AtKeeps(log, syncType, start, s, es, n);
    if n > 0 {
      EarnedAlways(log, syncType, start, s, es, n - 1);
      EarnedStep(log, syncType, start, s, es, n - 1);
    }
  }

  /** Whatever crashed or went unanswered in between: a commit is only ever sent for a transaction
      after its load was reported successful. */
  lemma {:induction false} CommitsWereIngested(log: seq<Entry>, syncType: SyncType, start: Seq, s: State, es: seq<Event>, n: nat)
    requires Ordered(log) && Init(log, start, s) && U.Run(log, syncType, s, es).Some? && n < |es| && es[n].Commit?
    ensures Payload(At(log, syncType, s, es, n).prog).Some?
    ensures Ingested(log, syncType, s, es, n, Payload(At(log, syncType, s, es, n).prog).value.txnId)
  {
    EarnedAlways(log, syncType, start, s, es, n);
    AtNext(log, syncType, s, es, n);
  }

  /** So every transaction committed along the run was ingested along the run. */
  lemma {:induction false} NoneCommittedUningested(log: seq<Entry>, syncType: SyncType, start: Seq, s: State, es: seq<Event>, t: int)
    requires Ordered(log) && Init(log, start, s) && U.Run(log, syncType, s, es).Some?
    requires var r := U.Run(log, syncType, s, es).value; t in r.txns && r.txns[t].status.Committed?
    requires t in s.txns ==> !s.txns[t].status.Committed?
    ensures Ingested(log, syncType, s, es, |es|, t)
  {
    EarnedAlways(log, syncType, start, s, es, |es|);
  }

  // ----- Nothing gets stuck -----

  ghost predicate Reaches(log: seq<Entry>, syncType: SyncType, s: State, es: seq<Event>, s': State) {
    U.Run(log, syncType, s, es) == Some(s')
  }

  lemma {:induction false} Then(log: seq<Entry>, syncType: SyncType, s: State, es: seq<Event>, s': State, e: Event)
    requires Reaches(log, syncType, s, es, s') && U.Next(log, syncType, s', e).Some?
    ensures Reaches(log, syncType, s, es + [e], U.Next(log, syncType, s', e).value)
    decreases |es|
  {
    if es == [] {
      assert es + [e] == [e] && [e][1..] == [];
    } else {
      assert (es + [e])[1..] == es[1..] + [e];
      Then(log, syncType, U.Next(log, syncType, s, es[0]).value, es[1..], s', e);
    }
  }

  predicate AtRest(s: State) { s.pc.Idle? && s.prog.cur.IsDone() }

  /** The reply that names the status the transaction has. */
  function TrueReply(status: Status): AbortReply {
    match status
    case Prepared => AbortOk
    case Committed => AlreadyCommitted
    case Aborted => AlreadyAborted
  }

  /** A transaction to be rolled back is, or is found committed and recorded. */
  lemma RollsBack(log: seq<Entry>, syncType: SyncType, start: Seq, s0: State, es0: seq<Event>, s: State)
    returns (es: seq<Event>, s': State)
    requires Reaches(log, syncType, s0, es0, s) && Inv(log, start, s)
    requires s.pc.Recovering? && s.prog.cur.sub.RollbackTransaction?
    ensures es0 <= es
    ensures Reaches(log, syncType, s0, es, s') && AtRest(s')
  {
    var m := Payload(s.prog).value;
    assert U.Named(s.prog.db, m.txnId);
    var e := Abort(TrueReply(s.txns[m.txnId].status));
    Then(log, syncType, s0, es0, s, e);
    es, s' := es0 + [e], U.Next(log, syncType, s, e).value;
    if s'.pc.Applied? {
      Then(log, syncType, s0, es, s', Seal);
      es, s' := es + [Seal], U.Next(log, syncType, s', Seal).value;
    }
  }

  lemma RecoverOnce(log: seq<Entry>, syncType: SyncType, start: Seq, s0: State, es0: seq<Event>, s: State)
    returns (es: seq<Event>, s': State)
    requires Reaches(log, syncType, s0, es0, s) && Inv(log, start, s) && s.pc.Idle? && !s.prog.cur.IsDone()
    ensures es0 <= es
    ensures Reaches(log, syncType, s0, es, s') && Inv(log, start, s')
    ensures if s.prog.cur.sub.IsUpsert() then s'.pc.Recovering? && s'.prog == s.prog else AtRest(s')
  {
    Then(log, syncType, s0, es0, s, Recover);
    RecoverKeeps(log, syncType, start, s);
    es, s' := es0 + [Recover], U.Next(log, syncType, s, Recover).value;
  }

  /** Giving an ingest or a commit up leaves a transaction to be rolled back. */
  lemma GivesUp(log: seq<Entry>, syncType: SyncType, start: Seq, s0: State, es0: seq<Event>, s: State)
    returns (es: seq<Event>, s': State)
    requires Ordered(log) && Reaches(log, syncType, s0, es0, s) && Inv(log, start, s)
    requires s.pc.Recovering? && (s.prog.cur.sub.IngestBinlog? || s.prog.cur.sub.CommitTransaction?)
    ensures es0 <= es
    ensures Reaches(log, syncType, s0, es, s') && Inv(log, start, s')
    ensures s'.pc.Idle? && s'.prog.cur.sub.RollbackTransaction?
  {
    assert U.Named(s.prog.db, Payload(s.prog).value.txnId);
    var e := if s.prog.cur.sub.IngestBinlog? then Ingest(IngestFailed) else Commit(false, false);
    Then(log, syncType, s0, es0, s, e);
    StepKeeps(log, syncType, start, s, e);
    es, s' := es0 + [e], U.Next(log, syncType, s, e).value;
  }

  /** From an upsert being recovered. */
  lemma RecoversUpsert(log: seq<Entry>, syncType: SyncType, start: Seq, s0: State, es0: seq<Event>, s: State)
    returns (es: seq<Event>, s': State)
    requires Ordered(log) && Reaches(log, syncType, s0, es0, s) && Inv(log, start, s)
    requires s.pc.Recovering? && !s.prog.cur.sub.BeginTransaction?
    ensures es0 <= es
    ensures Reaches(log, syncType, s0, es, s') && AtRest(s')
  {
    if s.prog.cur.sub.RollbackTransaction? {
      es, s' := RollsBack(log, syncType, start, s0, es0, s);
    } else {
      es, s' := GivesUp(log, syncType, start, s0, es0, s);
      es, s' := RecoverOnce(log, syncType, start, s0, es, s');
      es, s' := RollsBack(log, syncType, start, s0, es, s');
    }
  }

  lemma CrashIsIdle(log: seq<Entry>, syncType: SyncType, start: Seq, s: State)
    requires Inv(log, start, s) && !s.pc.Left?
    ensures var r := U.Next(log, syncType, s, Crash);
      r.Some? && r.value.pc.Idle? && !r.value.prog.cur.sub.BeginTransaction? && Inv(log, start, r.value)
  {
    CrashKeeps(log, syncType, start, s);
  }

  /** Wherever the process dies, the job can come to rest again, ready for the next binlog. */
  lemma {:induction false} ComesToRest(log: seq<Entry>, syncType: SyncType, start: Seq, s: State, es: seq<Event>)
    returns (fs: seq<Event>, s': State)
    requires Ordered(log) && Init(log, start, s) && U.Run(log, syncType, s, es).Some? && !U.Run(log, syncType, s, es).value.pc.Left?
    ensures Reaches(log, syncType, s, fs, s') && es + [Crash] <= fs && AtRest(s')
  {
    InitInv(log, start, s);
    RunKeeps(log, syncType, start, s, es);
    var r := U.Run(log, syncType, s, es).value;
    CrashIsIdle(log, syncType, start, r);
    Then(log, syncType, s, es, r, Crash);
    fs, s' := es + [Crash], U.Next(log, syncType, r, Crash).value;
    if !s'.prog.cur.IsDone() {
      fs, s' := RecoverOnce(log, syncType, start, s, fs, s');
      if s'.pc.Recovering? {
        fs, s' := RecoversUpsert(log, syncType, start, s, fs, s');
      }
    }
  }

  // ----- One upsert from start to end -----

  /** The row after an upsert with relevant records: positions at the binlog, the tables it wrote raised,
      and the watermarks dropped if that was the last they had to hold back. */
  function RowAfter<D>(syncType: SyncType, r: Row<D>, c: Seq, ids: set<int>): Row<D> {
    RowPassed(syncType, r.(tables := if syncType.DBSync? then W.Raised(r.tables, ids, c) else r.tables), c)
  }

  /** The row after a binlog that writes no table of its own. */
  function RowPassed<D>(syncType: SyncType, r: Row<D>, c: Seq): Row<D> {
    W.AfterHandle(syncType, r.(sub := Done, prev := c, commit := c, last := c), c)
  }

  lemma ToCommit(log: seq<Entry>, syncType: SyncType, s: State, i: nat, ids: set<int>, id: int) returns (es: seq<Event>, s': State)
    requires AtRest(s) && IsNext(log, s.prog.cur.commit, i) && log[i].kind.Upsert? && id !in s.txns
    ensures Reaches(log, syncType, s, es, s')
    ensures var d := Data(log[i].at, id, ids); var c := log[i].at;
      && s'.pc == Handling(i, false) && s'.prog.mem == Some(d)
      && s'.prog.cur == s.prog.cur.(commit := c, last := c, sub := CommitTransaction, data := Some(d))
      && s'.txns == s.txns[id := Txn(c, Prepared)] && s'.skipped == s.skipped
  {
    es, s' := [], s;
    Then(log, syncType, s, es, s', Fetch(i));
    es, s' := es + [Fetch(i)], U.Next(log, syncType, s', Fetch(i)).value;
    Then(log, syncType, s, es, s', Judge(Some(ids)));
    es, s' := es + [Judge(Some(ids))], U.Next(log, syncType, s', Judge(Some(ids))).value;
    Then(log, syncType, s, es, s', Begin(id, BeginOk));
    es, s' := es + [Begin(id, BeginOk)], U.Next(log, syncType, s', Begin(id, BeginOk)).value;
    Then(log, syncType, s, es, s', Ingest(IngestOk));
    es, s' := es + [Ingest(IngestOk)], U.Next(log, syncType, s', Ingest(IngestOk)).value;
  }

  lemma Commits(log: seq<Entry>, syncType: SyncType, s0: State, es0: seq<Event>, s: State, i: nat, d: Data) returns (es: seq<Event>, s': State)
    requires Reaches(log, syncType, s0, es0, s) && i < |log|
    requires s.pc == Handling(i, false) && s.prog.mem == Some(d) && s.prog.cur.sub.CommitTransaction?
    requires d.txnId in s.txns && s.txns[d.txnId].status.Prepared?
    ensures Reaches(log, syncType, s0, es, s') && s'.pc == Handled(i, false) && s'.txns == SetStatus(s.txns, d.txnId, Committed)
    ensures s'.prog.cur == s.prog.cur.(sub := Done, prev := s.prog.cur.commit,
                             tables := if syncType.DBSync? then W.Raised(s.prog.cur.tables, d.destTables, s.prog.cur.commit) else s.prog.cur.tables)
    ensures s'.skipped == s.skipped
  {
    Then(log, syncType, s0, es0, s, Commit(true, true));
    es, s' := es0 + [Commit(true, true)], U.Next(log, syncType, s, Commit(true, true)).value;
    NothingToRaise(s.prog.cur.tables, d.destTables, s.prog.cur.commit);
    Then(log, syncType, s0, es, s', Seal);
    es, s' := es + [Seal], U.Next(log, syncType, s', Seal).value;
  }

  lemma NothingToRaise(tables: W.Marks, ids: set<int>, c: Seq)
    ensures tables.None? || |tables.value| == 0 ==> W.Raised(tables, ids, c) == tables
  {
    if tables.Some? && |tables.value| == 0 {
      assert tables.value == map[] && W.Raised(tables, ids, c).value.Keys == {};
    }
  }

  /** From rest, an upsert with relevant records can be replayed to its end: its one transaction is
      committed, nothing else at the destination changes, and the row is the one stated. */
  lemma {:induction false} UpsertGetsThrough(log: seq<Entry>, syncType: SyncType, s: State, i: nat, ids: set<int>, id: int)
    returns (es: seq<Event>, s': State)
    requires AtRest(s) && IsNext(log, s.prog.cur.commit, i) && log[i].kind.Upsert? && id !in s.txns
    ensures Reaches(log, syncType, s, es, s') && AtRest(s') && s'.skipped == s.skipped
    ensures s'.txns == s.txns[id := Txn(log[i].at, Committed)]
    ensures s'.prog.cur == RowAfter(syncType, s.prog.cur, log[i].at, ids).(data := Some(Data(log[i].at, id, ids)))
  {
    es, s' := ToCommit(log, syncType, s, i, ids, id);
    es, s' := Commits(log, syncType, s, es, s', i, Data(log[i].at, id, ids));
    Then(log, syncType, s, es, s', FinishHandle);
    es, s' := es + [FinishHandle], U.Next(log, syncType, s', FinishHandle).value;
  }

  /** And one without relevant records passes, leaving the destination alone. */
  lemma {:induction false} IrrelevantPasses(log: seq<Entry>, syncType: SyncType, s: State, i: nat) returns (es: seq<Event>, s': State)
    requires AtRest(s) && IsNext(log, s.prog.cur.commit, i) && log[i].kind.Upsert?
    ensures Reaches(log, syncType, s, es, s') && AtRest(s') && s'.txns == s.txns && s'.skipped == s.skipped + {log[i].at}
    ensures s'.prog.cur == RowPassed(syncType, s.prog.cur, log[i].at)
  {
    es, s' := [], s;
    Then(log, syncType, s, es, s', Fetch(i));
    es, s' := es + [Fetch(i)], U.Next(log, syncType, s', Fetch(i)).value;
    Then(log, syncType, s, es, s', Judge(None));
    es, s' := es + [Judge(None)], U.Next(log, syncType, s', Judge(None)).value;
    Then(log, syncType, s, es, s', FinishHandle);
    es, s' := es + [FinishHandle], U.Next(log, syncType, s', FinishHandle).value;
  }
}
