/** Whole runs of full and partial sync, read off their events: what went before each step, and what
    the alias map holds. */
module SnapshotTrace {
  import opened Wrappers
  import opened Progress
  import opened Snapshots
  import opened AliasSwap
  import S = Snapshots

  /** The state after the first `n` events. */
  ghost function At(s: State, es: seq<Event>, n: nat): State
    requires n <= |es| && CanRun(s, es)
    ensures n == 0 ==> At(s, es, n) == s
    ensures n == |es| ==> At(s, es, n) == Run(s, es)
    decreases |es|
  {
    if n == 0 then s else At(S.Next(s, es[0]), es[1..], n - 1)
  }

  lemma {:induction false} AtNext(s: State, es: seq<Event>, n: nat)
    requires n < |es| && CanRun(s, es)
    ensures Enabled(At(s, es, n), es[n]) && S.Next(At(s, es, n), es[n]) == At(s, es, n + 1)
    decreases |es|
  {
    if n > 0 {
      AtNext(S.Next(s, es[0]), es[1..], n - 1);
    }
  }

  lemma {:induction false} AtKeeps(s: State, es: seq<Event>, n: nat)
    requires S.Inv(s) && n <= |es| && CanRun(s, es)
    ensures S.Inv(At(s, es, n))
    decreases |es|
  {
    if n > 0 {
      StepKeeps(s, es[0]);
      AtKeeps(S.Next(s, es[0]), es[1..], n - 1);
    }
  }

  predicate Syncing(s: State) { !IsIncremental(s.prog.cur.sync) }

  predicate AtBegin(s: State) { Syncing(s) && s.prog.cur.sub.BeginCreateSnapshot? }

  /** After `b` events the sync stood at its beginning, and not since. */
  ghost predicate SinceBegin(s: State, es: seq<Event>, b: nat, n: nat)
    requires n <= |es| && CanRun(s, es)
  {
    b <= n && AtBegin(At(s, es, b)) && forall m :: b < m <= n ==> !AtBegin(At(s, es, m))
  }

  lemma {:induction false} LastBegin(s: State, es: seq<Event>, n: nat) returns (b: nat)
    requires AtBegin(s) && n <= |es| && CanRun(s, es)
    ensures SinceBegin(s, es, b, n)
  {
    if AtBegin(At(s, es, n)) {
      b := n;
    } else {
      b := LastBegin(s, es, n - 1);
    }
  }

  // ----- No step is skipped -----

  function Stage(sub: SubState): nat {
    match sub
    case WaitBackupDone => 1
    case GetSnapshotInfo => 2
    case AddExtraInfo => 3
    case RestoreSnapshot => 4
    case WaitRestoreDone => 5
    case PersistRestoreInfo => 6
    case _ => 0
  }

  /** The stage that the good outcome of a step opens. */
  predicate Opens(e: Event, stage: nat) {
    || (stage == 1 && e.Begin? && e.name.Some?)
    || (stage == 2 && e == WaitBackup(BackupDone))
    || (stage == 3 && e.GetInfo? && e.info.Info?)
    || (stage == 4 && e == AddExtra(true))
    || (stage == 5 && e.Restore? && e.job.Some?)
    || (stage == 6 && e.WaitRestore? && e.restore.RestoreDone?)
  }

  /** What a crash goes back to: the beginning until the backup is done, then the snapshot's info until
      the restore is done. */
  predicate Kept(p: Prog<Payload>) {
    && Stage(p.db.sub) == (if Stage(p.cur.sub) < 2 then 0 else if Stage(p.cur.sub) < 6 then 2 else 6)
    && (Stage(p.cur.sub) == 0 ==> p.cur.sub.BeginCreateSnapshot?)
    && (Stage(p.cur.sub) == 1 ==> p.mem.Some? && p.mem.value.Name?)
    && (2 <= Stage(p.cur.sub) <= 5 ==> p.cur.data == p.db.data && p.db.data.Some? && p.db.data.value.Name?)
    && (3 <= Stage(p.cur.sub) <= 5 ==> p.mem.Some? && HasSnapshot(p.mem.value, SnapshotName(p)))
  }

  /** The snapshot being taken or restored. */
  function SnapshotName(p: Prog<Payload>): string {
    if Stage(p.cur.sub) == 1 && p.mem.Some? && p.mem.value.Name? then p.mem.value.name
    else if p.db.data.Some? && p.db.data.value.Name? then p.db.data.value.name
    else ""
  }

  predicate HasSnapshot(d: Payload, name: string) {
    (d.FullData? || d.PartialData?) && d.snapshot == name
  }

  /** A step keeps what is stored in keeping, and moves on by at most the stage its event opens. */
  predicate StageStep(s: State, e: Event, s': State) {
    Syncing(s') ==>
      && Kept(s'.prog)
      && var j, j' := Stage(s.prog.cur.sub), Stage(s'.prog.cur.sub);
      && (j' <= j || (j' == j + 1 && Opens(e, j')))
      && (1 <= j' <= 5 ==> if j == 0 then e == Begin(Some(SnapshotName(s'.prog))) else SnapshotName(s'.prog) == SnapshotName(s.prog))
  }

  lemma NewSnapshotStage(s: State, e: Event, c: Seq)
    ensures StageStep(s, e, NewSnapshot(s, c))
  {
  }

  lemma NewPartialStage(s: State, e: Event, d: PartialSyncData, alias: Option<string>)
    requires Syncing(s) ==> Kept(s.prog)
    ensures Syncing(s) ==> StageStep(s, e, NewPartialSnapshot(s, d, alias))
    ensures AtBegin(NewPartialSnapshot(s, d, alias)) || NewPartialSnapshot(s, d, alias) == s
  {
  }

  lemma SharedStage(s: State, e: Event, full: bool)
    requires Syncing(s) && Kept(s.prog) && Handles(s.prog.cur.sub, e)
    ensures e.Begin? ==> StageStep(s, e, BeginStep(s, e.name))
    ensures e.WaitBackup? ==> StageStep(s, e, WaitBackupStep(s, e.backup))
    ensures e.AddExtra? ==> StageStep(s, e, AddExtraStep(s, full, e.ok))
    ensures e.Restore? ==> StageStep(s, e, RestoreStep(s, full, e.job))
  {
  }

  lemma FullStage(s: State, e: Event)
    requires IsFull(s.prog.cur.sync) && Kept(s.prog) && Handles(s.prog.cur.sub, e)
    ensures e.GetInfo? ==> StageStep(s, e, FullInfoStep(s, e.info))
    ensures e.WaitRestore? ==> StageStep(s, e, FullWaitRestoreStep(s, e.restore))
  {
    NewSnapshotStage(s, e, s.prog.cur.commit);
  }

  lemma FinishStage(s: State, e: Event)
    requires Syncing(s) && Kept(s.prog) && e.PersistInfo? && Handles(s.prog.cur.sub, e)
    ensures IsFull(s.prog.cur.sync) ==> StageStep(s, e, FullFinishStep(s, e.finish))
    ensures IsPartial(s.prog.cur.sync) ==> StageStep(s, e, PartialFinishStep(s, e.finish))
  {
  }

  lemma PartialInfoStage(s: State, e: Event)
    requires IsPartial(s.prog.cur.sync) && Kept(s.prog) && Handles(s.prog.cur.sub, e)
    ensures e.GetInfo? ==> StageStep(s, e, PartialInfoStep(s, e.info))
  {
    if e.GetInfo? && s.prog.cur.partial.Some? && e.info.SnapshotGone? {
      PartialRestartStage(s, e);
    }
  }

  lemma PartialStage(s: State, e: Event)
    requires IsPartial(s.prog.cur.sync) && Kept(s.prog) && Handles(s.prog.cur.sub, e)
    ensures e.WaitRestore? ==> StageStep(s, e, PartialWaitRestoreStep(s, e.restore))
  {
    if e.WaitRestore? && s.prog.cur.partial.Some? {
      PartialRestartStage(s, e);
    }
  }

  lemma PartialRestartStage(s: State, e: Event)
    requires IsPartial(s.prog.cur.sync) && Kept(s.prog) && s.prog.cur.partial.Some?
    ensures forall d, alias :: StageStep(s, e, NewPartialSnapshot(s, d, alias))
  {
    forall d, alias ensures StageStep(s, e, NewPartialSnapshot(s, d, alias)) {
      NewPartialStage(s, e, d, alias);
    }
  }

  lemma FullStepStage(s: State, e: Event)
    requires Enabled(s, e) && IsFull(s.prog.cur.sync) && Kept(s.prog) && !e.Crash? && !e.MetaError?
    ensures StageStep(s, e, S.Next(s, e))
  {
    SharedStage(s, e, true);
    if e.PersistInfo? {
      FinishStage(s, e);
    } else {
      FullStage(s, e);
    }
  }

  lemma PartialStepStage(s: State, e: Event)
    requires Enabled(s, e) && IsPartial(s.prog.cur.sync) && Kept(s.prog) && !e.Crash? && !e.MetaError?
    ensures StageStep(s, e, S.Next(s, e))
  {
    if s.prog.cur.partial.Some? {
      SharedStage(s, e, false);
      if e.PersistInfo? {
        FinishStage(s, e);
      }
      PartialInfoStage(s, e);
      PartialStage(s, e);
      PartialRestartStage(s, e);
    }
  }

  lemma StepStage(s: State, e: Event)
    requires S.Inv(s) && Enabled(s, e) && Syncing(s) && Kept(s.prog)
    ensures StageStep(s, e, S.Next(s, e))
  {
    if e.MetaError? {
      NewSnapshotStage(s, e, s.prog.cur.commit);
    } else if IsFull(s.prog.cur.sync) && !e.Crash? {
      FullStepStage(s, e);
    } else if !e.Crash? {
      PartialStepStage(s, e);
    }
  }

  lemma StartStage(s: State, e: Event)
    requires S.Inv(s) && Enabled(s, e) && !Syncing(s) && Syncing(S.Next(s, e))
    ensures AtBegin(S.Next(s, e)) && Kept(S.Next(s, e).prog)
  {
    if e.StartFull? {
      NewSnapshotStage(s, e, e.commitSeq);
    } else if e.StartPartial? {
      NewPartialStage(s, e, e.partial, e.replacing);
    }
  }

  lemma {:induction false} KeptAlways(s: State, es: seq<Event>, n: nat)
    requires S.Init(s) && n <= |es| && CanRun(s, es)
    ensures S.Inv(At(s, es, n)) && (Syncing(At(s, es, n)) ==> Kept(At(s, es, n).prog))
  {
    AtKeeps(s, es, n);
    if n > 0 {
      KeptAlways(s, es, n - 1);
      AtNext(s, es, n - 1);
      var r := At(s, es, n - 1);
      if Syncing(r) {
        StepStage(r, es[n - 1]);
      } else if Syncing(At(s, es, n)) {
        StartStage(r, es[n - 1]);
      }
    }
  }

  /** Among the events from `b` to `n` is one that opened the stage. */
  ghost predicate Passed(es: seq<Event>, b: nat, n: nat, stage: nat)
    requires n <= |es|
  {
    exists k :: b <= k < n && Opens(es[k], stage)
  }

  ghost predicate Named(es: seq<Event>, b: nat, n: nat, name: string)
    requires n <= |es|
  {
    exists k :: b <= k < n && es[k] == Begin(Some(name))
  }

  /** Between two stands at the beginning the sync is never left. */
  lemma StillSyncing(s: State, es: seq<Event>, n: nat)
    requires S.Init(s) && n < |es| && CanRun(s, es) && Syncing(At(s, es, n + 1)) && !AtBegin(At(s, es, n + 1))
    ensures Syncing(At(s, es, n))
  {
    KeptAlways(s, es, n);
    AtNext(s, es, n);
    if !Syncing(At(s, es, n)) {
      StartStage(At(s, es, n), es[n]);
    }
  }

  ghost predicate Earned(es: seq<Event>, b: nat, n: nat, p: Prog<Payload>)
    requires n <= |es|
  {
    && (forall j :: 1 <= j <= Stage(p.cur.sub) ==> Passed(es, b, n, j))
    && (1 <= Stage(p.cur.sub) <= 5 ==> Named(es, b, n, SnapshotName(p)))
  }

  lemma EarnedStep(es: seq<Event>, b: nat, n: nat, s: State, s': State)
    requires b <= n < |es| && Earned(es, b, n, s.prog) && StageStep(s, es[n], s') && Syncing(s')
    requires Stage(s.prog.cur.sub) == 6 ==> Stage(s'.prog.cur.sub) in {0, 6}
    ensures Earned(es, b, n + 1, s'.prog)
  {
    var after := n + 1;
    forall j | 1 <= j <= Stage(s'.prog.cur.sub) ensures Passed(es, b, after, j) {
      if j <= Stage(s.prog.cur.sub) {
        assert Passed(es, b, n, j);
      }
    }
    if 1 <= Stage(s'.prog.cur.sub) <= 5 && Stage(s.prog.cur.sub) != 0 {
      assert Named(es, b, n, SnapshotName(s.prog));
    }
  }

  /** Nothing leads back from the last step but a new beginning. */
  lemma LastStays(s: State, e: Event)
    requires Enabled(s, e) && Syncing(s) && Kept(s.prog) && Stage(s.prog.cur.sub) == 6 && Syncing(S.Next(s, e))
    ensures Stage(S.Next(s, e).prog.cur.sub) in {0, 6}
  {
  }

  /** Whatever failed, was repeated or crashed: every step a sync has behind it had its good outcome
      since the sync began, and the snapshot it works on is the one whose backup was begun then. */
  lemma {:induction false} StagesPassed(s: State, es: seq<Event>, b: nat, n: nat)
    requires S.Init(s) && n <= |es| && CanRun(s, es) && SinceBegin(s, es, b, n) && Syncing(At(s, es, n))
    ensures var p := At(s, es, n).prog;
      && (forall j :: 1 <= j <= Stage(p.cur.sub) ==> Passed(es, b, n, j))
      && (1 <= Stage(p.cur.sub) <= 5 ==> Named(es, b, n, SnapshotName(p)))
  {
    if b < n {
      var r, e := At(s, es, n - 1), es[n - 1];
      StillSyncing(s, es, n - 1);
      KeptAlways(s, es, n - 1);
      AtNext(s, es, n - 1);
      StagesPassed(s, es, b, n - 1);
      StepStage(r, e);
      if Stage(r.prog.cur.sub) == 6 {
        LastStays(r, e);
      }
      EarnedStep(es, b, n - 1, r, At(s, es, n));
    }
  }

  lemma OnlyPersistedEnds(s: State, e: Event)
    requires Enabled(s, e) && Syncing(s) && !Syncing(S.Next(s, e)) && Kept(s.prog) && S.Inv(s)
    ensures (Stage(s.prog.cur.sub) == 6 && e == PersistInfo(Persisted)) || e == TableDropped
  {
  }

  /** Replay begins only when the last write of a sync was made, after the backup was begun and done,
      its info read, extra info added, the restore begun and done, all since the sync began. */
  lemma {:induction false} ReplayFollowsAllSteps(s: State, es: seq<Event>, b: nat, n: nat)
    requires S.Init(s) && n < |es| && CanRun(s, es) && SinceBegin(s, es, b, n)
    requires Syncing(At(s, es, n)) && !Syncing(At(s, es, n + 1)) && es[n] != TableDropped
    ensures es[n] == PersistInfo(Persisted) && forall j :: 1 <= j <= 6 ==> Passed(es, b, n, j)
  {
    KeptAlways(s, es, n);
    AtNext(s, es, n);
    OnlyPersistedEnds(At(s, es, n), es[n]);
    StagesPassed(s, es, b, n);
  }

  // ----- The aliases of a full sync -----

  function Aliases(r: Row<Payload>): map<string, string> {
    if r.aliases.Some? then r.aliases.value else map[]
  }

  /** Memory and store agree on the aliases, and a sync begins without any. */
  predicate AliasesKept(p: Prog<Payload>) {
    Aliases(p.db) == Aliases(p.cur) && (Stage(p.cur.sub) < 2 ==> Aliases(p.cur) == map[])
  }

  /** What an event does to the aliases of a full sync that it does not end or begin anew. */
  predicate AliasStep(s: State, e: Event, s': State) {
    IsFull(s'.prog.cur.sync) ==>
      && AliasesKept(s'.prog)
      && (!AtBegin(s') ==>
            Aliases(s'.prog.cur) ==
              if e.WaitRestore? && e.restore.NotMatched? && e.restore.replace
              then Aliases(s.prog.cur)[e.restore.table := e.restore.alias]
              else if e == PersistInfo(MappingFailed) then map[]
              else Aliases(s.prog.cur))
  }

  lemma NewSnapshotAliases(s: State, e: Event, c: Seq)
    ensures AliasStep(s, e, NewSnapshot(s, c)) && AtBegin(NewSnapshot(s, c))
  {
  }

  lemma SharedAliases(s: State, e: Event)
    requires IsFull(s.prog.cur.sync) && Kept(s.prog) && AliasesKept(s.prog) && Handles(s.prog.cur.sub, e)
    ensures e.Begin? ==> AliasStep(s, e, BeginStep(s, e.name))
    ensures e.WaitBackup? ==> AliasStep(s, e, WaitBackupStep(s, e.backup))
    ensures e.AddExtra? ==> AliasStep(s, e, AddExtraStep(s, true, e.ok))
    ensures e.Restore? ==> AliasStep(s, e, RestoreStep(s, true, e.job))
  {
  }

  lemma FullAliases(s: State, e: Event)
    requires IsFull(s.prog.cur.sync) && Kept(s.prog) && AliasesKept(s.prog) && Handles(s.prog.cur.sub, e) && S.Inv(s)
    ensures e.GetInfo? ==> AliasStep(s, e, FullInfoStep(s, e.info))
    ensures e.WaitRestore? ==> AliasStep(s, e, FullWaitRestoreStep(s, e.restore))
    ensures e.PersistInfo? ==> AliasStep(s, e, FullFinishStep(s, e.finish))
  {
    NewSnapshotAliases(s, e, s.prog.cur.commit);
  }

  lemma ReloadAliases(s: State)
    requires Kept(s.prog) && AliasesKept(s.prog)
    ensures AliasStep(s, Crash, s.(prog := Reload(s.prog)))
  {
  }

  lemma FullStepAliases(s: State, e: Event)
    requires S.Inv(s) && Enabled(s, e) && IsFull(s.prog.cur.sync) && Kept(s.prog) && AliasesKept(s.prog)
    ensures AliasStep(s, e, S.Next(s, e))
  {
    if e.Crash? {
      ReloadAliases(s);
    } else if e.MetaError? {
      NewSnapshotAliases(s, e, s.prog.cur.commit);
    } else {
      SharedAliases(s, e);
      FullAliases(s, e);
    }
  }

  lemma PartialFinishStays(s: State, r: FinishReply)
    requires IsPartial(s.prog.cur.sync)
    ensures !IsFull(PartialFinishStep(s, r).prog.cur.sync)
  {
  }

  lemma PartialRestoreStays(s: State, e: Event)
    requires IsPartial(s.prog.cur.sync) && Kept(s.prog)
    ensures e.WaitRestore? ==> !IsFull(PartialWaitRestoreStep(s, e.restore).prog.cur.sync)
  {
  }

  lemma PartialInfoEnters(s: State, r: InfoReply)
    requires IsPartial(s.prog.cur.sync) && IsFull(PartialInfoStep(s, r).prog.cur.sync)
    ensures AtBegin(PartialInfoStep(s, r)) && AliasesKept(PartialInfoStep(s, r).prog)
  {
  }

  lemma SharedStays(s: State, e: Event)
    requires IsPartial(s.prog.cur.sync)
    ensures e.Begin? ==> !IsFull(BeginStep(s, e.name).prog.cur.sync)
    ensures e.WaitBackup? ==> !IsFull(WaitBackupStep(s, e.backup).prog.cur.sync)
    ensures e.AddExtra? ==> !IsFull(AddExtraStep(s, false, e.ok).prog.cur.sync)
    ensures e.Restore? ==> !IsFull(RestoreStep(s, false, e.job).prog.cur.sync)
    ensures e.TableDropped? ==> !IsFull(TableDroppedStep(s).prog.cur.sync)
  {
  }

  lemma PartialStepEnters(s: State, e: Event)
    requires Enabled(s, e) && IsPartial(s.prog.cur.sync) && Kept(s.prog) && !e.Crash? && !e.MetaError? && IsFull(S.Next(s, e).prog.cur.sync)
    ensures AtBegin(S.Next(s, e)) && AliasesKept(S.Next(s, e).prog)
  {
    SharedStays(s, e);
    PartialRestoreStays(s, e);
    if e.PersistInfo? {
      PartialFinishStays(s, e.finish);
    } else if e.GetInfo? && s.prog.cur.partial.Some? {
      PartialInfoEnters(s, e.info);
    }
  }

  /** A full sync is entered only at its beginning. */
  lemma EntersAtBegin(s: State, e: Event)
    requires S.Inv(s) && Enabled(s, e) && !IsFull(s.prog.cur.sync) && IsFull(S.Next(s, e).prog.cur.sync)
    requires Syncing(s) ==> Kept(s.prog)
    ensures AtBegin(S.Next(s, e)) && AliasesKept(S.Next(s, e).prog)
  {
    if e.MetaError? {
      NewSnapshotAliases(s, e, s.prog.cur.commit);
    } else if e.StartFull? {
      NewSnapshotAliases(s, e, e.commitSeq);
    } else if Syncing(s) && !e.Crash? {
      PartialStepEnters(s, e);
    }
  }

  lemma {:induction false} AliasesAlways(s: State, es: seq<Event>, n: nat)
    requires S.Init(s) && Aliases(s.prog.cur) == map[] && n <= |es| && CanRun(s, es)
    ensures IsFull(At(s, es, n).prog.cur.sync) ==> AliasesKept(At(s, es, n).prog)
  {
    if n > 0 {
      AliasesAlways(s, es, n - 1);
      KeptAlways(s, es, n - 1);
      AtNext(s, es, n - 1);
      var r := At(s, es, n - 1);
      if IsFull(r.prog.cur.sync) {
        FullStepAliases(r, es[n - 1]);
      } else if IsFull(At(s, es, n).prog.cur.sync) {
        EntersAtBegin(r, es[n - 1]);
      }
    }
  }

  /** Event `k` asks for table `t` to be restored under the alias `a`. */
  predicate Asks(e: Event, t: string, a: string) { e == WaitRestore(NotMatched(t, a, true)) }

  /** Between `b` and `n` the alias `a` was asked for `t`, and no other for `t` after it. */
  ghost predicate Latest(es: seq<Event>, b: nat, n: nat, t: string, a: string)
    requires n <= |es|
  {
    exists k :: b <= k < n && Asks(es[k], t, a) && NotAfter(es, k, n, t)
  }

  ghost predicate NotAfter(es: seq<Event>, k: nat, n: nat, t: string)
    requires n <= |es|
  {
    forall l, a :: k < l < n ==> !Asks(es[l], t, a)
  }

  /** The result of the swap was saved between `b` and `n`. */
  ghost predicate SwapSaved(es: seq<Event>, b: nat, n: nat)
    requires n <= |es|
  {
    exists k :: b <= k < n && es[k] == PersistInfo(MappingFailed)
  }

  /** The map holds exactly the latest replies. */
  ghost predicate Holds(m: map<string, string>, es: seq<Event>, b: nat, n: nat)
    requires n <= |es|
  {
    forall t, a :: (t in m && m[t] == a) <==> Latest(es, b, n, t, a)
  }

  lemma LatestNext(es: seq<Event>, b: nat, n: nat, t: string, a: string)
    requires b <= n < |es|
    ensures Latest(es, b, n + 1, t, a) <==>
            Asks(es[n], t, a) || (Latest(es, b, n, t, a) && forall x :: !Asks(es[n], t, x))
  {
    var after := n + 1;
    if Asks(es[n], t, a) {
      assert NotAfter(es, n, after, t);
    }
    if Latest(es, b, after, t, a) && !Asks(es[n], t, a) {
      var k :| b <= k < after && Asks(es[k], t, a) && NotAfter(es, k, after, t);
      assert NotAfter(es, k, n, t);
    }
    if Latest(es, b, n, t, a) && forall x :: !Asks(es[n], t, x) {
      var k :| b <= k < n && Asks(es[k], t, a) && NotAfter(es, k, n, t);
      assert NotAfter(es, k, after, t);
    }
  }

  lemma HoldsNext(es: seq<Event>, b: nat, n: nat, m: map<string, string>, m': map<string, string>)
    requires b <= n < |es| && Holds(m, es, b, n)
    requires m' == if es[n].WaitRestore? && es[n].restore.NotMatched? && es[n].restore.replace
                   then m[es[n].restore.table := es[n].restore.alias] else m
    ensures Holds(m', es, b, n + 1)
  {
    var after := n + 1;
    forall t, a ensures (t in m' && m'[t] == a) <==> Latest(es, b, after, t, a) {
      LatestNext(es, b, n, t, a);
      assert (t in m && m[t] == a) <==> Latest(es, b, n, t, a);
      if es[n].WaitRestore? && es[n].restore.NotMatched? && es[n].restore.replace {
        assert Asks(es[n], es[n].restore.table, es[n].restore.alias);
      }
    }
  }

  lemma StillFull(s: State, es: seq<Event>, n: nat)
    requires S.Init(s) && Aliases(s.prog.cur) == map[] && n < |es| && CanRun(s, es)
    requires IsFull(At(s, es, n + 1).prog.cur.sync) && !AtBegin(At(s, es, n + 1))
    ensures var r := At(s, es, n);
      IsFull(r.prog.cur.sync) && S.Inv(r) && Kept(r.prog) && AliasesKept(r.prog) && Enabled(r, es[n])
      && S.Next(r, es[n]) == At(s, es, n + 1)
  {
    KeptAlways(s, es, n);
    AliasesAlways(s, es, n);
    AtNext(s, es, n);
    if !IsFull(At(s, es, n).prog.cur.sync) {
      EntersAtBegin(At(s, es, n), es[n]);
    }
  }

  ghost predicate AliasesRight(cur: Row<Payload>, es: seq<Event>, b: nat, n: nat)
    requires n <= |es|
  {
    if SwapSaved(es, b, n) then Aliases(cur) == map[] && Stage(cur.sub) == 6 else Holds(Aliases(cur), es, b, n)
  }

  lemma AliasesNext(es: seq<Event>, b: nat, n: nat, s: State, s': State)
    requires b <= n < |es| && AliasesRight(s.prog.cur, es, b, n) && Handles(s.prog.cur.sub, es[n])
    requires AliasStep(s, es[n], s') && IsFull(s'.prog.cur.sync) && !AtBegin(s')
    requires Stage(s.prog.cur.sub) == 6 ==> Stage(s'.prog.cur.sub) in {0, 6}
    requires Kept(s'.prog)
    ensures AliasesRight(s'.prog.cur, es, b, n + 1)
  {
    var after := n + 1;
    if es[n] == PersistInfo(MappingFailed) {
      assert SwapSaved(es, b, after);
    } else if SwapSaved(es, b, after) {
      assert SwapSaved(es, b, n);
    } else {
      HoldsNext(es, b, n, Aliases(s.prog.cur), Aliases(s'.prog.cur));
    }
  }

  /** The alias map of a full sync, through crashes and repetitions: it holds exactly the latest alias
      that a restore asked for each table since the sync began, until the swap is saved; from then on
      it is empty. */
  lemma {:induction false} AliasesAreReplies(s: State, es: seq<Event>, b: nat, n: nat)
    requires S.Init(s) && Aliases(s.prog.cur) == map[] && n <= |es| && CanRun(s, es)
    requires SinceBegin(s, es, b, n) && IsFull(At(s, es, n).prog.cur.sync)
    ensures var cur := At(s, es, n).prog.cur;
      if SwapSaved(es, b, n) then Aliases(cur) == map[] && Stage(cur.sub) == 6 else Holds(Aliases(cur), es, b, n)
  {
    AliasesAlways(s, es, n);
    KeptAlways(s, es, n);
    if b < n {
      StillFull(s, es, n - 1);
      AliasesAreReplies(s, es, b, n - 1);
      var r := At(s, es, n - 1);
      FullStepAliases(r, es[n - 1]);
      if Stage(r.prog.cur.sub) == 6 {
        LastStays(r, es[n - 1]);
      }
      assert AliasesRight(r.prog.cur, es, b, n - 1);
      AliasesNext(es, b, n - 1, r, At(s, es, n));
    }
  }

  /** The restored tables as the replies describe them: each alias asked for last is there beside its
      table, and the names are all different. */
  ghost predicate RestoredAsAsked<C>(from: map<string, C>, es: seq<Event>, b: nat, n: nat)
    requires n <= |es|
  {
    && (forall t, a :: Latest(es, b, n, t, a) ==> t in from && a in from)
    && (forall t, a, t', a' :: Latest(es, b, n, t, a) && Latest(es, b, n, t', a') ==> a != t' && (t != t' ==> a != a'))
  }

  /** What the swap works on are the replies: after any number of interrupted runs of its loop over the
      map the sync holds, every table whose restore did not match has the content restored under the
      alias asked for last, that alias is gone, and no other table has changed. */
  lemma {:induction false} SwapPutsRepliesIn<C(!new)>(s: State, es: seq<Event>, b: nat, n: nat, from: map<string, C>,
                                                      attempts: seq<Attempt>, order: seq<string>)
    requires S.Init(s) && Aliases(s.prog.cur) == map[] && n <= |es| && CanRun(s, es)
    requires SinceBegin(s, es, b, n) && IsFull(At(s, es, n).prog.cur.sync) && !SwapSaved(es, b, n)
    requires RestoredAsAsked(from, es, b, n)
    requires var m := Aliases(At(s, es, n).prog.cur); ValidAttempts(attempts, m) && Enumerates(order, m.Keys)
    ensures var m := Aliases(At(s, es, n).prog.cur);
      var end := RunTurns(RunAttempts(from, m, attempts), m, order, |order|);
      && (forall t, a :: Latest(es, b, n, t, a) ==> t in end && end[t] == from[a] && a !in end)
      && (forall t :: t in end && (forall a :: !Latest(es, b, n, t, a)) ==> t in from && end[t] == from[t])
      && (forall t :: t in from && t !in end ==> exists u :: Latest(es, b, n, u, t))
  {
    AliasesAreReplies(s, es, b, n);
    var m := Aliases(At(s, es, n).prog.cur);
    assert forall t :: t in m ==> Latest(es, b, n, t, m[t]);
    SwapSurvivesCrashes(from, m, attempts, order);
    var end := RunTurns(RunAttempts(from, m, attempts), m, order, |order|);
    forall t | t in from && t !in end ensures exists u :: Latest(es, b, n, u, t) {
      assert t !in m;
      assert t in m.Values;
      var u :| u in m && m[u] == t;
      assert Latest(es, b, n, u, t);
    }
  }
}
