/** Every run of snapshots, filtered replay and crashes keeps the destination equal to the source. */
module ReplicaConvergence {
  import opened Wrappers
  import opened Progress
  import opened Binlogs
  import opened Replica
  import S = Snapshots
  import W = Watermarks
  import R = Replica

  type Row' = Row<S.Payload>

  // ----- Contents -----

  lemma {:induction false} SameContent(log: seq<Entry>, p: int, s: Seq, s': Seq)
    requires forall k :: 0 <= k < |log| ==> (log[k].at <= s <==> log[k].at <= s')
    ensures Content(log, p, s) == Content(log, p, s')
  {
    if log != [] {
      SameContent(log[..|log| - 1], p, s, s');
    }
  }

  lemma {:induction false} NextContent(log: seq<Entry>, p: int, s: Seq, i: nat)
    requires Ordered(log) && IsNext(log, s, i)
    ensures Content(log, p, log[i].at) == Content(log, p, s) + if p in log[i].touches then [log[i].at] else []
  {
    var before := log[..|log| - 1];
    if i == |log| - 1 {
      SameContent(before, p, s, log[i].at);
    } else {
      NextContent(before, p, s, i);
    }
  }

  // ----- Levels -----

  lemma LevelBounds(cfg: Config, r: Row', base: Seq, p: int)
    requires p in cfg.tableOf
    ensures Level(cfg, r, base, p) >= base
    ensures forall c :: c > base ==> (Level(cfg, r, base, p) >= c <==> W.Covered(r.tables, r.parts, cfg.tableOf[p], p, c))
  {
  }

  lemma LevelAbove(cfg: Config, r: Row', base: Seq, base': Seq, p: int)
    requires p in cfg.tableOf && base <= base'
    ensures Level(cfg, r, base', p) == if Level(cfg, r, base, p) > base' then Level(cfg, r, base, p) else base'
  {
  }

  /** Raising watermarks to the position of the replay, dropping those at or below it, and leaving
      out empty maps change no level. */
  lemma LevelKept(cfg: Config, r: Row', ids: set<int>, c: Seq, p: int)
    requires p in cfg.tableOf
    ensures Level(cfg, r.(tables := W.Raised(r.tables, ids, c)), c, p) == Level(cfg, r, c, p)
    ensures Level(cfg, W.AfterHandle(cfg.syncType, r, c), c, p) == Level(cfg, r, c, p)
    ensures forall base :: Level(cfg, Decoded(r), base, p) == Level(cfg, r, base, p)
  {
  }

  ghost predicate Matches(cfg: Config, r: Row', base: Seq, p: int, content: seq<Seq>)
    requires p in cfg.tableOf
  {
    content == Content(cfg.log, p, Level(cfg, r, base, p))
  }

  /** Moving on to the next binlog: a filtered change is there already, another is added. */
  lemma {:induction false} Advance(cfg: Config, r: Row', p: int, i: nat, content: seq<Seq>)
    requires p in cfg.tableOf && Ordered(cfg.log) && IsNext(cfg.log, r.prev, i) && Matches(cfg, r, r.prev, p, content)
    ensures var c := cfg.log[i].at;
      var content' := if p in cfg.log[i].touches && !W.Covered(r.tables, r.parts, cfg.tableOf[p], p, c) then content + [c] else content;
      Matches(cfg, r, c, p, content')
  {
    var c := cfg.log[i].at;
    var l := Level(cfg, r, r.prev, p);
    LevelBounds(cfg, r, r.prev, p);
    LevelAbove(cfg, r, r.prev, c, p);
    if l < c {
      NothingBetween(cfg.log, r.prev, i);
      SameContent(cfg.log, p, l, r.prev);
      NextContent(cfg.log, p, r.prev, i);
    }
  }

  // ----- The invariant -----

  function Effective(s: State, p: int): seq<Seq>
    requires p in s.dest
  {
    if p in s.staged then s.staged[p] else s.dest[p]
  }

  /** Where the restored region will stand once the last step is done. */
  function FinalLevel(cfg: Config, src: int, r: Row', p: int): Seq
    requires p in cfg.tableOf
  {
    if S.IsFull(r.sync) then (if cfg.syncType.DBSync? then Raise(r.commit, r.tables, cfg.tableOf[p]) else r.commit)
    else if cfg.syncType.TableSync? && r.partial.Some? && r.partial.value.partitions == {} && r.tables.Some? && src in r.tables.value
    then r.tables.value[src]
    else Level(cfg, r, r.commit, p)
  }

  ghost predicate ReplayOk(cfg: Config, s: State, r: Row') {
    && r.sub.Done?
    && (forall p :: p in cfg.tableOf && p in s.dest ==> Matches(cfg, r, r.prev, p, s.dest[p]))
    && (r.sync.DBTablesIncrementalSync? || r.tables.None?)
    && (cfg.syncType.TableSync? ==> r.tables.None?)
  }

  ghost predicate OutsideOk(cfg: Config, s: State, r: Row') {
    forall p :: p in cfg.tableOf && p in s.dest && !InRegion(cfg, r, p) ==> Matches(cfg, r, r.commit, p, s.dest[p])
  }

  ghost predicate RestoredOk(cfg: Config, s: State, r: Row') {
    forall p :: p in cfg.tableOf && p in s.dest ==> Effective(s, p) == Content(cfg.log, p, FinalLevel(cfg, s.snap.src, r, p))
  }

  ghost predicate PartialRowOk(cfg: Config, s: State, r: Row') {
    && r.partial.Some? && RegionValid(cfg, s.snap.src, r.partial.value)
    && (cfg.syncType.TableSync? && (r.partial.value.partitions != {} || !r.sub.PersistRestoreInfo?) ==> r.tables.None?)
    && (cfg.syncType.TableSync? && r.sub.PersistRestoreInfo? && r.partial.value.partitions == {} ==>
          r.tables.Some? && s.snap.src in r.tables.value)
  }

  ghost predicate RowOk(cfg: Config, s: State, r: Row') {
    if S.IsIncremental(r.sync) then ReplayOk(cfg, s, r)
    else
      && (S.IsPartial(r.sync) ==> PartialRowOk(cfg, s, r))
      && (if r.sub.PersistRestoreInfo? then RestoredOk(cfg, s, r) else OutsideOk(cfg, s, r))
  }

  predicate HoldsData(sub: SubState) { sub.AddExtraInfo? || sub.RestoreSnapshot? || sub.WaitRestoreDone? }

  ghost predicate MemHolds(cfg: Config, snap: S.State) {
    var p := snap.prog;
    HoldsData(p.cur.sub) && p.mem.Some? ==>
      match p.mem.value
      case FullData(_, tables, at, _) => FullHolds(cfg, tables, at)
      case PartialData(_, tables, parts, _) => p.cur.partial.Some? ==> DataHolds(cfg, p.cur, p.cur.partial.value, tables, parts)
      case _ => true
  }

  /** Memory and store agree on all that matters for the contents. */
  ghost predicate Agree(p: Prog<S.Payload>) {
    && p.cur.prev == p.db.prev && p.cur.commit == p.db.commit && p.cur.partial == p.db.partial
    && (p.cur.sub.PersistRestoreInfo? <==> p.db.sub.PersistRestoreInfo?)
    && (S.HasAlias(p.cur) <==> S.HasAlias(p.db))
  }

  ghost predicate Inv(cfg: Config, s: State) {
    && S.Inv(s.snap) && Ordered(cfg.log) && s.snap.syncType == cfg.syncType
    && s.dest.Keys == cfg.tableOf.Keys && s.staged.Keys <= cfg.tableOf.Keys
    && (cfg.syncType.TableSync? ==> forall p :: p in cfg.tableOf ==> cfg.tableOf[p] == s.snap.src)
    && Agree(s.snap.prog)
    && (s.staged == map[] || (s.snap.prog.cur.sub.PersistRestoreInfo? && !S.IsIncremental(s.snap.prog.cur.sync)
                              && S.HasAlias(s.snap.prog.cur)))
    && RowOk(cfg, s, s.snap.prog.cur) && RowOk(cfg, s, s.snap.prog.db)
    && MemHolds(cfg, s.snap)
  }

  // ----- Replay -----

  lemma ReplayRow(cfg: Config, s: State, r: Row', i: nat, ids: set<int>, dest': map<int, seq<Seq>>)
    requires Ordered(cfg.log) && ReplayOk(cfg, s, r) && IsNext(cfg.log, r.prev, i) && dest'.Keys == s.dest.Keys == cfg.tableOf.Keys
    requires forall p :: p in dest' ==>
      dest'[p] == (if p in cfg.log[i].touches && !W.Covered(r.tables, r.parts, cfg.tableOf[p], p, cfg.log[i].at)
                   then s.dest[p] + [cfg.log[i].at] else s.dest[p])
    ensures var c := cfg.log[i].at;
      var raised := r.(tables := W.Raised(r.tables, ids, c), prev := c, commit := c, last := c);
      var plain := r.(prev := c, commit := c, last := c);
      && ReplayOk(cfg, s.(dest := dest'), plain) && ReplayOk(cfg, s.(dest := dest'), raised)
      && ReplayOk(cfg, s.(dest := dest'), W.AfterHandle(cfg.syncType, plain, c))
      && ReplayOk(cfg, s.(dest := dest'), W.AfterHandle(cfg.syncType, raised, c))
  {
    var c := cfg.log[i].at;
    var plain := r.(prev := c, commit := c, last := c);
    var raised := plain.(tables := W.Raised(r.tables, ids, c));
    forall p | p in cfg.tableOf
      ensures Matches(cfg, plain, c, p, dest'[p]) && Matches(cfg, raised, c, p, dest'[p])
      ensures Matches(cfg, W.AfterHandle(cfg.syncType, plain, c), c, p, dest'[p])
      ensures Matches(cfg, W.AfterHandle(cfg.syncType, raised, c), c, p, dest'[p])
    {
      Advance(cfg, r, p, i, s.dest[p]);
      LevelKept(cfg, plain, ids, c, p);
      LevelKept(cfg, raised, ids, c, p);
      assert Level(cfg, plain, c, p) == Level(cfg, r, c, p);
    }
  }

  lemma UpsertContents(cfg: Config, s: State, i: nat, ids: set<int>)
    requires Inv(cfg, s) && Replaying(s, cfg, i)
    ensures var r, dest' := s.snap.prog.cur, UpsertStep(cfg, s, i, ids).dest;
      && dest'.Keys == s.dest.Keys
      && forall p :: p in dest' ==>
           dest'[p] == (if p in cfg.log[i].touches && !W.Covered(r.tables, r.parts, cfg.tableOf[p], p, cfg.log[i].at)
                        then s.dest[p] + [cfg.log[i].at] else s.dest[p])
  {
  }

  lemma UpsertProg(cfg: Config, s: State, i: nat, ids: set<int>)
    requires Inv(cfg, s) && Replaying(s, cfg, i)
    ensures var r, c, p' := s.snap.prog.cur, cfg.log[i].at, UpsertStep(cfg, s, i, ids).snap.prog;
      var plain := r.(prev := c, commit := c, last := c);
      var raised := plain.(tables := W.Raised(r.tables, ids, c));
      && p'.cur in {W.AfterHandle(cfg.syncType, plain, c), W.AfterHandle(cfg.syncType, raised, c)}
      && p'.db in {plain, raised, p'.cur} && p'.mem == s.snap.prog.mem
  {
    var r := s.snap.prog.cur;
    assert cfg.syncType.TableSync? ==> r.tables.None?;
  }

  lemma {:induction false} UpsertKeeps(cfg: Config, s: State, i: nat, ids: set<int>)
    requires Inv(cfg, s) && Replaying(s, cfg, i)
    ensures Inv(cfg, UpsertStep(cfg, s, i, ids))
  {
    var s' := UpsertStep(cfg, s, i, ids);
    UpsertRows(cfg, s, i, ids);
    UpsertShape(cfg, s, i, ids);
    ReplayedInv(cfg, s, s');
  }

  lemma UpsertRows(cfg: Config, s: State, i: nat, ids: set<int>)
    requires Inv(cfg, s) && Replaying(s, cfg, i)
    ensures var s' := UpsertStep(cfg, s, i, ids);
      s'.dest.Keys == s.dest.Keys && ReplayOk(cfg, s', s'.snap.prog.cur) && ReplayOk(cfg, s', s'.snap.prog.db)
  {
    var s' := UpsertStep(cfg, s, i, ids);
    UpsertContents(cfg, s, i, ids);
    UpsertProg(cfg, s, i, ids);
    ReplayRow(cfg, s, s.snap.prog.cur, i, ids, s'.dest);
    var r, c := s.snap.prog.cur, cfg.log[i].at;
    var plain := r.(prev := c, commit := c, last := c);
    var raised := plain.(tables := W.Raised(r.tables, ids, c));
    forall x | x in {plain, raised, W.AfterHandle(cfg.syncType, plain, c), W.AfterHandle(cfg.syncType, raised, c)}
      ensures ReplayOk(cfg, s', x)
    {
      assert ReplayOk(cfg, s.(dest := s'.dest), x);
    }
  }

  lemma UpsertShape(cfg: Config, s: State, i: nat, ids: set<int>)
    requires S.IsIncremental(s.snap.prog.cur.sync) && i < |cfg.log| && s.snap.prog.cur.IsDone()
    ensures var s' := UpsertStep(cfg, s, i, ids);
      var p, p' := s.snap.prog, s'.snap.prog;
      && s' == State(s.snap.(prog := p'), s'.dest, s.staged)
      && S.IsIncremental(p'.cur.sync) && S.IsIncremental(p'.db.sync) && p'.mem == p.mem
      && p'.cur.prev == p'.db.prev && p'.cur.commit == p'.db.commit && p'.cur.partial == p'.db.partial
      && p'.cur.aliases == p'.db.aliases
  {
  }

  lemma ReplayedInv(cfg: Config, s: State, s': State)
    requires Inv(cfg, s) && s' == State(s.snap.(prog := s'.snap.prog), s'.dest, s.staged) && s'.dest.Keys == s.dest.Keys
    requires var p, p' := s.snap.prog, s'.snap.prog;
      && S.IsIncremental(p.cur.sync) && S.IsIncremental(p'.cur.sync) && S.IsIncremental(p'.db.sync) && p'.mem == p.mem
      && p'.cur.prev == p'.db.prev && p'.cur.commit == p'.db.commit && p'.cur.partial == p'.db.partial
      && p'.cur.aliases == p'.db.aliases
    requires ReplayOk(cfg, s', s'.snap.prog.cur) && ReplayOk(cfg, s', s'.snap.prog.db)
    ensures Inv(cfg, s')
  {
  }

  lemma DdlKeeps(cfg: Config, s: State, i: nat)
    requires Inv(cfg, s) && Replaying(s, cfg, i)
    requires forall p :: p in cfg.log[i].touches && p in cfg.tableOf ==> Filtered(cfg, s.snap.prog.cur, p, cfg.log[i].at)
    ensures Inv(cfg, DdlStep(cfg, s, i))
  {
    ReplayRow(cfg, s, s.snap.prog.cur, i, {}, s.dest);
  }

  lemma CommittedIsReached(cfg: Config, s: State, t: int, c: Seq)
    requires ReplayOk(cfg, s, s.snap.prog.cur)
    ensures var r := s.snap.prog.cur; W.IsBinlogCommitted({}, r.sync, r.tables, t, c) <==> W.Reaches(r.tables, t, c)
  {
  }

  lemma DirectDdlKeeps(cfg: Config, s: State, i: nat, t: int)
    requires Inv(cfg, s) && Replaying(s, cfg, i) && Touching(cfg, i, t)
    requires forall p :: p in cfg.log[i].touches && p in cfg.tableOf ==> !Straddles(cfg, s.snap.prog.cur, p, cfg.log[i].at)
    ensures Inv(cfg, DirectDdlStep(cfg, s, i, t))
  {
    CommittedIsReached(cfg, s, t, cfg.log[i].at);
    ReplayRow(cfg, s, s.snap.prog.cur, i, {}, DirectDdlStep(cfg, s, i, t).dest);
  }

  lemma AttemptKeeps(cfg: Config, s: State, i: nat)
    requires Inv(cfg, s) && Replaying(s, cfg, i)
    ensures Inv(cfg, s.(snap := s.snap.(prog := StartHandle(s.snap.prog, cfg.log[i].at))))
  {
  }

  lemma RecoverKeeps(cfg: Config, s: State)
    requires Inv(cfg, s) && S.IsIncremental(s.snap.prog.cur.sync)
    ensures Inv(cfg, s.(snap := s.snap.(prog := Rollback(s.snap.prog))))
  {
  }

  // ----- Snapshots -----

  /** A partial sync begins at the binlog that asked for it: outside its region that binlog is
      nothing new. */
  lemma {:induction false} TriggerKeeps(cfg: Config, s: State, i: nat, d: PartialSyncData, alias: Option<string>)
    requires Inv(cfg, s) && Enabled(cfg, s, Trigger(i, d, alias))
    ensures Inv(cfg, R.Next(cfg, s, Trigger(i, d, alias)))
  {
    var r, c := s.snap.prog.cur, cfg.log[i].at;
    forall p | p in cfg.tableOf && !Selects(cfg, d, p) ensures Matches(cfg, r, c, p, s.dest[p]) {
      Advance(cfg, r, p, i, s.dest[p]);
    }
    var s' := R.Next(cfg, s, Trigger(i, d, alias));
    if S.IsPartial(s'.snap.prog.cur.sync) {
      forall p | p in cfg.tableOf && !Selects(cfg, d, p) ensures Matches(cfg, s'.snap.prog.cur, c, p, s.dest[p]) {
        assert Matches(cfg, r, c, p, s.dest[p]);
      }
    }
  }

  lemma RestoreWritesKeeps(cfg: Config, s: State, p: int, content: seq<Seq>)
    requires Inv(cfg, s) && Enabled(cfg, s, RestoreWrites(p, content))
    ensures Inv(cfg, s.(dest := s.dest[p := content]))
  {
  }

  lemma DecodedRow(cfg: Config, s: State, r: Row')
    requires RowOk(cfg, s, r)
    ensures RowOk(cfg, s, Decoded(r))
  {
    forall p, base | p in cfg.tableOf ensures Level(cfg, Decoded(r), base, p) == Level(cfg, r, base, p) {
      LevelKept(cfg, r, {}, base, p);
    }
    forall p | p in cfg.tableOf ensures FinalLevel(cfg, s.snap.src, Decoded(r), p) == FinalLevel(cfg, s.snap.src, r, p) {
      LevelKept(cfg, r, {}, r.commit, p);
    }
    forall p | p in cfg.tableOf && p in s.dest
      ensures Matches(cfg, r, r.prev, p, s.dest[p]) ==> Matches(cfg, Decoded(r), r.prev, p, s.dest[p])
      ensures Matches(cfg, r, r.commit, p, s.dest[p]) ==> Matches(cfg, Decoded(r), r.commit, p, s.dest[p])
    {
      LevelKept(cfg, r, {}, r.commit, p);
    }
  }

  lemma {:induction false} ReloadKeeps(cfg: Config, s: State)
    requires Inv(cfg, s)
    ensures Inv(cfg, s.(snap := s.snap.(prog := Reload(s.snap.prog))))
  {
    var r := s.snap.prog.db;
    var s' := s.(snap := s.snap.(prog := Reload(s.snap.prog)));
    DecodedRow(cfg, s, r);
    assert RowOk(cfg, s', Decoded(r)) && RowOk(cfg, s', r);
    assert S.Inv(s'.snap);
    assert S.HasAlias(Decoded(r)) <==> S.HasAlias(r);
  }

  lemma NewSnapshotKeeps(cfg: Config, s: State, c: Seq)
    requires Inv(cfg, s)
    ensures Inv(cfg, s.(snap := S.NewSnapshot(s.snap, c), staged := map[]))
  {
  }

  /** A partial sync starts over with the same region or a larger one. */
  lemma {:induction false} NewPartialKeeps(cfg: Config, s: State, d: PartialSyncData, alias: Option<string>)
    requires Inv(cfg, s) && RegionValid(cfg, s.snap.src, d) && (alias.Some? ==> d.partitions == {})
    requires !S.IsFull(s.snap.prog.cur.sync) && !s.snap.prog.cur.sub.PersistRestoreInfo?
    requires S.IsIncremental(s.snap.prog.cur.sync) ==> s.snap.prog.cur.IsDone()
    requires forall p :: p in cfg.tableOf && InRegion(cfg, s.snap.prog.cur, p) ==> Selects(cfg, d, p)
    ensures Inv(cfg, s.(snap := S.NewPartialSnapshot(s.snap, d, alias), staged := map[]))
  {
    var r := s.snap.prog.cur;
    var s' := s.(snap := S.NewPartialSnapshot(s.snap, d, alias), staged := map[]);
    forall p | p in cfg.tableOf && !Selects(cfg, d, p) ensures Matches(cfg, s'.snap.prog.cur, r.commit, p, s.dest[p]) {
      assert Matches(cfg, r, r.commit, p, s.dest[p]);
    }
  }

  /** A row that differs only in the step, the payload or the aliases. */
  ghost predicate SamePlace(r: Row', r': Row') {
    && r'.sync == r.sync && r'.prev == r.prev && r'.commit == r.commit && r'.partial == r.partial
    && r'.tables == r.tables && r'.parts == r.parts && !r'.sub.PersistRestoreInfo?
  }

  /** Steps before the restore is done that neither restart nor reload change nothing that matters. */
  lemma QuietKeeps(cfg: Config, s: State, snap: S.State)
    requires Inv(cfg, s) && !S.IsIncremental(s.snap.prog.cur.sync) && !s.snap.prog.cur.sub.PersistRestoreInfo?
    requires S.Inv(snap) && MemHolds(cfg, snap) && snap.src == s.snap.src && snap.syncType == s.snap.syncType
    requires SamePlace(s.snap.prog.cur, snap.prog.cur)
    requires snap.prog.db == snap.prog.cur || SamePlace(s.snap.prog.cur, snap.prog.db) ||
             (snap.prog.db == s.snap.prog.db && (S.HasAlias(snap.prog.cur) <==> S.HasAlias(s.snap.prog.cur)))
    requires S.HasAlias(snap.prog.cur) <==> S.HasAlias(snap.prog.db)
    ensures Inv(cfg, s.(snap := snap))
  {
  }

  /** The steps both syncs take alike. */
  lemma SharedQuiet(cfg: Config, s: State, full: bool, e: S.Event)
    requires Inv(cfg, s) && S.Enabled(s.snap, e) && !S.IsIncremental(s.snap.prog.cur.sync) && full == S.IsFull(s.snap.prog.cur.sync)
    requires e.Begin? || e.WaitBackup? || e.AddExtra? || e.Restore?
    ensures S.Next(s.snap, e) == (match e
      case Begin(name) => S.BeginStep(s.snap, name)
      case WaitBackup(r) => S.WaitBackupStep(s.snap, r)
      case AddExtra(ok) => S.AddExtraStep(s.snap, full, ok)
      case Restore(job) => S.RestoreStep(s.snap, full, job)
      case _ => s.snap)
  {
  }

  lemma FirstQuiet(cfg: Config, s: State, full: bool, name: Option<string>, r: S.BackupStatus)
    requires Inv(cfg, s) && !S.IsIncremental(s.snap.prog.cur.sync) && full == S.IsFull(s.snap.prog.cur.sync)
    ensures s.snap.prog.cur.sub.BeginCreateSnapshot? ==> Inv(cfg, s.(snap := S.BeginStep(s.snap, name)))
    ensures s.snap.prog.cur.sub.WaitBackupDone? ==> Inv(cfg, s.(snap := S.WaitBackupStep(s.snap, r)))
  {
    if s.snap.prog.cur.sub.BeginCreateSnapshot? {
      QuietKeeps(cfg, s, S.BeginStep(s.snap, name));
    } else if s.snap.prog.cur.sub.WaitBackupDone? {
      QuietKeeps(cfg, s, S.WaitBackupStep(s.snap, r));
    }
  }

  lemma DataQuiet(cfg: Config, s: State, full: bool, ok: bool, job: Option<string>)
    requires Inv(cfg, s) && !S.IsIncremental(s.snap.prog.cur.sync) && full == S.IsFull(s.snap.prog.cur.sync)
    ensures s.snap.prog.cur.sub.AddExtraInfo? ==> Inv(cfg, s.(snap := S.AddExtraStep(s.snap, full, ok)))
    ensures s.snap.prog.cur.sub.RestoreSnapshot? ==> Inv(cfg, s.(snap := S.RestoreStep(s.snap, full, job)))
  {
    if s.snap.prog.cur.sub.AddExtraInfo? {
      QuietKeeps(cfg, s, S.AddExtraStep(s.snap, full, ok));
    } else if s.snap.prog.cur.sub.RestoreSnapshot? {
      QuietKeeps(cfg, s, S.RestoreStep(s.snap, full, job));
    }
  }

  lemma StepsQuiet(cfg: Config, s: State, e: S.Event)
    requires Inv(cfg, s) && S.Enabled(s.snap, e) && !S.IsIncremental(s.snap.prog.cur.sync)
    requires e.Begin? || e.WaitBackup? || e.AddExtra? || e.Restore?
    ensures Inv(cfg, s.(snap := S.Next(s.snap, e)))
  {
    var full := S.IsFull(s.snap.prog.cur.sync);
    SharedQuiet(cfg, s, full, e);
    match e
    case Begin(name) => FirstQuiet(cfg, s, full, name, S.BackupRunning);
    case WaitBackup(r) => FirstQuiet(cfg, s, full, None, r);
    case AddExtra(ok) => DataQuiet(cfg, s, full, ok, None);
    case Restore(job) => DataQuiet(cfg, s, full, false, job);
  }

  lemma FullInfoQuiet(cfg: Config, s: State, r: S.InfoReply)
    requires Inv(cfg, s) && SnapAllowed(cfg, s.snap, S.GetInfo(r)) && S.IsFull(s.snap.prog.cur.sync) && !r.SnapshotGone?
    ensures Inv(cfg, s.(snap := S.Next(s.snap, S.GetInfo(r))))
  {
    QuietKeeps(cfg, s, S.FullInfoStep(s.snap, r));
  }

  lemma FullRestoreQuiet(cfg: Config, s: State, r: S.RestoreStatus)
    requires Inv(cfg, s) && SnapAllowed(cfg, s.snap, S.WaitRestore(r)) && S.IsFull(s.snap.prog.cur.sync)
    requires r.RestoreRunning? || r.RestoreFailed? || r.NotMatched?
    ensures Inv(cfg, s.(snap := S.Next(s.snap, S.WaitRestore(r))))
  {
    QuietKeeps(cfg, s, S.FullWaitRestoreStep(s.snap, r));
  }

  lemma PartialInfoQuiet(cfg: Config, s: State, r: S.InfoReply)
    requires Inv(cfg, s) && SnapAllowed(cfg, s.snap, S.GetInfo(r)) && S.IsPartial(s.snap.prog.cur.sync) && !r.SnapshotGone?
    ensures Inv(cfg, s.(snap := S.Next(s.snap, S.GetInfo(r))))
  {
    S.PartialInfoKeeps(s.snap, r);
    QuietKeeps(cfg, s, S.PartialInfoStep(s.snap, r));
  }

  lemma PartialRestoreQuiet(cfg: Config, s: State, r: S.RestoreStatus)
    requires Inv(cfg, s) && SnapAllowed(cfg, s.snap, S.WaitRestore(r)) && S.IsPartial(s.snap.prog.cur.sync)
    requires r.RestoreRunning? || r.RestoreFailed? || r.Rebooted?
    ensures Inv(cfg, s.(snap := S.Next(s.snap, S.WaitRestore(r))))
  {
    S.PartialWaitRestoreKeeps(s.snap, r);
    QuietKeeps(cfg, s, S.PartialWaitRestoreStep(s.snap, r));
  }

  lemma {:induction false} FullRestored(cfg: Config, s: State, c: Seq)
    requires Inv(cfg, s) && SnapAllowed(cfg, s.snap, S.WaitRestore(S.RestoreDone(c))) && S.IsFull(s.snap.prog.cur.sync)
    ensures Inv(cfg, RestoreEffect(cfg, s).(snap := S.Next(s.snap, S.WaitRestore(S.RestoreDone(c)))))
  {
    S.FullKeeps(s.snap, S.WaitRestore(S.RestoreDone(c)));
    var s' := RestoreEffect(cfg, s).(snap := S.Next(s.snap, S.WaitRestore(S.RestoreDone(c))));
    var r := s'.snap.prog.cur;
    forall p | p in cfg.tableOf ensures Effective(s', p) == Content(cfg.log, p, FinalLevel(cfg, s'.snap.src, r, p)) {
      assert Effective(s', p) == Restored(cfg, s, p);
    }
  }

  lemma PartialLevel(cfg: Config, s: State, r: Row', m: S.Payload, p: int)
    requires m.PartialData? && r.partial.Some? && RegionValid(cfg, s.snap.src, r.partial.value) && p in cfg.tableOf
    requires PartialHolds(cfg, r, r.partial.value, m.tables, m.parts) && Selects(cfg, r.partial.value, p)
    ensures var w := m.tables[r.partial.value.tableId];
      && SnapshotMark(cfg, m, r.partial, p) == w != 0
      && (r.partial.value.partitions != {} ==> Level(cfg, r.(parts := S.Merged(r.parts, m.parts)), r.commit, p) == w)
    ensures var w := m.tables[r.partial.value.tableId];
      r.partial.value.partitions == {} ==> Level(cfg, r.(tables := S.Merged(r.tables, m.tables)), r.commit, p) == w
  {
  }

  /** A partition the sync did not select keeps its contents and its level. */
  lemma OutsideStays(cfg: Config, s: State, m: S.Payload, c: Seq, p: int)
    requires Inv(cfg, s) && S.IsPartial(s.snap.prog.cur.sync) && s.snap.prog.cur.sub.WaitRestoreDone? && s.snap.prog.mem == Some(m)
    requires p in cfg.tableOf && !Selects(cfg, s.snap.prog.cur.partial.value, p)
    ensures var r' := S.PartialWaitRestoreStep(s.snap, S.RestoreDone(c)).prog.cur;
      s.dest[p] == Content(cfg.log, p, FinalLevel(cfg, s.snap.src, r', p))
  {
    var r := s.snap.prog.cur;
    assert Matches(cfg, r, r.commit, p, s.dest[p]);
  }

  lemma InsideFills(cfg: Config, s: State, m: S.Payload, c: Seq, p: int)
    requires Inv(cfg, s) && S.IsPartial(s.snap.prog.cur.sync) && s.snap.prog.cur.sub.WaitRestoreDone? && s.snap.prog.mem == Some(m)
    requires p in cfg.tableOf && Selects(cfg, s.snap.prog.cur.partial.value, p)
    ensures var r' := S.PartialWaitRestoreStep(s.snap, S.RestoreDone(c)).prog.cur;
      Restored(cfg, s, p) == Content(cfg.log, p, FinalLevel(cfg, s.snap.src, r', p))
  {
    assert !s.snap.prog.cur.partial.value.isView;
    PartialLevel(cfg, s, s.snap.prog.cur, m, p);
  }

  lemma PartialContents(cfg: Config, s: State, c: Seq)
    requires Inv(cfg, s) && SnapAllowed(cfg, s.snap, S.WaitRestore(S.RestoreDone(c))) && S.IsPartial(s.snap.prog.cur.sync)
    ensures var s' := RestoreEffect(cfg, s).(snap := S.PartialWaitRestoreStep(s.snap, S.RestoreDone(c)));
      RestoredOk(cfg, s', s'.snap.prog.cur)
  {
    var s' := RestoreEffect(cfg, s).(snap := S.PartialWaitRestoreStep(s.snap, S.RestoreDone(c)));
    forall p | p in cfg.tableOf ensures Effective(s', p) == Content(cfg.log, p, FinalLevel(cfg, s'.snap.src, s'.snap.prog.cur, p)) {
      if Selects(cfg, s.snap.prog.cur.partial.value, p) {
        assert Effective(s', p) == Restored(cfg, s, p);
        InsideFills(cfg, s, s.snap.prog.mem.value, c, p);
      } else {
        assert Effective(s', p) == s.dest[p];
        OutsideStays(cfg, s, s.snap.prog.mem.value, c, p);
      }
    }
  }

  lemma {:induction false} PartialRestored(cfg: Config, s: State, c: Seq)
    requires Inv(cfg, s) && SnapAllowed(cfg, s.snap, S.WaitRestore(S.RestoreDone(c))) && S.IsPartial(s.snap.prog.cur.sync)
    ensures Inv(cfg, RestoreEffect(cfg, s).(snap := S.Next(s.snap, S.WaitRestore(S.RestoreDone(c)))))
  {
    var s' := RestoreEffect(cfg, s).(snap := S.PartialWaitRestoreStep(s.snap, S.RestoreDone(c)));
    S.PartialKeeps(s.snap, S.WaitRestore(S.RestoreDone(c)));
    PartialContents(cfg, s, c);
    assert s'.snap.prog.db == s'.snap.prog.cur;
  }

  /** Swapping aliases in, one by one or all, changes no effective content. */
  lemma SwapKeepsEffective(s: State, ps: set<int>, p: int)
    requires p in s.dest
    ensures Effective(Swap(s, ps), p) == Effective(s, p)
  {
  }

  lemma SwappedRow(cfg: Config, s: State, ps: set<int>, snap: S.State, r: Row', r': Row')
    requires RestoredOk(cfg, s, r) && s.dest.Keys == cfg.tableOf.Keys && snap.src == s.snap.src
    requires r' == r.(aliases := r'.aliases, data := r'.data)
    ensures RestoredOk(cfg, Swap(s, ps).(snap := snap), r')
  {
    var s' := Swap(s, ps).(snap := snap);
    forall p | p in cfg.tableOf && p in s'.dest ensures Effective(s', p) == Content(cfg.log, p, FinalLevel(cfg, snap.src, r', p)) {
      SwapKeepsEffective(s, ps, p);
      assert Effective(s', p) == Effective(Swap(s, ps), p);
    }
  }

  lemma SwapOnlyKeeps(cfg: Config, s: State, swapped: set<int>)
    requires Inv(cfg, s) && S.Enabled(s.snap, S.PersistInfo(S.SwapFailed))
    ensures Inv(cfg, SnapStep(cfg, s, S.PersistInfo(S.SwapFailed), swapped))
  {
    var s' := Swap(s, swapped).(snap := s.snap);
    assert SnapStep(cfg, s, S.PersistInfo(S.SwapFailed), swapped) == s';
    SwappedRow(cfg, s, swapped, s.snap, s.snap.prog.cur, s.snap.prog.cur);
    SwappedRow(cfg, s, swapped, s.snap, s.snap.prog.db, s.snap.prog.db);
  }

  lemma SwapSavedKeeps(cfg: Config, s: State, swapped: set<int>)
    requires Inv(cfg, s) && S.Enabled(s.snap, S.PersistInfo(S.MappingFailed))
    ensures Inv(cfg, SnapStep(cfg, s, S.PersistInfo(S.MappingFailed), swapped))
  {
    var e := S.PersistInfo(S.MappingFailed);
    var s' := SnapStep(cfg, s, e, swapped);
    if S.IsFull(s.snap.prog.cur.sync) { S.FullKeeps(s.snap, e); } else { S.PartialKeeps(s.snap, e); }
    SwappedRow(cfg, s, s.staged.Keys, s'.snap, s.snap.prog.cur, s'.snap.prog.cur);
    if !S.HasAlias(s.snap.prog.cur) {
      SwappedRow(cfg, s, s.staged.Keys, s'.snap, s.snap.prog.db, s'.snap.prog.db);
    }
  }

  lemma {:induction false} PersistKeeps(cfg: Config, s: State, r: S.FinishReply, swapped: set<int>)
    requires Inv(cfg, s) && S.Enabled(s.snap, S.PersistInfo(r))
    ensures Inv(cfg, SnapStep(cfg, s, S.PersistInfo(r), swapped))
  {
    match r
    case SwapFailed => SwapOnlyKeeps(cfg, s, swapped);
    case MappingFailed => SwapSavedKeeps(cfg, s, swapped);
    case Persisted => FinishKeeps(cfg, s, swapped);
  }

  /** The last step makes the final level the replay level. */
  lemma {:induction false} FullFinishes(cfg: Config, s: State)
    requires Inv(cfg, s) && S.IsFull(s.snap.prog.cur.sync) && s.snap.prog.cur.sub.PersistRestoreInfo?
    ensures var p' := S.FullFinishStep(s.snap, S.Persisted).prog;
      && p'.db == p'.cur && p'.cur.IsDone() && p'.mem == None && S.IsIncremental(p'.cur.sync)
      && (p'.cur.sync.DBTablesIncrementalSync? || p'.cur.tables.None?) && (cfg.syncType.TableSync? ==> p'.cur.tables.None?)
      && forall p :: p in cfg.tableOf ==> Level(cfg, p'.cur, p'.cur.prev, p) == FinalLevel(cfg, s.snap.src, s.snap.prog.cur, p)
  {
  }

  lemma {:induction false} PartialFinishes(cfg: Config, s: State)
    requires Inv(cfg, s) && S.IsPartial(s.snap.prog.cur.sync) && s.snap.prog.cur.sub.PersistRestoreInfo?
    ensures var p' := S.PartialFinishStep(s.snap, S.Persisted).prog;
      && p'.db == p'.cur && p'.cur.IsDone() && p'.mem == None && S.IsIncremental(p'.cur.sync)
      && (p'.cur.sync.DBTablesIncrementalSync? || p'.cur.tables.None?) && (cfg.syncType.TableSync? ==> p'.cur.tables.None?)
      && forall p :: p in cfg.tableOf ==> Level(cfg, p'.cur, p'.cur.prev, p) == FinalLevel(cfg, s.snap.src, s.snap.prog.cur, p)
  {
  }

  lemma Finished(cfg: Config, s: State, s': State)
    requires Inv(cfg, s) && s.snap.prog.cur.sub.PersistRestoreInfo? && !S.IsIncremental(s.snap.prog.cur.sync)
    requires s' == Swap(s, s.staged.Keys).(snap := s.snap.(prog := s'.snap.prog)) && !s.snap.panicked
    requires var p' := s'.snap.prog;
      && p'.db == p'.cur && p'.cur.IsDone() && p'.mem == None && S.IsIncremental(p'.cur.sync)
      && (p'.cur.sync.DBTablesIncrementalSync? || p'.cur.tables.None?) && (cfg.syncType.TableSync? ==> p'.cur.tables.None?)
      && forall p :: p in cfg.tableOf ==> Level(cfg, p'.cur, p'.cur.prev, p) == FinalLevel(cfg, s.snap.src, s.snap.prog.cur, p)
    ensures Inv(cfg, s')
  {
    var r' := s'.snap.prog.cur;
    assert s'.staged == map[];
    forall p | p in cfg.tableOf && p in s'.dest ensures Matches(cfg, r', r'.prev, p, s'.dest[p]) {
      SwapKeepsEffective(s, s.staged.Keys, p);
      assert Effective(s, p) == Content(cfg.log, p, FinalLevel(cfg, s.snap.src, s.snap.prog.cur, p));
      assert s'.dest[p] == Effective(s, p);
    }
  }

  lemma FinishKeeps(cfg: Config, s: State, swapped: set<int>)
    requires Inv(cfg, s) && S.Enabled(s.snap, S.PersistInfo(S.Persisted))
    ensures Inv(cfg, SnapStep(cfg, s, S.PersistInfo(S.Persisted), swapped))
  {
    if S.IsFull(s.snap.prog.cur.sync) {
      FullFinishes(cfg, s);
    } else {
      PartialFinishes(cfg, s);
    }
    Finished(cfg, s, SnapStep(cfg, s, S.PersistInfo(S.Persisted), swapped));
  }

  // ----- Every step, every run -----

  lemma BeginFails(cfg: Config, s: State, e: S.Event)
    requires Inv(cfg, s) && SnapAllowed(cfg, s.snap, e) && S.IsPartial(s.snap.prog.cur.sync) && (e.PartitionGone? || e.TableRenamed?)
    ensures Inv(cfg, SnapStep(cfg, s, e, {}))
  {
    var d := s.snap.prog.cur.partial.value;
    if e.PartitionGone? {
      NewPartialKeeps(cfg, s, d.(partitions := {}, isView := false), Some(e.alias));
    } else {
      NewPartialKeeps(cfg, s, d.(table := e.newName, partitions := {}, isView := false), Some(e.alias));
    }
  }

  lemma GoneKeeps(cfg: Config, s: State, alias: string)
    requires Inv(cfg, s) && SnapAllowed(cfg, s.snap, S.GetInfo(S.SnapshotGone(alias))) && S.IsPartial(s.snap.prog.cur.sync)
    ensures Inv(cfg, SnapStep(cfg, s, S.GetInfo(S.SnapshotGone(alias)), {}))
  {
    var d := s.snap.prog.cur.partial.value;
    NewPartialKeeps(cfg, s, d, if S.HasAlias(s.snap.prog.cur) then Some(alias) else None);
  }

  lemma RestoreEndsKeeps(cfg: Config, s: State, r: S.RestoreStatus)
    requires Inv(cfg, s) && SnapAllowed(cfg, s.snap, S.WaitRestore(r)) && S.IsPartial(s.snap.prog.cur.sync)
    requires r.RestoreExpired? || r.NotMatched?
    ensures Inv(cfg, SnapStep(cfg, s, S.WaitRestore(r), {}))
  {
    var d := s.snap.prog.cur.partial.value;
    if r.RestoreExpired? {
      NewPartialKeeps(cfg, s, d, if S.HasAlias(s.snap.prog.cur) then Some(r.alias) else None);
    } else {
      NewPartialKeeps(cfg, s, d.(partitions := {}, isView := false), Some(r.alias));
    }
  }

  lemma FullSnapKeeps(cfg: Config, s: State, e: S.Event, swapped: set<int>)
    requires Inv(cfg, s) && SnapAllowed(cfg, s.snap, e) && S.IsFull(s.snap.prog.cur.sync) && !e.Crash? && !e.MetaError?
    ensures Inv(cfg, SnapStep(cfg, s, e, swapped))
  {
    if e.PersistInfo? {
      PersistKeeps(cfg, s, e.finish, swapped);
    } else if (e.GetInfo? && e.info.SnapshotGone?) || (e.WaitRestore? && e.restore.RestoreExpired?) {
      NewSnapshotKeeps(cfg, s, s.snap.prog.cur.commit);
    } else if e.WaitRestore? && e.restore.RestoreDone? {
      FullRestored(cfg, s, e.restore.commitSeq);
    } else if e.WaitRestore? && e.restore.Rebooted? {
      ReloadKeeps(cfg, s);
    } else if e.GetInfo? {
      FullInfoQuiet(cfg, s, e.info);
    } else if e.WaitRestore? {
      FullRestoreQuiet(cfg, s, e.restore);
    } else {
      StepsQuiet(cfg, s, e);
    }
  }

  lemma PartialSnapKeeps(cfg: Config, s: State, e: S.Event, swapped: set<int>)
    requires Inv(cfg, s) && SnapAllowed(cfg, s.snap, e) && S.IsPartial(s.snap.prog.cur.sync) && !e.Crash? && !e.MetaError?
    ensures Inv(cfg, SnapStep(cfg, s, e, swapped))
  {
    if e.PersistInfo? {
      PersistKeeps(cfg, s, e.finish, swapped);
    } else if e.WaitRestore? && e.restore.RestoreDone? {
      PartialRestored(cfg, s, e.restore.commitSeq);
    } else if e.PartitionGone? || e.TableRenamed? {
      BeginFails(cfg, s, e);
    } else if e.GetInfo? && e.info.SnapshotGone? {
      GoneKeeps(cfg, s, e.info.alias);
    } else if e.WaitRestore? && (e.restore.RestoreExpired? || e.restore.NotMatched?) {
      RestoreEndsKeeps(cfg, s, e.restore);
    } else if e.GetInfo? {
      PartialInfoQuiet(cfg, s, e.info);
    } else if e.WaitRestore? {
      PartialRestoreQuiet(cfg, s, e.restore);
    } else {
      StepsQuiet(cfg, s, e);
    }
  }

  lemma OtherSnapKeeps(cfg: Config, s: State, e: S.Event, swapped: set<int>)
    requires Inv(cfg, s) && SnapAllowed(cfg, s.snap, e)
    requires e.Crash? || e.MetaError? || S.IsIncremental(s.snap.prog.cur.sync)
    ensures Inv(cfg, SnapStep(cfg, s, e, swapped))
  {
    if e.Crash? {
      ReloadKeeps(cfg, s);
      assert SnapStep(cfg, s, e, swapped) == s.(snap := s.snap.(prog := Reload(s.snap.prog))) || s.staged == map[];
      if Restarts(s.snap, S.Next(s.snap, e)) {
        StagedGone(cfg, s.(snap := S.Next(s.snap, e)));
      }
    } else if e.MetaError? {
      NewSnapshotKeeps(cfg, s, s.snap.prog.cur.commit);
    } else if e.StartFull? {
      NewSnapshotKeeps(cfg, s, e.commitSeq);
    } else if e.partial.partitions == {} || e.replacing.None? {
      NewPartialKeeps(cfg, s, e.partial, e.replacing);
    }
  }

  lemma StagedGone(cfg: Config, s: State)
    requires Inv(cfg, s) && !s.snap.prog.cur.sub.PersistRestoreInfo?
    ensures s.staged == map[]
  {
  }

  lemma StepKeeps(cfg: Config, s: State, e: R.Event)
    requires Inv(cfg, s) && R.Enabled(cfg, s, e)
    ensures Inv(cfg, R.Next(cfg, s, e))
  {
    match e
    case Snap(step, swapped) =>
      if step.Crash? || step.MetaError? || S.IsIncremental(s.snap.prog.cur.sync) {
        OtherSnapKeeps(cfg, s, step, swapped);
      } else if S.IsFull(s.snap.prog.cur.sync) {
        FullSnapKeeps(cfg, s, step, swapped);
      } else {
        PartialSnapKeeps(cfg, s, step, swapped);
      }
    case RestoreWrites(p, content) => RestoreWritesKeeps(cfg, s, p, content);
    case Upsert(i, ids) => UpsertKeeps(cfg, s, i, ids);
    case Ddl(i) => DdlKeeps(cfg, s, i);
    case DirectDdl(i, t) => DirectDdlKeeps(cfg, s, i, t);
    case Trigger(i, d, alias) => TriggerKeeps(cfg, s, i, d, alias);
    case Attempt(i) => AttemptKeeps(cfg, s, i);
    case Recover => RecoverKeeps(cfg, s);
  }

  ghost predicate CanRun(cfg: Config, s: State, es: seq<R.Event>)
    decreases |es|
  {
    es == [] || (R.Enabled(cfg, s, es[0]) && CanRun(cfg, R.Next(cfg, s, es[0]), es[1..]))
  }

  ghost function Run(cfg: Config, s: State, es: seq<R.Event>): State
    requires CanRun(cfg, s, es)
    decreases |es|
  {
    if es == [] then s else Run(cfg, R.Next(cfg, s, es[0]), es[1..])
  }

  lemma {:induction false} RunKeeps(cfg: Config, s: State, es: seq<R.Event>)
    requires Inv(cfg, s) && CanRun(cfg, s, es)
    ensures Inv(cfg, Run(cfg, s, es))
    decreases |es|
  {
    if es != [] {
      StepKeeps(cfg, s, es[0]);
      RunKeeps(cfg, R.Next(cfg, s, es[0]), es[1..]);
    }
  }

  /** A new job: nothing restored yet, and the destination may hold anything. */
  ghost predicate Init(cfg: Config, s: State) {
    && Ordered(cfg.log) && S.Init(s.snap) && s.snap.syncType == cfg.syncType
    && s.dest.Keys == cfg.tableOf.Keys && s.staged == map[]
    && (cfg.syncType.TableSync? ==> forall p :: p in cfg.tableOf ==> cfg.tableOf[p] == s.snap.src)
  }

  /** Convergence: after any run of full syncs, partial syncs, filtered replay and crashes, whenever
      the job is replaying, every destination partition is the source's after exactly the binlogs up
      to the replay position, its table's watermark or its own, whichever is highest; and a partial
      sync leaves all it does not restore in that state. */
  lemma {:induction false} ReplicaConverges(cfg: Config, s: State, es: seq<R.Event>)
    requires Init(cfg, s) && CanRun(cfg, s, es)
    ensures var s' := Run(cfg, s, es);
      var r := s'.snap.prog.cur;
      && s'.dest.Keys == cfg.tableOf.Keys
      && (S.IsIncremental(r.sync) ==> s'.staged == map[] && forall p :: p in cfg.tableOf ==>
            s'.dest[p] == Content(cfg.log, p, Level(cfg, r, r.prev, p)))
      && (S.IsPartial(r.sync) && !r.sub.PersistRestoreInfo? ==> forall p :: p in cfg.tableOf && !InRegion(cfg, r, p) ==>
            s'.dest[p] == Content(cfg.log, p, Level(cfg, r, r.commit, p)))
  {
    RunKeeps(cfg, s, es);
    var s' := Run(cfg, s, es);
    var r := s'.snap.prog.cur;
    if S.IsIncremental(r.sync) {
      assert forall p :: p in cfg.tableOf ==> Matches(cfg, r, r.prev, p, s'.dest[p]);
    } else if S.IsPartial(r.sync) && !r.sub.PersistRestoreInfo? {
      assert forall p :: p in cfg.tableOf && !InRegion(cfg, r, p) ==> Matches(cfg, r, r.commit, p, s'.dest[p]);
    }
  }

  /** Once the whole log is replayed, watermarks no longer matter: source and destination agree. */
  lemma {:induction false} CaughtUp(cfg: Config, s: State, es: seq<R.Event>, now: Seq)
    requires Init(cfg, s) && CanRun(cfg, s, es)
    requires forall k :: 0 <= k < |cfg.log| ==> cfg.log[k].at <= now
    requires S.IsIncremental(Run(cfg, s, es).snap.prog.cur.sync)
    requires |cfg.log| > 0 ==> Run(cfg, s, es).snap.prog.cur.prev >= cfg.log[|cfg.log| - 1].at
    ensures forall p :: p in cfg.tableOf ==> p in Run(cfg, s, es).dest && Run(cfg, s, es).dest[p] == Content(cfg.log, p, now)
  {
    ReplicaConverges(cfg, s, es);
    var r := Run(cfg, s, es).snap.prog.cur;
    forall p | p in cfg.tableOf ensures p in Run(cfg, s, es).dest && Run(cfg, s, es).dest[p] == Content(cfg.log, p, now) {
      LevelBounds(cfg, r, r.prev, p);
      SameContent(cfg.log, p, Level(cfg, r, r.prev, p), now);
    }
  }

  /** A table found dropped during a partial sync: replay resumes at the commit position, every binlog
      of that table counts as committed from then on, the one that drops it included, and what is
      filtered of other tables does not change. */
  lemma {:induction false} DroppedTableIsSkipped(snap: S.State)
    requires snap.syncType.DBSync? && snap.prog.cur.partial.Some?
    ensures var r, r' := snap.prog.cur, S.TableDroppedStep(snap).prog.cur;
      && r'.IsDone() && r'.prev == r.commit && r'.parts == r.parts && S.TableDroppedStep(snap).prog.db == r'
      && (forall c :: c <= MAX_SEQ ==> W.IsBinlogCommitted({}, r'.sync, r'.tables, r.partial.value.tableId, c))
      && (forall t, p, c :: t != r.partial.value.tableId ==>
            (W.Covered(r'.tables, r'.parts, t, p, c) <==> W.Covered(r.tables, r.parts, t, p, c)))
  {
  }

  /** The open question noted at the committed test: a handler that changes the destination directly
      is right exactly when no partition it touches is covered by a watermark of its own but not by
      one of its table. */
  lemma {:induction false} DirectDdlExactly(cfg: Config, s: State, es: seq<R.Event>, i: nat, t: int)
    requires Init(cfg, s) && CanRun(cfg, s, es) && Replaying(Run(cfg, s, es), cfg, i) && Touching(cfg, i, t)
    ensures var s0, c := Run(cfg, s, es), cfg.log[i].at;
      var s1 := DirectDdlStep(cfg, s0, i, t);
      var r := s1.snap.prog.cur;
      (forall p :: p in cfg.tableOf ==> p in s1.dest && s1.dest[p] == Content(cfg.log, p, Level(cfg, r, r.prev, p)))
      <==> (forall p :: p in cfg.log[i].touches && p in cfg.tableOf ==> !Straddles(cfg, s0.snap.prog.cur, p, c))
  {
    RunKeeps(cfg, s, es);
    var s0, c := Run(cfg, s, es), cfg.log[i].at;
    var s1 := DirectDdlStep(cfg, s0, i, t);
    CommittedIsReached(cfg, s0, t, c);
    if forall p :: p in cfg.log[i].touches && p in cfg.tableOf ==> !Straddles(cfg, s0.snap.prog.cur, p, c) {
      DirectDdlKeeps(cfg, s0, i, t);
      assert forall p :: p in cfg.tableOf ==> Matches(cfg, s1.snap.prog.cur, s1.snap.prog.cur.prev, p, s1.dest[p]);
    } else {
      var p :| p in cfg.log[i].touches && p in cfg.tableOf && Straddles(cfg, s0.snap.prog.cur, p, c);
      Straddled(cfg, s0, i, t, p);
    }
  }

  lemma {:induction false} Straddled(cfg: Config, s: State, i: nat, t: int, p: int)
    requires Inv(cfg, s) && Replaying(s, cfg, i) && Touching(cfg, i, t)
    requires p in cfg.log[i].touches && p in cfg.tableOf && Straddles(cfg, s.snap.prog.cur, p, cfg.log[i].at)
    ensures var s1 := DirectDdlStep(cfg, s, i, t);
      var r := s1.snap.prog.cur;
      s1.dest[p] != Content(cfg.log, p, Level(cfg, r, r.prev, p))
  {
    var r, c := s.snap.prog.cur, cfg.log[i].at;
    CommittedIsReached(cfg, s, t, c);
    Advance(cfg, r, p, i, s.dest[p]);
    LevelKept(cfg, r.(prev := c, commit := c, last := c), {}, c, p);
    LevelKept(cfg, r.(commit := c, last := c), {}, c, p);
    var s1 := DirectDdlStep(cfg, s, i, t);
    assert Level(cfg, s1.snap.prog.cur, c, p) == Level(cfg, r, c, p);
    assert |s1.dest[p]| == |s.dest[p]| + 1;
  }
}
