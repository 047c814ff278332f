/** Runs of snapshots and replay that are there: full and partial syncs of databases and tables get
    through, and one of them ends where a direct schema change goes wrong. */
module ReplicaRuns {
  import opened Wrappers
  import opened Progress
  import opened Binlogs
  import opened Replica
  import opened ReplicaConvergence
  import S = Snapshots
  import W = Watermarks
  import R = Replica
  import T = UpsertTrace

  /** The single steps that stand for replaying a binlog leave the row that the replay of UpsertTrace
      leaves: of an upsert with records left by the filter, of one without, and of a schema change; and
      a recovery goes back to the done position, marking the binlog. */
  lemma {:induction false} StepsAreReplay(cfg: Config, s: State, i: nat, ids: set<int>)
    requires i < |cfg.log| && s.snap.prog.cur.IsDone()
    ensures var r, e := s.snap.prog.cur, cfg.log[i];
      var relevant := exists p :: p in e.touches && p in cfg.tableOf && !Filtered(cfg, r, p, e.at);
      && UpsertStep(cfg, s, i, ids).snap.prog.cur == (if relevant then T.RowAfter(cfg.syncType, r, e.at, ids) else T.RowPassed(cfg.syncType, r, e.at))
      && DdlStep(cfg, s, i).snap.prog.cur == T.RowPassed(cfg.syncType, r, e.at)
      && UpsertStep(cfg, s, i, ids).snap.prog.db.prev == DdlStep(cfg, s, i).snap.prog.db.prev == e.at
  {
  }

  lemma RecoveryIsRollback(cfg: Config, s: State)
    requires R.Enabled(cfg, s, Recover)
    ensures var p, p' := s.snap.prog, R.Next(cfg, s, Recover).snap.prog;
      p'.db == p'.cur == p.cur.(sub := Done, unknown := p.cur.commit, commit := p.cur.prev)
    ensures R.Next(cfg, s, Recover).dest == s.dest
  {
  }

  lemma RunCons(cfg: Config, s: State, e: R.Event, es: seq<R.Event>)
    requires R.Enabled(cfg, s, e) && CanRun(cfg, R.Next(cfg, s, e), es)
    ensures CanRun(cfg, s, [e] + es) && Run(cfg, s, [e] + es) == Run(cfg, R.Next(cfg, s, e), es)
  {
    assert ([e] + es)[1..] == es;
  }

  lemma {:induction false} RunConcat(cfg: Config, s: State, es: seq<R.Event>, fs: seq<R.Event>)
    requires CanRun(cfg, s, es) && CanRun(cfg, Run(cfg, s, es), fs)
    ensures CanRun(cfg, s, es + fs) && Run(cfg, s, es + fs) == Run(cfg, Run(cfg, s, es), fs)
    decreases |es|
  {
    if es == [] {
      assert es + fs == fs;
    } else {
      RunConcat(cfg, R.Next(cfg, s, es[0]), es[1..], fs);
      RunCons(cfg, s, es[0], es[1..] + fs);
      assert es + fs == [es[0]] + (es[1..] + fs);
    }
  }

  function At(s: State, prog: Prog<S.Payload>): State { s.(snap := s.snap.(prog := prog)) }

  ghost predicate Leads(cfg: Config, s: State, step: S.Event, prog: Prog<S.Payload>) {
    R.Enabled(cfg, s, Snap(step, {})) && R.Next(cfg, s, Snap(step, {})) == At(s, prog)
  }

  /** A sync of either kind in the given step. */
  predicate SyncAt(s: State, full: bool, sub: SubState) {
    && !s.snap.panicked && s.snap.prog.cur.sub == sub
    && if full then S.IsFull(s.snap.prog.cur.sync) else S.IsPartial(s.snap.prog.cur.sync) && s.snap.prog.cur.partial.Some?
  }

  lemma BeginLeads(cfg: Config, s: State, full: bool, name: string)
    requires SyncAt(s, full, BeginCreateSnapshot)
    ensures Leads(cfg, s, S.Begin(Some(name)), NextSubVolatile(s.snap.prog, WaitBackupDone, Some(S.Name(name))))
  {
  }

  lemma BackupLeads(cfg: Config, s: State, full: bool)
    requires SyncAt(s, full, WaitBackupDone) && S.IsName(s.snap.prog.mem)
    ensures Leads(cfg, s, S.WaitBackup(S.BackupDone), NextSubCheckpoint(s.snap.prog, GetSnapshotInfo, s.snap.prog.mem))
  {
  }

  lemma FullInfoLeads(cfg: Config, s: State, tables: map<int, Seq>, at: Seq)
    requires SyncAt(s, true, GetSnapshotInfo) && S.IsName(s.snap.prog.cur.data) && FullHolds(cfg, tables, at)
    requires s.snap.syncType.TableSync? ==> s.snap.src in tables
    ensures Leads(cfg, s, S.GetInfo(S.Info(tables, map[], at, 0)),
                  NextSubVolatile(s.snap.prog, AddExtraInfo, Some(S.FullData(s.snap.prog.cur.data.value.name, tables, at, ""))))
  {
  }

  lemma PartialInfoLeads(cfg: Config, s: State, tables: map<int, Seq>, parts: map<int, Seq>)
    requires SyncAt(s, false, GetSnapshotInfo) && S.IsName(s.snap.prog.cur.data) && !s.snap.prog.cur.partial.value.isView
    requires PartialHolds(cfg, s.snap.prog.cur, s.snap.prog.cur.partial.value, tables, parts)
    ensures Leads(cfg, s, S.GetInfo(S.Info(tables, parts, 0, 0)),
                  NextSubVolatile(s.snap.prog, AddExtraInfo, Some(S.PartialData(s.snap.prog.cur.data.value.name, tables, parts, ""))))
  {
  }

  lemma ExtraLeads(cfg: Config, s: State, full: bool)
    requires SyncAt(s, full, AddExtraInfo) && S.IsData(full, s.snap.prog.mem)
    ensures Leads(cfg, s, S.AddExtra(true), NextSubVolatile(s.snap.prog, RestoreSnapshot, s.snap.prog.mem))
  {
  }

  lemma RestoreLeads(cfg: Config, s: State, full: bool, job: string)
    requires SyncAt(s, full, RestoreSnapshot) && S.IsData(full, s.snap.prog.mem)
    ensures Leads(cfg, s, S.Restore(Some(job)),
                  NextSubVolatile(s.snap.prog, WaitRestoreDone, Some(S.WithJob(s.snap.prog.mem.value, job))))
  {
  }

  lemma Prepend(cfg: Config, s: State, step: S.Event, prog: Prog<S.Payload>, es: seq<R.Event>)
    requires Leads(cfg, s, step, prog) && CanRun(cfg, At(s, prog), es)
    ensures CanRun(cfg, s, [Snap(step, {})] + es) && Run(cfg, s, [Snap(step, {})] + es) == Run(cfg, At(s, prog), es)
  {
    RunCons(cfg, s, Snap(step, {}), es);
  }

  /** The progress with the snapshot's data in memory and its restore under way. */
  function Restoring(p: Prog<S.Payload>, data: S.Payload): Prog<S.Payload> {
    var p2 := NextSubCheckpoint(NextSubVolatile(p, WaitBackupDone, Some(S.Name("backup"))), GetSnapshotInfo, Some(S.Name("backup")));
    NextSubVolatile(p2, WaitRestoreDone, Some(S.WithJob(data, "restore")))
  }

  /** From the start of a sync to its running restore, whatever comes after. */
  lemma FullGetsToRestore(cfg: Config, s: State, tables: map<int, Seq>, at: Seq, rest: seq<R.Event>) returns (es: seq<R.Event>)
    requires SyncAt(s, true, BeginCreateSnapshot) && FullHolds(cfg, tables, at)
    requires s.snap.syncType.TableSync? ==> s.snap.src in tables
    requires CanRun(cfg, At(s, Restoring(s.snap.prog, S.FullData("backup", tables, at, ""))), rest)
    ensures CanRun(cfg, s, es)
    ensures Run(cfg, s, es) == Run(cfg, At(s, Restoring(s.snap.prog, S.FullData("backup", tables, at, ""))), rest)
  {
    var p1 := NextSubVolatile(s.snap.prog, WaitBackupDone, Some(S.Name("backup")));
    var p2 := NextSubCheckpoint(p1, GetSnapshotInfo, p1.mem);
    var p3 := NextSubVolatile(p2, AddExtraInfo, Some(S.FullData("backup", tables, at, "")));
    FullInfoLeads(cfg, At(s, p2), tables, at);
    es := RestoreBegins(cfg, s, true, p3, rest);
    Prepend(cfg, At(s, p2), S.GetInfo(S.Info(tables, map[], at, 0)), p3, es);
    es := [Snap(S.GetInfo(S.Info(tables, map[], at, 0)), {})] + es;
    es := BackupEnds(cfg, s, true, p1, p2, es);
  }

  lemma PartialGetsToRestore(cfg: Config, s: State, tables: map<int, Seq>, parts: map<int, Seq>, rest: seq<R.Event>) returns (es: seq<R.Event>)
    requires SyncAt(s, false, BeginCreateSnapshot) && !s.snap.prog.cur.partial.value.isView
    requires PartialHolds(cfg, s.snap.prog.cur, s.snap.prog.cur.partial.value, tables, parts)
    requires CanRun(cfg, At(s, Restoring(s.snap.prog, S.PartialData("backup", tables, parts, ""))), rest)
    ensures CanRun(cfg, s, es)
    ensures Run(cfg, s, es) == Run(cfg, At(s, Restoring(s.snap.prog, S.PartialData("backup", tables, parts, ""))), rest)
  {
    var p1 := NextSubVolatile(s.snap.prog, WaitBackupDone, Some(S.Name("backup")));
    var p2 := NextSubCheckpoint(p1, GetSnapshotInfo, p1.mem);
    var p3 := NextSubVolatile(p2, AddExtraInfo, Some(S.PartialData("backup", tables, parts, "")));
    PartialInfoLeads(cfg, At(s, p2), tables, parts);
    es := RestoreBegins(cfg, s, false, p3, rest);
    Prepend(cfg, At(s, p2), S.GetInfo(S.Info(tables, parts, 0, 0)), p3, es);
    es := [Snap(S.GetInfo(S.Info(tables, parts, 0, 0)), {})] + es;
    es := BackupEnds(cfg, s, false, p1, p2, es);
  }

  lemma BackupEnds(cfg: Config, s: State, full: bool, p1: Prog<S.Payload>, p2: Prog<S.Payload>, rest: seq<R.Event>) returns (es: seq<R.Event>)
    requires SyncAt(s, full, BeginCreateSnapshot) && p1 == NextSubVolatile(s.snap.prog, WaitBackupDone, Some(S.Name("backup")))
    requires p2 == NextSubCheckpoint(p1, GetSnapshotInfo, p1.mem) && CanRun(cfg, At(s, p2), rest)
    ensures CanRun(cfg, s, es) && Run(cfg, s, es) == Run(cfg, At(s, p2), rest)
  {
    BeginLeads(cfg, s, full, "backup");
    BackupLeads(cfg, At(s, p1), full);
    Prepend(cfg, At(s, p1), S.WaitBackup(S.BackupDone), p2, rest);
    es := [Snap(S.WaitBackup(S.BackupDone), {})] + rest;
    Prepend(cfg, s, S.Begin(Some("backup")), p1, es);
    es := [Snap(S.Begin(Some("backup")), {})] + es;
  }

  lemma RestoreBegins(cfg: Config, s: State, full: bool, p3: Prog<S.Payload>, rest: seq<R.Event>) returns (es: seq<R.Event>)
    requires SyncAt(At(s, p3), full, AddExtraInfo) && S.IsData(full, p3.mem)
    requires CanRun(cfg, At(s, NextSubVolatile(p3, WaitRestoreDone, Some(S.WithJob(p3.mem.value, "restore")))), rest)
    ensures CanRun(cfg, At(s, p3), es)
    ensures Run(cfg, At(s, p3), es) == Run(cfg, At(s, NextSubVolatile(p3, WaitRestoreDone, Some(S.WithJob(p3.mem.value, "restore")))), rest)
  {
    var p4 := NextSubVolatile(p3, RestoreSnapshot, p3.mem);
    var p5 := NextSubVolatile(p3, WaitRestoreDone, Some(S.WithJob(p3.mem.value, "restore")));
    ExtraLeads(cfg, At(s, p3), full);
    RestoreLeads(cfg, At(s, p4), full, "restore");
    Prepend(cfg, At(s, p4), S.Restore(Some("restore")), p5, rest);
    es := [Snap(S.Restore(Some("restore")), {})] + rest;
    Prepend(cfg, At(s, p3), S.AddExtra(true), p4, es);
    es := [Snap(S.AddExtra(true), {})] + es;
  }

  function Ending(c: Seq): seq<R.Event> {
    [Snap(S.WaitRestore(S.RestoreDone(c)), {})] + [Snap(S.PersistInfo(S.Persisted), {})]
  }

  /** The last two steps also fill the destination; only the progress is followed here. */
  lemma EndLeads(cfg: Config, s: State, c: Seq)
    requires !S.IsIncremental(s.snap.prog.cur.sync) && SnapAllowed(cfg, s.snap, S.WaitRestore(S.RestoreDone(c)))
    requires var mid := S.Next(s.snap, S.WaitRestore(S.RestoreDone(c)));
      !S.IsIncremental(mid.prog.cur.sync) && mid.prog.cur.sub.PersistRestoreInfo? && !mid.panicked
    ensures CanRun(cfg, s, Ending(c))
    ensures Run(cfg, s, Ending(c)).snap == S.Next(S.Next(s.snap, S.WaitRestore(S.RestoreDone(c))), S.PersistInfo(S.Persisted))
  {
    var s1 := R.Next(cfg, s, Snap(S.WaitRestore(S.RestoreDone(c)), {}));
    assert [Snap(S.PersistInfo(S.Persisted), {})] + [] == [Snap(S.PersistInfo(S.Persisted), {})];
    RunCons(cfg, s1, Snap(S.PersistInfo(S.Persisted), {}), []);
    RunCons(cfg, s, Snap(S.WaitRestore(S.RestoreDone(c)), {}), [Snap(S.PersistInfo(S.Persisted), {})]);
  }

  predicate SameTable(s: State, s': State) {
    s'.snap.src == s.snap.src && s'.snap.srcTable == s.snap.srcTable && s'.snap.syncType == s.snap.syncType
  }

  ghost predicate StartsAt(cfg: Config, src: int, tables: map<int, Seq>, at: Seq, c: Seq) {
    if cfg.syncType.DBSync? then S.IsStart(tables, at, c) else src in tables && c == tables[src]
  }

  predicate FullDone(syncType: SyncType, tables: map<int, Seq>, c: Seq, r: Row<S.Payload>) {
    && S.IsIncremental(r.sync) && r.IsDone() && r.prev == c && r.parts == None
    && r.tables == if syncType.DBSync? then Some(tables) else None
  }

  lemma FullEnds(cfg: Config, s: State, tables: map<int, Seq>, at: Seq, c: Seq)
    requires SyncAt(s, true, WaitRestoreDone) && s.snap.prog.mem == Some(S.FullData("backup", tables, at, "restore"))
    requires s.snap.syncType == cfg.syncType && StartsAt(cfg, s.snap.src, tables, at, c)
    ensures CanRun(cfg, s, Ending(c)) && SameTable(s, Run(cfg, s, Ending(c)))
    ensures FullDone(cfg.syncType, tables, c, Run(cfg, s, Ending(c)).snap.prog.cur)
  {
    EndLeads(cfg, s, c);
  }

  /** The assumptions can be met: any snapshot that fits the log takes a new job, of a database or of
      a table, through the steps of a full sync, to replay from the snapshot's smallest watermark or
      from the table's. */
  lemma {:induction false} FullSyncGetsThere(cfg: Config, s: State, tables: map<int, Seq>, at: Seq, c: Seq) returns (es: seq<R.Event>)
    requires Init(cfg, s) && FullHolds(cfg, tables, at) && StartsAt(cfg, s.snap.src, tables, at, c)
    ensures CanRun(cfg, s, es) && Inv(cfg, Run(cfg, s, es)) && SameTable(s, Run(cfg, s, es))
    ensures FullDone(cfg.syncType, tables, c, Run(cfg, s, es).snap.prog.cur)
  {
    FullEnds(cfg, At(s, Restoring(s.snap.prog, S.FullData("backup", tables, at, ""))), tables, at, c);
    es := FullGetsToRestore(cfg, s, tables, at, Ending(c));
    RunKeeps(cfg, s, es);
  }

  lemma TriggerStarts(cfg: Config, s: State, i: nat, d: PartialSyncData)
    requires Inv(cfg, s) && R.Enabled(cfg, s, Trigger(i, d, None)) && !S.Refuses(s.snap, d, false)
    ensures var s' := R.Next(cfg, s, Trigger(i, d, None));
      && SyncAt(s', false, BeginCreateSnapshot) && s'.snap.src == s.snap.src && s'.snap.syncType == s.snap.syncType
      && var r, r' := s.snap.prog.cur, s'.snap.prog.cur;
      r' == r.(commit := cfg.log[i].at, last := cfg.log[i].at, partial := Some(d), aliases := None, data := None, sync := r'.sync, sub := BeginCreateSnapshot)
  {
  }

  /** What a partial sync of `d` leaves in the row `r` it began with. */
  predicate PartialDone(syncType: SyncType, src: int, r: Row<S.Payload>, d: PartialSyncData, tables: map<int, Seq>, parts: map<int, Seq>, r': Row<S.Payload>) {
    && S.IsIncremental(r'.sync) && r'.IsDone()
    && (if syncType.DBSync? then r'.prev == r.commit && r'.tables == (if d.partitions == {} then S.Merged(r.tables, tables) else r.tables)
        else r'.tables == None && src in tables && r'.prev == (if d.partitions == {} then tables[src] else r.commit))
    && r'.parts == (if d.partitions != {} then S.Merged(r.parts, parts) else if syncType.DBSync? then r.parts else None)
  }

  lemma PartialEndRow(snap: S.State, d: PartialSyncData, tables: map<int, Seq>, parts: map<int, Seq>)
    requires snap.prog.mem == Some(S.PartialData("backup", tables, parts, "restore")) && snap.prog.cur.partial == Some(d)
    requires snap.prog.cur.aliases.None? && d.tableId in tables
    requires snap.syncType.TableSync? ==> d.tableId == snap.src && snap.prog.cur.tables.None?
    ensures var mid := S.PartialWaitRestoreStep(snap, S.RestoreDone(0));
      && mid.prog.cur.sync == snap.prog.cur.sync && mid.prog.cur.sub.PersistRestoreInfo? && mid.prog.cur.partial == Some(d)
      && PartialDone(snap.syncType, snap.src, snap.prog.cur, d, tables, parts, S.PartialFinishStep(mid, S.Persisted).prog.cur)
  {
  }

  lemma PartialEnds(cfg: Config, s: State, tables: map<int, Seq>, parts: map<int, Seq>)
    requires SyncAt(s, false, WaitRestoreDone) && s.snap.prog.mem == Some(S.PartialData("backup", tables, parts, "restore"))
    requires var d := s.snap.prog.cur.partial.value;
      d.tableId in tables && (s.snap.syncType.TableSync? ==> d.tableId == s.snap.src && s.snap.prog.cur.tables.None?)
    requires s.snap.prog.cur.aliases.None? && s.snap.syncType == cfg.syncType
    ensures CanRun(cfg, s, Ending(0)) && Run(cfg, s, Ending(0)).snap.src == s.snap.src
    ensures PartialDone(cfg.syncType, s.snap.src, s.snap.prog.cur, s.snap.prog.cur.partial.value, tables, parts, Run(cfg, s, Ending(0)).snap.prog.cur)
  {
    PartialEndRow(s.snap, s.snap.prog.cur.partial.value, tables, parts);
    EndLeads(cfg, s, 0);
  }

  /** From replay a partial sync, asked for by any binlog that touches nothing but its region and
      filtered partitions, gets through and replay goes on. */
  lemma {:induction false} PartialSyncGetsThere(cfg: Config, s: State, i: nat, d: PartialSyncData, tables: map<int, Seq>, parts: map<int, Seq>)
    returns (es: seq<R.Event>)
    requires Inv(cfg, s) && R.Enabled(cfg, s, Trigger(i, d, None)) && !S.Refuses(s.snap, d, false) && !d.isView
    requires PartialHolds(cfg, s.snap.prog.cur.(commit := cfg.log[i].at), d, tables, parts)
    ensures CanRun(cfg, s, es) && Inv(cfg, Run(cfg, s, es)) && Run(cfg, s, es).snap.src == s.snap.src
    ensures PartialDone(cfg.syncType, s.snap.src, s.snap.prog.cur.(commit := cfg.log[i].at), d, tables, parts, Run(cfg, s, es).snap.prog.cur)
  {
    var e := Trigger(i, d, None);
    TriggerStarts(cfg, s, i, d);
    var s1 := R.Next(cfg, s, e);
    var s2 := At(s1, Restoring(s1.snap.prog, S.PartialData("backup", tables, parts, "")));
    PartialEnds(cfg, s2, tables, parts);
    es := PartialGetsToRestore(cfg, s1, tables, parts, Ending(0));
    RunCons(cfg, s, e, es);
    es := [e] + es;
    RunKeeps(cfg, s, es);
  }

  /** A table synced by itself: a full sync, some binlog that asks for the whole table again, and
      replay from the second snapshot. */
  lemma {:induction false} TableSyncGetsThere(cfg: Config, s: State, c: Seq, i: nat, w: Seq) returns (es: seq<R.Event>)
    requires Init(cfg, s) && cfg.syncType.TableSync? && c > 0 && IsNext(cfg.log, c, i) && cfg.log[i].at <= w
    ensures CanRun(cfg, s, es)
    ensures var r := Run(cfg, s, es).snap.prog.cur; S.IsIncremental(r.sync) && r.IsDone() && r.prev == w && r.tables == None && r.parts == None
  {
    var src := s.snap.src;
    es := FullSyncGetsThere(cfg, s, map[src := c], 0, c);
    var d := PartialSyncData(src, s.snap.srcTable, false, {});
    var none: map<int, Seq> := map[];
    assert none == map p | p in d.partitions :: w;
    var fs := PartialSyncGetsThere(cfg, Run(cfg, s, es), i, d, map[src := w], none);
    RunConcat(cfg, s, es, fs);
    es := es + fs;
  }

  /** The situation in which a direct schema change goes wrong is there: a full sync leaves table `t`
      below binlog `i + 1`, binlog `i` asks for partition `p` again, and the snapshot taken for it
      already holds binlog `i + 1`, which touches `p` and is next. */
  lemma {:induction false} StraddlingGetsThere(cfg: Config, s: State, tables: map<int, Seq>, at: Seq, c: Seq, i: nat, p: int, t: int)
    returns (es: seq<R.Event>)
    requires Init(cfg, s) && cfg.syncType.DBSync? && FullHolds(cfg, tables, at) && S.IsStart(tables, at, c)
    requires i + 1 < |cfg.log| && p in cfg.tableOf && cfg.tableOf[p] == t && (t in tables ==> tables[t] < cfg.log[i + 1].at)
    requires IsNext(cfg.log, c, i) && cfg.log[i].touches <= {p} && cfg.log[i + 1].kind.Ddl?
    requires p in cfg.log[i + 1].touches && Touching(cfg, i + 1, t) && cfg.log[i + 1].at != 0
    ensures CanRun(cfg, s, es)
    ensures var s' := Run(cfg, s, es);
      && Replaying(s', cfg, i + 1) && Straddles(cfg, s'.snap.prog.cur, p, cfg.log[i + 1].at)
      && var s'' := DirectDdlStep(cfg, s', i + 1, t);
      var r := s''.snap.prog.cur;
      p in s''.dest && s''.dest[p] != Content(cfg.log, p, Level(cfg, r, r.prev, p))
  {
    var w := cfg.log[i + 1].at;
    es := FullSyncGetsThere(cfg, s, tables, at, c);
    var d := PartialSyncData(t, "", false, {p});
    var parts := map[p := w];
    assert parts == map q | q in d.partitions :: w;
    var fs := PartialSyncGetsThere(cfg, Run(cfg, s, es), i, d, map[t := w], parts);
    RunConcat(cfg, s, es, fs);
    es := es + fs;
    var s' := Run(cfg, s, es);
    assert s'.snap.prog.cur.parts == Some(parts);
    Straddled(cfg, s', i + 1, t, p);
  }

  /** The smallest such case: table 5 with partition 7 is written at 1, and changed at 2 and at 3. */
  const Small: Config := Config([Entry(1, Kind.Upsert, {7}), Entry(2, Kind.Ddl, {7}), Entry(3, Kind.Ddl, {7})],
                                DBSync, map[7 := 5], map[])

  lemma {:induction false} DirectDdlGoesWrong() returns (s: State, es: seq<R.Event>)
    ensures Init(Small, s) && CanRun(Small, s, es)
    ensures var s' := Run(Small, s, es);
      && Replaying(s', Small, 2) && Straddles(Small, s'.snap.prog.cur, 7, 3)
      && var s'' := DirectDdlStep(Small, s', 2, 5);
      var r := s''.snap.prog.cur;
      7 in s''.dest && s''.dest[7] != Content(Small.log, 7, Level(Small, r, r.prev, 7))
  {
    var row: Row<S.Payload> := Row(DBFullSync, BeginCreateSnapshot, 0, 0, 0, 0, None, None, None, None, None);
    s := State(S.State(Prog(row, None, row), DBSync, "", 0, false), map[7 := []], map[]);
    var tables: map<int, Seq> := map[5 := 1];
    assert S.IsStart(tables, 0, 1) by {
      assert 5 in tables && tables[5] == 1;
    }
    es := StraddlingGetsThere(Small, s, tables, 0, 1, 1, 7, 5);
  }
}
