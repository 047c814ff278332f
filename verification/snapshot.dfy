/** Full and partial sync: the steps from taking a snapshot at the source to replaying the binlogs
    after it, with the job's progress kept partly in memory and partly in the store. */
module Snapshots {
  import opened Wrappers
  import opened Progress

  /** The payloads the steps keep: a snapshot name, the data of a full or of a partial sync, or
      whatever incremental sync left.  The last three are different types in the source. */
  datatype Payload =
    | Name(name: string)
    | FullData(snapshot: string, tables: map<int, Seq>, at: Seq, restoreJob: string)
    | PartialData(snapshot: string, tables: map<int, Seq>, parts: map<int, Seq>, restoreJob: string)
    | IncrementalData

  /** `srcTable` and `src` are the name and the id of the source table of a table sync; `panicked`
      records a failed cast. */
  datatype State = State(prog: Prog<Payload>, syncType: SyncType, srcTable: string, src: int, panicked: bool)

  datatype BackupStatus = BackupRunning | BackupDone | BackupFailed
  /** `at` is the snapshot's own position, `view` the id in the backup of a view asked for by name. */
  datatype InfoReply = InfoFailed | SnapshotGone(alias: string) | IdMismatch(id: int) | Info(tables: map<int, Seq>, parts: map<int, Seq>, at: Seq, view: int)
  datatype RestoreStatus =
    | RestoreExpired(alias: string) | RestoreRunning | RestoreFailed
    | NotMatched(table: string, alias: string, replace: bool)
    | Rebooted
    | RestoreDone(commitSeq: Seq)
  datatype FinishReply = SwapFailed | MappingFailed | Persisted

  datatype Event =
    | Begin(name: Option<string>)
    | PartitionGone(alias: string)
    | TableRenamed(newName: string, alias: string)
    | TableDropped
    | WaitBackup(backup: BackupStatus)
    | GetInfo(info: InfoReply)
    | AddExtra(ok: bool)
    | Restore(job: Option<string>)
    | WaitRestore(restore: RestoreStatus)
    | PersistInfo(finish: FinishReply)
    | Crash
    | MetaError
    | Incremental(after: Prog<Payload>)
    | StartFull(commitSeq: Seq)
    | StartPartial(partial: PartialSyncData, replacing: Option<string>)

  predicate IsFull(sync: SyncState) { sync.DBFullSync? || sync.TableFullSync? }
  predicate IsPartial(sync: SyncState) { sync.DBPartialSync? || sync.TablePartialSync? }
  predicate IsIncremental(sync: SyncState) { !IsFull(sync) && !IsPartial(sync) }

  predicate HasAlias<D>(r: Row<D>) { r.aliases.Some? && |r.aliases.value| > 0 }

  function NewSnapshot(s: State, c: Seq): State {
    var p := s.prog.(cur := s.prog.cur.(partial := None, aliases := None));
    s.(prog := NextWithPersist(p, c, if s.syncType.DBSync? then DBFullSync else TableFullSync, BeginCreateSnapshot))
  }

  /** A table sync takes no snapshot of another table, and the restored table can replace the old one,
      under an alias, only as a whole. */
  predicate Refuses(s: State, data: PartialSyncData, replacing: bool) {
    || (!data.isView && s.syncType.TableSync? && data.table != s.srcTable)
    || (replacing && |data.partitions| != 0)
  }

  function NewPartialSnapshot(s: State, data: PartialSyncData, alias: Option<string>): State {
    if Refuses(s, data, alias.Some?) then s
    else
      var cur := s.prog.cur.(partial := Some(data),
                             aliases := if alias.Some? then Some(map[data.table := alias.value]) else None);
      s.(prog := NextWithPersist(s.prog.(cur := cur), cur.commit,
                                 if s.syncType.DBSync? then DBPartialSync else TablePartialSync, BeginCreateSnapshot))
  }

  /** A table dropped at the source: its binlogs are skipped for good, and replay goes on. */
  function TableDroppedStep(s: State): State {
    if s.syncType.TableSync? || s.prog.cur.partial.None? then s
    else
      var before := if s.prog.cur.tables.Some? then s.prog.cur.tables.value else map[];
      var tables := before[s.prog.cur.partial.value.tableId := MAX_SEQ];
      s.(prog := NextWithPersist(s.prog.(cur := s.prog.cur.(tables := Some(tables))), s.prog.cur.commit, DBTablesIncrementalSync, Done))
  }

  function Panic(s: State): State { s.(panicked := true) }

  function WithJob(d: Payload, job: string): Payload {
    match d
    case FullData(name, tables, at, _) => FullData(name, tables, at, job)
    case PartialData(name, tables, parts, _) => PartialData(name, tables, parts, job)
    case _ => d
  }

  /** The smallest position among the watermarks, not counting zeros, and the snapshot's own. */
  ghost predicate IsStart(tables: map<int, Seq>, at: Seq, c: Seq) {
    && c <= MAX_SEQ
    && (forall t :: t in tables && tables[t] != 0 ==> c <= tables[t])
    && (at > 0 ==> c <= at)
    && (c == MAX_SEQ || (at > 0 && c == at) || exists t :: t in tables && tables[t] == c && c != 0)
  }

  // ----- Steps that both syncs take alike -----

  function BeginStep(s: State, name: Option<string>): State {
    if name.None? then s else s.(prog := NextSubVolatile(s.prog, WaitBackupDone, Some(Name(name.value))))
  }

  function WaitBackupStep(s: State, r: BackupStatus): State {
    var p := s.prog;
    if p.mem.None? || !p.mem.value.Name? then Panic(s)
    else match r
      case BackupRunning => s
      case BackupFailed => s.(prog := NextSubVolatile(p, BeginCreateSnapshot, p.mem))
      case BackupDone => s.(prog := NextSubCheckpoint(p, GetSnapshotInfo, p.mem))
  }

  /** `mine` is the type the method's cast expects. */
  predicate IsData(full: bool, mem: Option<Payload>) {
    mem.Some? && if full then mem.value.FullData? else mem.value.PartialData?
  }

  function AddExtraStep(s: State, full: bool, ok: bool): State {
    if !IsData(full, s.prog.mem) then Panic(s)
    else if ok then s.(prog := NextSubVolatile(s.prog, RestoreSnapshot, s.prog.mem))
    else s
  }

  /** With nothing in memory the payload is decoded from the store; a name does not decode. */
  function RestoreStep(s: State, full: bool, job: Option<string>): State {
    var m := if s.prog.mem.Some? then s.prog.mem else s.prog.cur.data;
    if s.prog.mem.None? && !IsData(full, s.prog.cur.data) then s
    else if !IsData(full, m) then Panic(s)
    else if job.None? then s.(prog := s.prog.(mem := m))
    else s.(prog := NextSubVolatile(s.prog, WaitRestoreDone, Some(WithJob(m.value, job.value))))
  }

  // ----- fullSyncWithPermit -----

  function FullInfoStep(s: State, r: InfoReply): State {
    var p := s.prog;
    if p.cur.data.None? || !p.cur.data.value.Name? then s
    else match r
      case InfoFailed => s
      case SnapshotGone(_) => NewSnapshot(s, p.cur.commit)
      case IdMismatch(id) => if s.syncType.TableSync? then NewSnapshot(s.(src := id), p.cur.commit) else s
      case Info(tables, _, at, _) =>
        if s.syncType.TableSync? && s.src !in tables then s
        else s.(prog := NextSubVolatile(p, AddExtraInfo, Some(FullData(p.cur.data.value.name, tables, at, ""))))
  }

  function FullWaitRestoreStep(s: State, r: RestoreStatus): State {
    var p := s.prog;
    if !IsData(true, p.mem) then Panic(s)
    else
      var m := p.mem.value;
      match r
      case RestoreExpired(_) => NewSnapshot(s, p.cur.commit)
      case RestoreRunning => s
      case RestoreFailed => s.(prog := NextSubVolatile(p, RestoreSnapshot, p.mem))
      case NotMatched(table, alias, replace) =>
        if replace then
          var before := if p.cur.aliases.Some? then p.cur.aliases.value else map[];
          var p' := p.(cur := p.cur.(aliases := Some(before[table := alias])));
          s.(prog := NextSubVolatile(NextSubCheckpoint(p', GetSnapshotInfo, Some(Name(m.snapshot))), RestoreSnapshot, p.mem))
        else s.(prog := NextSubVolatile(p, RestoreSnapshot, p.mem))
      case Rebooted => s.(prog := Reload(p))
      case RestoreDone(c) =>
        var cur := if s.syncType.DBSync? then p.cur.(tables := Some(m.tables)) else p.cur;
        s.(prog := CommitNextSubWithPersist(p.(cur := cur), c, PersistRestoreInfo, Some(Name(m.restoreJob))))
  }

  function Swapped(s: State): State {
    if HasAlias(s.prog.cur)
    then s.(prog := NextSubCheckpoint(s.prog.(cur := s.prog.cur.(aliases := None)), PersistRestoreInfo, s.prog.cur.data))
    else s
  }

  function FullFinishStep(s: State, r: FinishReply): State {
    match r
    case SwapFailed => s
    case MappingFailed => Swapped(s)
    case Persisted =>
      var p := Swapped(s).prog;
      if s.syncType.DBSync? then
        s.(prog := NextWithPersist(p.(cur := p.cur.(parts := None)), p.cur.commit, DBTablesIncrementalSync, Done))
      else
        s.(prog := NextWithPersist(p.(cur := p.cur.(parts := None, tables := None)), p.cur.commit, TableIncrementalSync, Done))
  }

  function FullStep(s: State, e: Event): State
    requires e.Begin? || e.WaitBackup? || e.GetInfo? || e.AddExtra? || e.Restore? || e.WaitRestore? || e.PersistInfo?
  {
    match e
    case Begin(name) => BeginStep(s, name)
    case WaitBackup(r) => WaitBackupStep(s, r)
    case GetInfo(r) => FullInfoStep(s, r)
    case AddExtra(ok) => AddExtraStep(s, true, ok)
    case Restore(job) => RestoreStep(s, true, job)
    case WaitRestore(r) => FullWaitRestoreStep(s, r)
    case PersistInfo(r) => FullFinishStep(s, r)
  }

  // ----- partialSync -----

  function PartialInfoStep(s: State, r: InfoReply): State {
    var p := s.prog;
    if p.cur.partial.None? || p.cur.data.None? || !p.cur.data.value.Name? then s
    else
      var d := p.cur.partial.value;
      match r
      case InfoFailed => s
      case SnapshotGone(alias) => NewPartialSnapshot(s, d, if HasAlias(p.cur) then Some(alias) else None)
      case IdMismatch(id) =>
        if d.isView then s else NewSnapshot(if s.syncType.TableSync? then s.(src := id) else s, p.cur.commit)
      case Info(tables, parts, at, view) =>
        if d.isView then
          s.(prog := NextSubVolatile(p, AddExtraInfo, Some(PartialData(p.cur.data.value.name, tables[view := at], map[], ""))))
        else if d.tableId !in tables then s
        else s.(prog := NextSubVolatile(p, AddExtraInfo, Some(PartialData(p.cur.data.value.name, tables, parts, ""))))
  }

  function Merged(m: Option<map<int, Seq>>, n: map<int, Seq>): Option<map<int, Seq>> {
    Some(if m.Some? then m.value + n else n)
  }

  function PartialWaitRestoreStep(s: State, r: RestoreStatus): State {
    var p := s.prog;
    if p.cur.partial.None? then s
    else if !IsData(false, p.mem) then Panic(s)
    else
      var m, d := p.mem.value, p.cur.partial.value;
      match r
      case RestoreExpired(alias) => NewPartialSnapshot(s, d, if HasAlias(p.cur) then Some(alias) else None)
      case RestoreRunning => s
      case RestoreFailed => s.(prog := NextSubVolatile(p, RestoreSnapshot, p.mem))
      case NotMatched(_, alias, _) => NewPartialSnapshot(s, d.(partitions := {}, isView := false), Some(alias))
      case Rebooted => s
      case RestoreDone(_) =>
        var cur := if |d.partitions| > 0 then p.cur.(parts := Merged(p.cur.parts, m.parts))
                   else p.cur.(tables := Merged(p.cur.tables, m.tables));
        s.(prog := NextSubCheckpoint(p.(cur := cur), PersistRestoreInfo, Some(Name(m.restoreJob))))
  }

  function PartialSwapped(s: State): State {
    if s.prog.cur.partial.Some? && s.prog.cur.aliases.Some? && s.prog.cur.partial.value.table in s.prog.cur.aliases.value
    then Swapped(s) else s
  }

  function PartialFinishStep(s: State, r: FinishReply): State {
    match r
    case SwapFailed => s
    case MappingFailed => PartialSwapped(s)
    case Persisted =>
      var p := PartialSwapped(s).prog;
      if p.cur.partial.None? then s
      else if s.syncType.DBSync? then s.(prog := NextWithPersist(p, p.cur.commit, DBTablesIncrementalSync, Done))
      else if |p.cur.partial.value.partitions| > 0 then
        s.(prog := NextWithPersist(p.(cur := p.cur.(tables := None)), p.cur.commit, TableIncrementalSync, Done))
      else if p.cur.tables.None? || s.src !in p.cur.tables.value then s.(prog := p)
      else
        var c := p.cur.tables.value[s.src];
        s.(prog := NextWithPersist(p.(cur := p.cur.(tables := None, parts := None)), c, TableIncrementalSync, Done))
  }

  /** A snapshot of partitions that are gone becomes one of the whole table, under an alias; so does
      one of a table that was renamed. */
  function PartialStep(s: State, e: Event): State
    requires !e.Crash? && !e.MetaError? && !e.Incremental? && !e.StartFull? && !e.StartPartial?
  {
    var d := s.prog.cur.partial;
    if d.None? then s
    else match e
      case Begin(name) => BeginStep(s, name)
      case PartitionGone(alias) => NewPartialSnapshot(s, d.value.(partitions := {}, isView := false), Some(alias))
      case TableRenamed(newName, alias) =>
        NewPartialSnapshot(s, d.value.(table := newName, partitions := {}, isView := false), Some(alias))
      case TableDropped => TableDroppedStep(s)
      case WaitBackup(r) => WaitBackupStep(s, r)
      case GetInfo(r) => PartialInfoStep(s, r)
      case AddExtra(ok) => AddExtraStep(s, false, ok)
      case Restore(job) => RestoreStep(s, false, job)
      case WaitRestore(r) => PartialWaitRestoreStep(s, r)
      case PersistInfo(r) => PartialFinishStep(s, r)
  }

  // ----- The whole machine -----

  /** The sub state whose case handles the event. */
  predicate Handles(sub: SubState, e: Event) {
    match e
    case Begin(_) => sub.BeginCreateSnapshot?
    case PartitionGone(_) => sub.BeginCreateSnapshot?
    case TableRenamed(_, _) => sub.BeginCreateSnapshot?
    case TableDropped => sub.BeginCreateSnapshot?
    case WaitBackup(_) => sub.WaitBackupDone?
    case GetInfo(_) => sub.GetSnapshotInfo?
    case AddExtra(_) => sub.AddExtraInfo?
    case Restore(_) => sub.RestoreSnapshot?
    case WaitRestore(_) => sub.WaitRestoreDone?
    case PersistInfo(_) => sub.PersistRestoreInfo?
    case _ => true
  }

  predicate Enabled(s: State, e: Event) {
    var sync := s.prog.cur.sync;
    !s.panicked &&
    match e
    case Crash => true
    case MetaError => true
    case StartFull(_) => IsIncremental(sync)
    case StartPartial(_, _) => IsIncremental(sync)
    case Incremental(p) => IsIncremental(sync) && IsIncremental(p.cur.sync) && IsIncremental(p.db.sync)
    case PartitionGone(_) => IsPartial(sync) && Handles(s.prog.cur.sub, e)
    case TableDropped => IsPartial(sync) && Handles(s.prog.cur.sub, e)
    case TableRenamed(_, _) => IsPartial(sync) && s.syncType.DBSync? && Handles(s.prog.cur.sub, e)
    case _ => !IsIncremental(sync) && Handles(s.prog.cur.sub, e)
  }

  function Next(s: State, e: Event): State
    requires Enabled(s, e)
  {
    if e.Crash? then s.(prog := Reload(s.prog))
    else if e.MetaError? then NewSnapshot(s, s.prog.cur.commit)
    else if e.Incremental? then s.(prog := e.after)
    else if e.StartFull? then NewSnapshot(s, e.commitSeq)
    else if e.StartPartial? then NewPartialSnapshot(s, e.partial, e.replacing)
    else if IsFull(s.prog.cur.sync) then FullStep(s, e)
    else PartialStep(s, e)
  }

  predicate CanRun(s: State, es: seq<Event>)
    decreases |es|
  {
    es == [] || (Enabled(s, es[0]) && CanRun(Next(s, es[0]), es[1..]))
  }

  function Run(s: State, es: seq<Event>): State
    requires CanRun(s, es)
    decreases |es|
  {
    if es == [] then s else Run(Next(s, es[0]), es[1..])
  }

  // ----- Restart safety -----

  predicate IsName(d: Option<Payload>) { d.Some? && d.value.Name? }

  /** A row that the method can go on from with nothing in memory. */
  predicate Resumable(r: Row<Payload>) {
    && (r.sub.BeginCreateSnapshot? || r.sub.GetSnapshotInfo? || r.sub.PersistRestoreInfo?)
    && (r.sub.GetSnapshotInfo? ==> IsName(r.data))
  }

  /** The row has what a partial sync relies on: its parameters, which name the right table, no alias
      beside a partition list, and, for a table, the watermark that the last step looks up. */
  predicate PartialOk(s: State, r: Row<Payload>) {
    && r.partial.Some?
    && (s.syncType.TableSync? && !r.partial.value.isView ==> r.partial.value.table == s.srcTable)
    && (HasAlias(r) ==> r.partial.value.partitions == {} && r.aliases.value.Keys == {r.partial.value.table})
    && (r.sub.PersistRestoreInfo? && r.partial.value.partitions == {} && !r.partial.value.isView ==>
          r.tables.Some? && r.partial.value.tableId in r.tables.value)
  }

  predicate MemOk(p: Prog<Payload>, full: bool) {
    match p.cur.sub
    case BeginCreateSnapshot => true
    case WaitBackupDone => IsName(p.mem)
    case GetSnapshotInfo => IsName(p.cur.data)
    case AddExtraInfo => IsData(full, p.mem)
    case RestoreSnapshot => IsData(full, p.mem)
    case WaitRestoreDone => IsData(full, p.mem)
    case PersistRestoreInfo => true
    case _ => false
  }

  /** What the restored data must contain for the last step of a partial sync. */
  predicate MarkOk(p: Prog<Payload>) {
    var restoring := p.cur.sub.AddExtraInfo? || p.cur.sub.RestoreSnapshot? || p.cur.sub.WaitRestoreDone?;
    restoring && p.cur.partial.Some? && !p.cur.partial.value.isView && IsData(false, p.mem) ==>
      p.cur.partial.value.tableId in p.mem.value.tables
  }

  predicate Inv(s: State) {
    var p := s.prog;
    && !s.panicked
    && (IsIncremental(p.cur.sync) <==> IsIncremental(p.db.sync))
    && (!IsIncremental(p.cur.sync) ==>
          && p.db.sync == p.cur.sync && Resumable(p.db) && MemOk(p, IsFull(p.cur.sync))
          && (IsPartial(p.cur.sync) ==> PartialOk(s, p.cur) && PartialOk(s, p.db) && MarkOk(p)))
  }

  lemma FullInfoKeeps(s: State, r: InfoReply)
    requires Inv(s) && IsFull(s.prog.cur.sync) && s.prog.cur.sub.GetSnapshotInfo?
    ensures Inv(FullInfoStep(s, r))
  {
  }

  lemma FullWaitRestoreKeeps(s: State, r: RestoreStatus)
    requires Inv(s) && IsFull(s.prog.cur.sync) && s.prog.cur.sub.WaitRestoreDone?
    ensures Inv(FullWaitRestoreStep(s, r))
  {
  }

  lemma FullFinishKeeps(s: State, r: FinishReply)
    requires Inv(s) && IsFull(s.prog.cur.sync) && s.prog.cur.sub.PersistRestoreInfo?
    ensures Inv(FullFinishStep(s, r))
  {
  }

  lemma FullKeeps(s: State, e: Event)
    requires Inv(s) && Enabled(s, e) && IsFull(s.prog.cur.sync) && !e.Crash? && !e.MetaError?
    ensures Inv(Next(s, e))
  {
    if e.GetInfo? {
      FullInfoKeeps(s, e.info);
    } else if e.WaitRestore? {
      FullWaitRestoreKeeps(s, e.restore);
    } else if e.PersistInfo? {
      FullFinishKeeps(s, e.finish);
    }
  }

  lemma NewPartialKeeps(s: State, d: PartialSyncData, alias: Option<string>)
    requires Inv(s) && (alias.Some? ==> d.partitions == {})
    ensures Inv(NewPartialSnapshot(s, d, alias))
  {
  }

  lemma PartialInfoKeeps(s: State, r: InfoReply)
    requires Inv(s) && IsPartial(s.prog.cur.sync) && s.prog.cur.sub.GetSnapshotInfo?
    ensures Inv(PartialInfoStep(s, r))
  {
    if r.SnapshotGone? {
      NewPartialKeeps(s, s.prog.cur.partial.value, if HasAlias(s.prog.cur) then Some(r.alias) else None);
    }
  }

  lemma PartialWaitRestoreKeeps(s: State, r: RestoreStatus)
    requires Inv(s) && IsPartial(s.prog.cur.sync) && s.prog.cur.sub.WaitRestoreDone?
    ensures Inv(PartialWaitRestoreStep(s, r))
  {
    var d := s.prog.cur.partial.value;
    if r.RestoreExpired? {
      NewPartialKeeps(s, d, if HasAlias(s.prog.cur) then Some(r.alias) else None);
    } else if r.NotMatched? {
      NewPartialKeeps(s, d.(partitions := {}, isView := false), Some(r.alias));
    }
  }

  lemma PartialFinishKeeps(s: State, r: FinishReply)
    requires Inv(s) && IsPartial(s.prog.cur.sync) && s.prog.cur.sub.PersistRestoreInfo?
    ensures Inv(PartialFinishStep(s, r))
  {
  }

  lemma PartialKeeps(s: State, e: Event)
    requires Inv(s) && Enabled(s, e) && IsPartial(s.prog.cur.sync) && !e.Crash? && !e.MetaError?
    ensures Inv(Next(s, e))
  {
    var d := s.prog.cur.partial.value;
    if e.GetInfo? {
      PartialInfoKeeps(s, e.info);
    } else if e.WaitRestore? {
      PartialWaitRestoreKeeps(s, e.restore);
    } else if e.PersistInfo? {
      PartialFinishKeeps(s, e.finish);
    } else if e.PartitionGone? {
      NewPartialKeeps(s, d.(partitions := {}, isView := false), Some(e.alias));
    } else if e.TableRenamed? {
      NewPartialKeeps(s, d.(table := e.newName, partitions := {}, isView := false), Some(e.alias));
    }
  }

  lemma OtherKeeps(s: State, e: Event)
    requires Inv(s) && Enabled(s, e) && (e.Crash? || e.MetaError? || IsIncremental(s.prog.cur.sync))
    ensures Inv(Next(s, e))
  {
  }

  lemma StepKeeps(s: State, e: Event)
    requires Inv(s) && Enabled(s, e)
    ensures Inv(Next(s, e))
  {
    if e.Crash? || e.MetaError? || IsIncremental(s.prog.cur.sync) {
      OtherKeeps(s, e);
    } else if IsFull(s.prog.cur.sync) {
      FullKeeps(s, e);
    } else {
      PartialKeeps(s, e);
    }
  }

  lemma {:induction false} RunKeeps(s: State, es: seq<Event>)
    requires Inv(s) && CanRun(s, es)
    ensures Inv(Run(s, es))
    decreases |es|
  {
    if es != [] {
      StepKeeps(s, es[0]);
      RunKeeps(Next(s, es[0]), es[1..]);
    }
  }

  ghost predicate Init(s: State) {
    && !s.panicked && IsFull(s.prog.cur.sync) && s.prog.cur.sub.BeginCreateSnapshot?
    && s.prog.mem.None? && s.prog.db == s.prog.cur
  }

  /** The steps whose next call casts the payload in memory. */
  predicate Casts(sub: SubState) {
    sub.WaitBackupDone? || sub.AddExtraInfo? || sub.RestoreSnapshot? || sub.WaitRestoreDone?
  }

  /** Whatever happens and wherever the process dies: no cast ever fails, what is stored names a
      step that needs nothing from memory, and where that step reads the stored payload it is a
      snapshot name. */
  lemma {:induction false} RestartSafe(s: State, es: seq<Event>)
    requires Init(s) && CanRun(s, es)
    ensures var r := Run(s, es);
      && !r.panicked
      && (!IsIncremental(r.prog.db.sync) ==>
            && r.prog.db.sub in {BeginCreateSnapshot, GetSnapshotInfo, PersistRestoreInfo}
            && (r.prog.db.sub.GetSnapshotInfo? ==> IsName(r.prog.db.data))
            && !Casts(Reload(r.prog).cur.sub))
      && (!IsIncremental(r.prog.cur.sync) && Casts(r.prog.cur.sub) ==>
            r.prog.mem.Some? && (r.prog.cur.sub.WaitBackupDone? || IsData(IsFull(r.prog.cur.sync), r.prog.mem)))
  {
    RunKeeps(s, es);
  }

  /** A partial sync of a table never stops on its own errors: its parameters are there, starting over
      with them is not refused, nor is starting over with the whole table, and the watermark of the
      restored table is found.  Only a table sync that was asked for a view can stop: it refuses to
      start over as a table, and its last step finishes exactly if the table has a watermark. */
  lemma {:induction false} PartialNeverStuck(s: State, es: seq<Event>)
    requires Init(s) && CanRun(s, es) && IsPartial(Run(s, es).prog.cur.sync)
    ensures var r := Run(s, es);
      && r.prog.cur.partial.Some?
      && var d := r.prog.cur.partial.value;
      && !Refuses(r, d, HasAlias(r.prog.cur))
      && (r.syncType.DBSync? || !d.isView || d.table == r.srcTable ==> !Refuses(r, d.(partitions := {}, isView := false), true))
      && (r.prog.cur.sub.PersistRestoreInfo? ==>
            (var end := PartialFinishStep(r, Persisted).prog.db;
             IsIncremental(end.sync) && end.IsDone() <==>
               r.syncType.DBSync? || d.partitions != {} || (r.prog.cur.tables.Some? && r.src in r.prog.cur.tables.value)))
      && (r.prog.cur.sub.PersistRestoreInfo? && d.partitions == {} && !d.isView ==>
            r.prog.cur.tables.Some? && d.tableId in r.prog.cur.tables.value)
  {
    RunKeeps(s, es);
  }
}
