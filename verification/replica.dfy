/** The contents of the two clusters.  Snapshots, watermarks, filtered replay and crashes together
    keep every destination partition equal to the source at a known position of the log. */
module Replica {
  import opened Wrappers
  import opened Progress
  import opened Binlogs
  import S = Snapshots
  import W = Watermarks

  /** `tableOf` gives the table of every replicated partition, `nameOf` the tables' names. */
  datatype Config = Config(log: seq<Entry>, syncType: SyncType, tableOf: map<int, int>, nameOf: map<int, string>)

  /** `staged` are partitions restored under an alias and not swapped in yet. */
  datatype State = State(snap: S.State, dest: map<int, seq<Seq>>, staged: map<int, seq<Seq>>)

  datatype Event =
    | Snap(step: S.Event, swapped: set<int>)
    | RestoreWrites(p: int, content: seq<Seq>)
    | Upsert(i: nat, ids: set<int>)
    | Ddl(i: nat)
    | DirectDdl(i: nat, t: int)
    | Trigger(i: nat, partial: PartialSyncData, replacing: Option<string>)
    | Attempt(i: nat)
    | Recover

  /** What partition `p` holds after the binlogs up to `s`: the changes that touched it, in order. */
  function Content(log: seq<Entry>, p: int, s: Seq): seq<Seq> {
    if log == [] then []
    else
      var e := log[|log| - 1];
      Content(log[..|log| - 1], p, s) + if p in e.touches && e.at <= s then [e.at] else []
  }

  function Raise(base: Seq, m: W.Marks, k: int): Seq {
    if m.Some? && k in m.value && m.value[k] > base then m.value[k] else base
  }

  /** The position partition `p` stands at: the replay position or a watermark beyond it. */
  function Level(cfg: Config, r: Row<S.Payload>, base: Seq, p: int): Seq
    requires p in cfg.tableOf
  {
    Raise(Raise(base, r.tables, cfg.tableOf[p]), r.parts, p)
  }

  /** The partitions a running sync restores. */
  predicate InRegion(cfg: Config, r: Row<S.Payload>, p: int)
    requires p in cfg.tableOf
  {
    S.IsFull(r.sync) || (S.IsPartial(r.sync) && r.partial.Some? && Selects(cfg, r.partial.value, p))
  }

  predicate Selects(cfg: Config, d: PartialSyncData, p: int)
    requires p in cfg.tableOf
  {
    if d.partitions == {} then cfg.tableOf[p] == d.tableId else p in d.partitions
  }

  predicate Aliased(cfg: Config, r: Row<S.Payload>, p: int)
    requires p in cfg.tableOf
  {
    S.HasAlias(r) &&
    (cfg.syncType.TableSync? || S.IsPartial(r.sync) ||
     (cfg.tableOf[p] in cfg.nameOf && cfg.nameOf[cfg.tableOf[p]] in r.aliases.value))
  }

  /** The watermark of the restored snapshot for `p`; zero when it has none. */
  function SnapshotMark(cfg: Config, m: S.Payload, d: Option<PartialSyncData>, p: int): Seq
    requires p in cfg.tableOf
  {
    match m
    case FullData(_, tables, _, _) => if cfg.tableOf[p] in tables then tables[cfg.tableOf[p]] else 0
    case PartialData(_, tables, parts, _) =>
      if d.Some? && d.value.partitions != {} then (if p in parts then parts[p] else 0)
      else if cfg.tableOf[p] in tables then tables[cfg.tableOf[p]] else 0
    case _ => 0
  }

  function Restored(cfg: Config, s: State, p: int): seq<Seq>
    requires p in cfg.tableOf
  {
    if s.snap.prog.mem.None? then []
    else
      var w := SnapshotMark(cfg, s.snap.prog.mem.value, s.snap.prog.cur.partial, p);
      if w == 0 then [] else Content(cfg.log, p, w)
  }

  /** A finished restore fills the region, or the tables standing in for it. */
  function RestoreEffect(cfg: Config, s: State): State {
    var r := s.snap.prog.cur;
    s.(dest := map p | p in s.dest :: if p in cfg.tableOf && InRegion(cfg, r, p) && !Aliased(cfg, r, p) then Restored(cfg, s, p) else s.dest[p],
       staged := map p | p in cfg.tableOf && InRegion(cfg, r, p) && Aliased(cfg, r, p) :: Restored(cfg, s, p))
  }

  /** The aliases of the partitions `ps` are swapped in. */
  function Swap(s: State, ps: set<int>): State {
    s.(dest := map p | p in s.dest :: if p in s.staged && p in ps then s.staged[p] else s.dest[p],
       staged := map p | p in s.staged && p !in ps :: s.staged[p])
  }

  predicate Restarts(before: S.State, after: S.State) {
    after.prog.cur.sub.BeginCreateSnapshot? && !before.prog.cur.sub.BeginCreateSnapshot?
  }

  function SnapStep(cfg: Config, s: State, e: S.Event, swapped: set<int>): State
    requires S.Enabled(s.snap, e)
  {
    var snap := S.Next(s.snap, e);
    if e.WaitRestore? && e.restore.RestoreDone? then RestoreEffect(cfg, s).(snap := snap)
    else if e.PersistInfo? then
      Swap(s, if e.finish.SwapFailed? then swapped else s.staged.Keys).(snap := snap)
    else if Restarts(s.snap, snap) then s.(snap := snap, staged := map[])
    else s.(snap := snap)
  }

  /** Is the change at `c` to partition `p` filtered out? */
  predicate Filtered(cfg: Config, r: Row<S.Payload>, p: int, c: Seq)
    requires p in cfg.tableOf
  {
    W.Covered(if cfg.syncType.DBSync? then r.tables else None, r.parts, cfg.tableOf[p], p, c)
  }

  /** Some record of the binlog is left after the filter, so there is a transaction to commit. */
  predicate Relevant(cfg: Config, r: Row<S.Payload>, e: Entry) {
    exists p :: p in e.touches && p in cfg.tableOf && !Filtered(cfg, r, p, e.at)
  }

  /** One upsert as an atomic step.  Only a commit raises watermarks, and it seals the progress before
      they can be dropped; an upsert without relevant records is sealed after. */
  function UpsertStep(cfg: Config, s: State, i: nat, ids: set<int>): State
    requires i < |cfg.log|
  {
    var e, r := cfg.log[i], s.snap.prog.cur;
    var relevant := Relevant(cfg, r, e);
    var p1 := StartHandle(s.snap.prog, e.at);
    var p2 := if relevant && cfg.syncType.DBSync? then p1.(cur := p1.cur.(tables := W.Raised(p1.cur.tables, ids, e.at))) else p1;
    var p3 := if relevant then Finish(p2) else p2;
    var p4 := p3.(cur := W.AfterHandle(cfg.syncType, p3.cur, e.at));
    s.(snap := s.snap.(prog := if relevant then p4 else Finish(p4)),
       dest := map p | p in s.dest :: if p in cfg.tableOf && p in e.touches && !Filtered(cfg, r, p, e.at) then s.dest[p] + [e.at] else s.dest[p])
  }

  function DdlStep(cfg: Config, s: State, i: nat): State
    requires i < |cfg.log|
  {
    var p1 := StartHandle(s.snap.prog, cfg.log[i].at);
    s.(snap := s.snap.(prog := Finish(p1.(cur := W.AfterHandle(cfg.syncType, p1.cur, cfg.log[i].at)))))
  }

  /** A handler that changes the destination itself, unless the binlog counts as committed. */
  function DirectDdlStep(cfg: Config, s: State, i: nat, t: int): State
    requires i < |cfg.log|
  {
    var e, r := cfg.log[i], s.snap.prog.cur;
    var s' := DdlStep(cfg, s, i);
    if W.IsBinlogCommitted({}, r.sync, r.tables, t, e.at) then s'
    else s'.(dest := map p | p in s.dest :: if p in e.touches then s.dest[p] + [e.at] else s.dest[p])
  }

  function Next(cfg: Config, s: State, e: Event): State
    requires Enabled(cfg, s, e)
  {
    match e
    case Snap(step, swapped) => SnapStep(cfg, s, step, swapped)
    case RestoreWrites(p, content) => s.(dest := s.dest[p := content])
    case Upsert(i, ids) => UpsertStep(cfg, s, i, ids)
    case Ddl(i) => DdlStep(cfg, s, i)
    case DirectDdl(i, t) => DirectDdlStep(cfg, s, i, t)
    case Trigger(i, d, alias) =>
      s.(snap := S.NewPartialSnapshot(s.snap.(prog := StartHandle(s.snap.prog, cfg.log[i].at)), d, alias))
    case Attempt(i) => s.(snap := s.snap.(prog := StartHandle(s.snap.prog, cfg.log[i].at)))
    case Recover => s.(snap := s.snap.(prog := Rollback(s.snap.prog)))
  }

  // ----- Assumptions about the clusters -----

  predicate RegionValid(cfg: Config, src: int, d: PartialSyncData) {
    && (forall p :: p in d.partitions && p in cfg.tableOf ==> cfg.tableOf[p] == d.tableId)
    && (cfg.syncType.TableSync? ==> d.tableId == src)
    && (d.isView ==> cfg.syncType.DBSync? && d.partitions == {} && forall p :: p in cfg.tableOf ==> cfg.tableOf[p] != d.tableId)
  }

  /** A table without a watermark in a full snapshot has no data up to where replay starts; a table
      synced by itself has one. */
  ghost predicate FullHolds(cfg: Config, tables: map<int, Seq>, at: Seq) {
    && (forall t :: t in tables ==> tables[t] >= 0)
    && (forall p :: p in cfg.tableOf && (cfg.tableOf[p] !in tables || tables[cfg.tableOf[p]] == 0) ==>
          cfg.syncType.DBSync? && forall c :: S.IsStart(tables, at, c) ==> Content(cfg.log, p, c) == [])
  }

  /** A partial snapshot describes its table only, and lies at or after the binlog that asked for it
      and every earlier watermark of its region. */
  ghost predicate PartialHolds(cfg: Config, r: Row<S.Payload>, d: PartialSyncData, tables: map<int, Seq>, parts: map<int, Seq>) {
    && tables.Keys == {d.tableId}
    && var w := tables[d.tableId];
    && r.commit <= w && w != 0 && Raise(w, r.tables, d.tableId) == w
    && (forall p :: p in cfg.tableOf && Selects(cfg, d, p) ==> Raise(w, r.parts, p) == w)
    && parts == map p | p in d.partitions :: w
  }

  /** A snapshot of a view describes nothing that holds data. */
  ghost predicate ViewHolds(cfg: Config, tables: map<int, Seq>) {
    forall p :: p in cfg.tableOf ==> cfg.tableOf[p] !in tables
  }

  ghost predicate DataHolds(cfg: Config, r: Row<S.Payload>, d: PartialSyncData, tables: map<int, Seq>, parts: map<int, Seq>) {
    if d.isView then ViewHolds(cfg, tables) else PartialHolds(cfg, r, d, tables, parts)
  }

  ghost predicate InfoHolds(cfg: Config, snap: S.State, tables: map<int, Seq>, parts: map<int, Seq>, at: Seq, view: int) {
    var r := snap.prog.cur;
    if S.IsFull(r.sync) then FullHolds(cfg, tables, at)
    else r.partial.Some? ==>
      var d := r.partial.value;
      DataHolds(cfg, r, d, if d.isView then tables[view := at] else tables, parts)
  }

  ghost predicate SnapAllowed(cfg: Config, snap: S.State, e: S.Event) {
    S.Enabled(snap, e) &&
    match e
    case Incremental(_) => false
    case TableDropped => false
    case StartPartial(d, _) => RegionValid(cfg, snap.src, d) && snap.prog.cur.IsDone()
    case GetInfo(r) => !r.IdMismatch? && (r.Info? ==> InfoHolds(cfg, snap, r.tables, r.parts, r.at, r.view))
    case WaitRestore(r) =>
      r.RestoreDone? && S.IsFull(snap.prog.cur.sync) && S.IsData(true, snap.prog.mem) ==>
        var m := snap.prog.mem.value;
        if cfg.syncType.DBSync? then S.IsStart(m.tables, m.at, r.commitSeq)
        else snap.src in m.tables && r.commitSeq == m.tables[snap.src]
    case _ => true
  }

  predicate Replaying(s: State, cfg: Config, i: nat) {
    S.IsIncremental(s.snap.prog.cur.sync) && s.snap.prog.cur.IsDone() && IsNext(cfg.log, s.snap.prog.cur.prev, i)
  }

  /** A partition whose own watermark covers `c` while its table's does not. */
  predicate Straddles(cfg: Config, r: Row<S.Payload>, p: int, c: Seq)
    requires p in cfg.tableOf
  {
    !W.Reaches(r.tables, cfg.tableOf[p], c) && W.Reaches(r.parts, p, c)
  }

  predicate Touching(cfg: Config, i: nat, t: int)
    requires i < |cfg.log|
  {
    forall p :: p in cfg.log[i].touches && p in cfg.tableOf ==> cfg.tableOf[p] == t
  }

  ghost predicate Enabled(cfg: Config, s: State, e: Event) {
    var r := s.snap.prog.cur;
    match e
    case Snap(step, _) => SnapAllowed(cfg, s.snap, step)
    case RestoreWrites(p, _) =>
      !S.IsIncremental(r.sync) && !r.sub.PersistRestoreInfo? && p in s.dest && p in cfg.tableOf && InRegion(cfg, r, p)
    case Upsert(i, _) => Replaying(s, cfg, i) && cfg.log[i].kind.Upsert?
    case Ddl(i) => Replaying(s, cfg, i) && cfg.log[i].kind.Ddl? &&
      forall p :: p in cfg.log[i].touches && p in cfg.tableOf ==> Filtered(cfg, r, p, cfg.log[i].at)
    case DirectDdl(i, t) => Replaying(s, cfg, i) && cfg.log[i].kind.Ddl? && Touching(cfg, i, t) &&
      forall p :: p in cfg.log[i].touches && p in cfg.tableOf ==> !Straddles(cfg, r, p, cfg.log[i].at)
    case Trigger(i, d, _) => Replaying(s, cfg, i) && RegionValid(cfg, s.snap.src, d) &&
      forall p :: p in cfg.log[i].touches && p in cfg.tableOf ==> Selects(cfg, d, p) || Filtered(cfg, r, p, cfg.log[i].at)
    case Attempt(i) => Replaying(s, cfg, i)
    case Recover => S.IsIncremental(r.sync) && !r.IsDone()
  }
}
