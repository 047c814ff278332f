/** The pipelined replay: up to a fixed number of upserts are ingested at once, their transactions
    are committed in launch order, and anything else in the log waits until none is running. */
module Pipeline {
  import opened Wrappers
  import opened Progress
  import opened Binlogs
  import opened TxnLinks
  import L = TxnLinks
  import U = UpsertReplay
  import W = Watermarks

  /** The payload: launched transactions in order, and the one whose turn it is to be committed. */
  datatype Data = Data(running: seq<TxnContext>, commitable: Option<TxnContext>) {
    predicate HasAvailableSlot(max: nat) { |running| < max }
  }

  const NoTxns: Data := Data([], None)

  /** The context that lives only in memory. */
  datatype Ctx = Ctx(next: Seq, queue: seq<Entry>, close: bool, chain: Chain) {
    predicate HasNonUpsert() { |queue| > 0 && queue[0].kind.Ddl? }
    predicate HasUpsert() { |queue| > 0 && queue[0].kind.Upsert? }
  }

  /** Between calls of the sync function, at the head of its loop, inside a non-upsert handler,
      between the answer to a commit and the write that records it, inside the rollback loop; `Left` when a snapshot takes over.  `Fault` stands for a panic and
      for the errors the source raises only when its own bookkeeping is broken. */
  datatype Pc = Idle | Loop | Handling | Sealing | Rolling(i: nat) | Left | Fault

  /** The destination's transactions, those a commit was ever sent for, and the upserts found to
      write nothing the destination still needs. */
  datatype World = World(txns: map<int, U.Txn>, requested: set<int>, judged: set<Seq>)

  datatype State = State(prog: Prog<Data>, ctx: Option<Ctx>, hasMore: bool, trigger: bool, pc: Pc, w: World)

  datatype Config = Config(log: seq<Entry>, syncType: SyncType, max: nat)

  datatype SkipReply = NoSkip | SkipError | SkipExit
  datatype HandleReply = Handled(locked: bool) | HandleFailed | TookSnapshot
  datatype FetchReply = FetchFailed | NoneNew(persist: bool) | Fetched(i: nat, n: nat)
  datatype IngestStart = Started | Triggers | PrepareFailed
  datatype LaunchReply =
    | BuildFailed | Irrelevant | BeginFailed | BeginLost(id: int) | TableNotFound
    | Begun(id: int, destTables: set<int>, ingest: IngestStart)
  datatype CommitReply = CommitOk | CommitFailed(lands: bool)

  datatype Event =
    | Enter
    | Interrupt
    | DoneCase(skip: SkipReply)
    | HandleEnd(handled: HandleReply)
    | LaunchCase(fetch: FetchReply, launch: LaunchReply)
    | Goroutine(step: L.Event)
    | CommitPipelineCase(take: bool, skipBinlog: bool)
    | CommitTxnCase(commit: CommitReply)
    | Seal(locked: bool)
    | RollbackCase
    | RollbackTxn(abort: U.AbortReply)
    | RollbackEnd
    | LateCommit(id: int)
    | Crash(keep: bool)

  function Payload(p: Prog<Data>): Data {
    if p.mem.Some? then p.mem.value else if p.cur.data.Some? then p.cur.data.value else NoTxns
  }

  function Reset(s: State): State {
    if s.ctx.None? then s.(pc := Fault) else s.(ctx := None, pc := Idle)
  }

  function DropStale(queue: seq<Entry>, prev: Seq): seq<Entry> {
    if |queue| > 0 && queue[0].at <= prev then DropStale(queue[1..], prev) else queue
  }

  function Resume(s: State): State {
    s.(ctx := if s.ctx.Some? then Some(s.ctx.value.(queue := DropStale(s.ctx.value.queue, s.prog.cur.prev))) else None,
       hasMore := true, pc := Loop)
  }

  function EnterStep(s: State): State {
    var p := s.prog;
    if s.ctx.Some? || p.cur.sub.Done? then Resume(s)
    else if p.cur.sub.IsUpsert() then Resume(s.(prog := NextSubVolatile(p, Done, None)))
    else
      var p' := p.(mem := Some(Payload(p)));
      match p.cur.sub
      case LaunchTransaction => Resume(s.(prog := NextSubCheckpoint(p', RollbackPipeline, p'.mem)))
      case CommitPipeline => Resume(s.(prog := NextSubCheckpoint(p', RollbackPipeline, p'.mem)))
      case CommitPipelineTransaction => Resume(s.(prog := NextSubCheckpoint(p', RollbackPipeline, p'.mem)))
      case RollbackPipeline => Resume(s.(prog := p'))
      case _ => s.(prog := p', pc := Fault)
  }

  function Initialized(s: State): State {
    s.(ctx := Some(if s.ctx.Some? then s.ctx.value.(close := false) else Ctx(s.prog.cur.commit, [], false, Fresh)))
  }

  function DoneStep(s0: State, skip: SkipReply): State {
    var s := Initialized(s0);
    var c := s.ctx.value;
    if s.trigger then Reset(s).(pc := Left)
    else if !s.prog.cur.IsDone() then Reset(s).(prog := Rollback(s.prog))
    else match skip
      case SkipError => s.(pc := Idle)
      case SkipExit => Reset(s).(pc := Left)
      case NoSkip =>
        if !c.HasNonUpsert() then s.(prog := NextSubVolatile(s.prog, LaunchTransaction, Some(NoTxns)))
        else s.(prog := StartHandle(s.prog, c.queue[0].at), pc := Handling)
  }

  function HandleStep(cfg: Config, s: State, r: HandleReply): State {
    if s.ctx.None? || s.ctx.value.queue == [] then s.(pc := Fault)
    else
      var c := s.ctx.value;
      match r
      case Handled(locked) =>
        var p := s.prog.(cur := W.AfterHandle(cfg.syncType, s.prog.cur, c.queue[0].at));
        var s' := s.(prog := if p.cur.IsDone() then p else Finish(p));
        if locked then s'.(ctx := Some(c.(queue := c.queue[1..])), pc := Loop) else s'.(pc := Idle)
      case HandleFailed => s.(pc := Idle)
      case TookSnapshot => Reset(s).(pc := Left)
  }

  /** Fetches from the context's position when the queue is empty. */
  function FetchStep(cfg: Config, s: State, r: FetchReply): State {
    if s.ctx.None? then s.(pc := Fault)
    else
      var c := s.ctx.value;
      if c.queue != [] then s.(hasMore := true)
      else if c.next < s.prog.cur.prev then s.(hasMore := true, pc := Fault)
      else match r
        case FetchFailed => s.(hasMore := true, pc := Idle)
        case NoneNew(persist) => s.(hasMore := false, prog := if persist then Persist(s.prog) else s.prog)
        case Fetched(i, n) =>
          if n > 0 && i + n <= |cfg.log|
          then s.(hasMore := true, ctx := Some(c.(queue := cfg.log[i..i + n], next := cfg.log[i + n - 1].at)))
          else s.(hasMore := false)
  }

  function Launched(s: State): State
    requires s.ctx.Some? && s.ctx.value.queue != []
  {
    var c := s.ctx.value;
    s.(ctx := Some(c.(queue := c.queue[1..])), prog := NextSubVolatile(s.prog, CommitPipeline, s.prog.mem))
  }

  function Begin(s: State, id: int, destTables: set<int>, triggered: bool): State
    requires s.ctx.Some? && s.ctx.value.queue != [] && s.prog.mem.Some? && L.WellFormed(s.ctx.value.chain)
  {
    var c, d := s.ctx.value, s.prog.mem.value;
    var t := TxnContext(c.queue[0].at, id, destTables);
    s.(ctx := Some(c.(chain := L.Next(c.chain, Launch(t, triggered)))),
       prog := PersistInMemoryData(s.prog.(mem := Some(d.(running := d.running + [t])))),
       w := s.w.(txns := s.w.txns[id := U.Txn(t.commitSeq, U.Prepared)]))
  }

  function LaunchStep(s: State, r: LaunchReply): State {
    if s.ctx.None? || s.prog.mem.None? || !L.WellFormed(s.ctx.value.chain) then s.(pc := Fault)
    else
      var c := s.ctx.value;
      if !c.HasUpsert() then s.(prog := NextSubVolatile(s.prog, CommitPipeline, s.prog.mem))
      else
        var at := c.queue[0].at;
        match r
        case BuildFailed => Reset(s)
        case Irrelevant => Launched(s.(w := s.w.(judged := s.w.judged + {at})))
        case BeginFailed => Reset(s)
        case BeginLost(id) => Reset(s.(w := s.w.(txns := s.w.txns[id := U.Txn(at, U.Prepared)])))
        case TableNotFound => Reset(s.(prog := Rollback(s.prog)))
        case Begun(id, destTables, ingest) =>
          var s' := Begin(s, id, destTables, ingest.Triggers?);
          match ingest
          case Started => Launched(s')
          case Triggers => Launched(s'.(trigger := true, ctx := Some(s'.ctx.value.(close := true))))
          case PrepareFailed => Reset(s')
  }

  function LaunchCaseStep(cfg: Config, s: State, f: FetchReply, r: LaunchReply): State {
    var s' := FetchStep(cfg, s, f);
    if s'.pc.Loop? then LaunchStep(s', r) else s'
  }

  predicate Waits(cfg: Config, s: State)
    requires s.ctx.Some? && s.prog.mem.Some?
  {
    s.ctx.value.close || !s.hasMore || !s.prog.mem.value.HasAvailableSlot(cfg.max) || s.ctx.value.HasNonUpsert()
  }

  function TakeStep(s: State): State
    requires s.ctx.Some? && s.prog.mem.Some? && L.Enabled(s.ctx.value.chain, Take) && |s.prog.mem.value.running| > 0
  {
    var c, d := s.ctx.value, s.prog.mem.value;
    var r := c.chain.ch[0];
    var s' := s.(ctx := Some(c.(chain := L.Next(c.chain, Take))));
    match r.outcome
    case Triggered => s'.(prog := NextSubCheckpoint(s.prog, RollbackPipeline, s.prog.mem))
    case Failed => Reset(s')
    case Ingested =>
      if r.context.txnId != d.running[0].txnId then s'.(pc := Fault)
      else
        var d' := Some(d.(commitable := Some(r.context)));
        s'.(prog := NextSubCheckpoint(s.prog.(mem := d'), CommitPipelineTransaction, d'))
  }

  function CommitPipelineStep(cfg: Config, s: State, take: bool, skipBinlog: bool): State {
    if s.ctx.None? || s.prog.mem.None? then s.(pc := Fault)
    else
      var c, d := s.ctx.value, s.prog.mem.value;
      if take && |d.running| > 0 && L.Enabled(c.chain, Take) then TakeStep(s)
      else if (skipBinlog || c.HasNonUpsert() || c.close) && d.running == []
      then s.(prog := NextSubCheckpoint(s.prog, Done, None))
      else if !c.close && s.hasMore && d.HasAvailableSlot(cfg.max)
      then s.(prog := NextSubVolatile(s.prog, LaunchTransaction, s.prog.mem))
      else if !s.hasMore && d.running == []
      then s.(prog := DoneSubCheckpoint(s.prog, CommitPipeline, s.prog.mem), pc := Idle)
      else s
  }

  /** `applyTxn`; the entries raised are looked up by destination ids. */
  function Applied(cfg: Config, p: Prog<Data>, t: TxnContext): Prog<Data> {
    var cur := p.cur.(commit := t.commitSeq,
                      tables := if cfg.syncType.DBSync? then W.Raised(p.cur.tables, t.destTables, t.commitSeq) else p.cur.tables);
    p.(cur := W.AfterHandle(cfg.syncType, cur, t.commitSeq))
  }

  function Decide(w: World, t: int, status: U.Status): World {
    if t in w.txns then w.(txns := w.txns[t := w.txns[t].(status := status)]) else w
  }

  /** An answered commit moves the position, the watermarks and the list in memory only. */
  function CommitTxnStep(cfg: Config, s: State, r: CommitReply): State {
    if s.prog.mem.None? || s.prog.mem.value.commitable.None? || s.prog.mem.value.running == [] then s.(pc := Fault)
    else
      var d := s.prog.mem.value;
      var t := d.commitable.value;
      var w := s.w.(requested := s.w.requested + {t.txnId});
      match r
      case CommitOk =>
        s.(w := Decide(w, t.txnId, U.Committed),
           prog := Applied(cfg, s.prog, t).(mem := Some(Data(d.running[1..], None))), pc := Sealing)
      case CommitFailed(lands) =>
        Reset(s.(w := if lands && t.txnId in w.txns && w.txns[t.txnId].status.Prepared?
                      then Decide(w, t.txnId, U.Committed) else w))
  }

  /** The write that records the commit; releasing the binlogs after it may fail. */
  function SealStep(s: State, locked: bool): State {
    s.(prog := DoneSubCheckpoint(s.prog, CommitPipeline, s.prog.mem), pc := if locked then Loop else Idle)
  }

  function RollbackTxnStep(cfg: Config, s: State, r: U.AbortReply): State {
    if !s.pc.Rolling? || s.prog.mem.None? || s.pc.i >= |s.prog.mem.value.running| then s.(pc := Fault)
    else
      var t := s.prog.mem.value.running[s.pc.i];
      match r
      case AbortOk => s.(w := Decide(s.w, t.txnId, U.Aborted), pc := Rolling(s.pc.i + 1))
      case NotFound => s.(w := Decide(s.w, t.txnId, U.Aborted), pc := Rolling(s.pc.i + 1))
      case AlreadyAborted => s.(pc := Rolling(s.pc.i + 1))
      case AlreadyCommitted => s.(prog := Applied(cfg, s.prog, t), pc := Rolling(s.pc.i + 1))
      case AbortFailed(lands) =>
        s.(w := if lands && t.txnId in s.w.txns && s.w.txns[t.txnId].status.Prepared?
                then Decide(s.w, t.txnId, U.Aborted) else s.w, pc := Idle)
  }

  function Next(cfg: Config, s: State, e: Event): State
    requires Enabled(cfg, s, e)
  {
    match e
    case Enter => EnterStep(s)
    case Interrupt => s.(pc := Idle)
    case DoneCase(skip) => DoneStep(s, skip)
    case HandleEnd(r) => HandleStep(cfg, s, r)
    case LaunchCase(f, r) => LaunchCaseStep(cfg, s, f, r)
    case Goroutine(step) => s.(ctx := Some(s.ctx.value.(chain := L.Next(s.ctx.value.chain, step))))
    case CommitPipelineCase(take, skip) => CommitPipelineStep(cfg, s, take, skip)
    case CommitTxnCase(r) => CommitTxnStep(cfg, s, r)
    case Seal(locked) => SealStep(s, locked)
    case RollbackCase => s.(prog := s.prog.(mem := Some(Payload(s.prog))), pc := Rolling(0))
    case RollbackTxn(r) => RollbackTxnStep(cfg, s, r)
    case RollbackEnd => s.(prog := NextSubCheckpoint(s.prog, Done, None), pc := Loop)
    case LateCommit(id) => s.(w := Decide(s.w, id, U.Committed))
    case Crash(keep) => s.(prog := Reload(s.prog), ctx := None, pc := Idle, trigger := s.trigger && keep)
  }

  /** A goroutine moves only by its own steps; launching and taking belong to the loop. */
  predicate ByGoroutine(step: L.Event) { step.IngestEnds? || step.Receive? || step.Report? || step.Notify? }

  /** Transaction ids are never reused, and a reply names a status the transaction really has. */
  predicate Enabled(cfg: Config, s: State, e: Event) {
    match e
    case Enter => s.pc.Idle?
    case Interrupt => s.pc.Loop?
    case DoneCase(_) => s.pc.Loop? && s.prog.cur.sub.Done?
    case HandleEnd(_) => s.pc.Handling?
    case LaunchCase(f, r) =>
      && s.pc.Loop? && s.prog.cur.sub.LaunchTransaction?
      && (f.Fetched? ==> s.ctx.Some? && IsNext(cfg.log, s.ctx.value.next, f.i) && 0 < f.n <= |cfg.log| - f.i)
      && (r.Begun? || r.BeginLost? ==> r.id !in s.w.txns && r.id !in s.w.requested)
    case Goroutine(step) => s.ctx.Some? && ByGoroutine(step) && L.Enabled(s.ctx.value.chain, step)
    case CommitPipelineCase(take, _) =>
      && s.pc.Loop? && s.prog.cur.sub.CommitPipeline?
      && (s.ctx.Some? && s.prog.mem.Some? && s.prog.mem.value.running != [] ==>
            if take then s.ctx.value.chain.ch != [] else Waits(cfg, s) || s.ctx.value.chain.ch == [])
    case CommitTxnCase(r) =>
      && s.pc.Loop? && s.prog.cur.sub.CommitPipelineTransaction?
      && (r.CommitOk? && s.prog.mem.Some? && s.prog.mem.value.commitable.Some? ==>
            var t := s.prog.mem.value.commitable.value.txnId; t in s.w.txns && !s.w.txns[t].status.Aborted?)
    case Seal(_) => s.pc.Sealing?
    case RollbackCase => s.pc.Loop? && s.prog.cur.sub.RollbackPipeline?
    case RollbackTxn(r) =>
      && s.pc.Rolling? && s.prog.mem.Some? && s.pc.i < |s.prog.mem.value.running|
      && var t := s.prog.mem.value.running[s.pc.i].txnId;
      && t in s.w.txns
      && (r.AbortOk? ==> s.w.txns[t].status.Prepared?)
      && (r.NotFound? ==> !s.w.txns[t].status.Committed?)
      && (r.AlreadyAborted? ==> s.w.txns[t].status.Aborted?)
      && (r.AlreadyCommitted? ==> s.w.txns[t].status.Committed?)
    case RollbackEnd => s.pc.Rolling? && s.prog.mem.Some? && s.pc.i == |s.prog.mem.value.running|
    case LateCommit(id) => id in s.w.requested && id in s.w.txns && s.w.txns[id].status.Prepared?
    case Crash(_) => !s.pc.Left? && !s.pc.Fault?
  }

  predicate CanRun(cfg: Config, s: State, es: seq<Event>)
    decreases |es|
  {
    es == [] || (Enabled(cfg, s, es[0]) && CanRun(cfg, Next(cfg, s, es[0]), es[1..]))
  }

  function Run(cfg: Config, s: State, es: seq<Event>): State
    requires CanRun(cfg, s, es)
    decreases |es|
  {
    if es == [] then s else Run(cfg, Next(cfg, s, es[0]), es[1..])
  }
}
