/** The table of handlers for schema changes, and the generic wrapper around each: decode, filter
    by watermark, then act; and for a binlog left unknown, decide whether its check is worth asking. */
module JobHandles {
  import opened Wrappers
  import opened Progress
  import opened Binlogs
  import W = Watermarks
  import D = DdlReplay

  type BinlogType = int

  datatype Binlog = Binlog(at: Seq, kind: BinlogType, data: string)

  datatype AlterKind = NotAlter | Rollup | SchemaChange | OtherAlter
  datatype AlterState = InFlight | Ended

  /** A decoded record; `shadows` maps the shadow indexes of an alter job to the original ones. */
  datatype Record = Record(tableId: int, alter: AlterKind, state: AlterState, shadows: map<int, int>)

  /** What a handler sees of the job: the destination schema, the progress, and its settings. */
  datatype Job<+S> = Job(schema: S, sync: SyncState, commitSeq: Seq, tables: W.Marks, applied: set<Seq>,
                         shadowIndexes: map<int, int>, skipRollup: bool)

  /** A handler's own error is wrapped, so it is never taken for one of the dispatcher's. */
  datatype HandleError = NoHandle | BadRecord | Refused(reason: string)

  /** A handler as it is registered: it may refuse, and it has its own committed check. */
  datatype JobHandle<!S> = JobHandle(
    decode: string -> Option<Record>,
    idempotent: bool,
    handle: (Seq, Record, S) -> Result<S, string>,
    committed: (Record, S) -> Result<bool, string>)

  datatype MethodTable<!S> = MethodTable(
    handle: (Job<S>, Binlog) -> Result<Job<S>, HandleError>,
    committed: (Job<S>, Binlog) -> Result<bool, HandleError>)

  predicate Covered<S>(job: Job<S>, r: Record) {
    W.IsBinlogCommitted(job.applied, job.sync, job.tables, r.tableId, job.commitSeq)
  }

  /** A covered alter job still leaves its shadow indexes behind while it is in flight, and takes
      them away when it has ended; known ones are not overwritten. */
  function SaveShadows<S>(job: Job<S>, r: Record): (job': Job<S>)
    ensures ShadowsSaved(job, r, job')
  {
    if !((r.alter.Rollup? && !job.skipRollup) || r.alter.SchemaChange?) then job
    else match r.state
      case InFlight => job.(shadowIndexes := r.shadows + job.shadowIndexes)
      case Ended => job.(shadowIndexes := job.shadowIndexes - r.shadows.Keys)
  }

  function BuildHandle<S>(h: JobHandle<S>): (Job<S>, Binlog) -> Result<Job<S>, HandleError> {
    (job: Job<S>, binlog: Binlog) =>
      var r := h.decode(binlog.data);
      if r.None? then Err(BadRecord)
      else if Covered(job, r.value) then Ok(SaveShadows(job, r.value))
      else
        match h.handle(binlog.at, r.value, job.schema)
        case Ok(schema) => Ok(job.(schema := schema))
        case Err(e) => Err(Refused(e))
  }

  function BuildCommitted<S>(h: JobHandle<S>): (Job<S>, Binlog) -> Result<bool, HandleError> {
    (job: Job<S>, binlog: Binlog) =>
      if h.idempotent then Ok(false)
      else
        var r := h.decode(binlog.data);
        if r.None? then Err(BadRecord)
        else
          match h.committed(r.value, job.schema)
          case Ok(b) => Ok(b)
          case Err(e) => Err(Refused(e))
  }

  function BuildTable<S>(h: JobHandle<S>): MethodTable<S> { MethodTable(BuildHandle(h), BuildCommitted(h)) }

  type Pairs<!S> = seq<(BinlogType, JobHandle<S>)>

  /** The table after registering the handlers in order. */
  function Registered<S>(pairs: Pairs<S>): map<BinlogType, MethodTable<S>> {
    if pairs == [] then map[]
    else Registered(pairs[..|pairs| - 1])[pairs[|pairs| - 1].0 := BuildTable(pairs[|pairs| - 1].1)]
  }

  predicate HasHandle<S>(pairs: Pairs<S>, kind: BinlogType) {
    exists i :: 0 <= i < |pairs| && pairs[i].0 == kind
  }

  /** The handler registered last for the type. */
  function LastHandle<S>(pairs: Pairs<S>, kind: BinlogType): JobHandle<S>
    requires HasHandle(pairs, kind)
    decreases |pairs|
  {
    var last := pairs[|pairs| - 1];
    if last.0 == kind then last.1
    else
      assert forall i :: 0 <= i < |pairs| - 1 ==> pairs[..|pairs| - 1][i] == pairs[i];
      LastHandle(pairs[..|pairs| - 1], kind)
  }

  /** Of several handlers registered for a type the last one is in the table, and no other type is. */
  lemma {:induction false} LastRegistrationWins<S>(pairs: Pairs<S>, kind: BinlogType)
    ensures kind in Registered(pairs) <==> HasHandle(pairs, kind)
    ensures HasHandle(pairs, kind) ==> Registered(pairs)[kind] == BuildTable(LastHandle(pairs, kind))
    decreases |pairs|
  {
    if pairs != [] {
      var before := pairs[..|pairs| - 1];
      LastRegistrationWins(before, kind);
      assert forall i :: 0 <= i < |before| ==> before[i] == pairs[i];
      assert pairs[|pairs| - 1].0 == kind ==> HasHandle(pairs, kind);
    }
  }

  ghost predicate SameHandle<S>(pairs: Pairs<S>, pairs': Pairs<S>, kind: BinlogType) {
    && (HasHandle(pairs, kind) <==> HasHandle(pairs', kind))
    && (HasHandle(pairs, kind) ==> LastHandle(pairs, kind) == LastHandle(pairs', kind))
  }

  lemma OthersStay<S>(pairs: Pairs<S>, kind: BinlogType, h: JobHandle<S>, other: BinlogType)
    ensures other != kind ==> SameHandle(pairs, pairs + [(kind, h)], other)
  {
    var more := pairs + [(kind, h)];
    assert more[..|more| - 1] == pairs;
    assert forall i :: 0 <= i < |pairs| ==> more[i] == pairs[i];
  }

  class HandleRegistry<!S(!new)> {
    var handles: map<BinlogType, MethodTable<S>>
    ghost var registered: Pairs<S>

    ghost predicate Valid()
      reads this
    {
      handles == Registered(registered)
    }

    constructor ()
      ensures Valid() && registered == []
    {
      handles, registered := map[], [];
    }

    /** A handler already there for the type is replaced. */
    method RegisterJobHandle(kind: BinlogType, h: JobHandle<S>)
      requires Valid()
      modifies this
      ensures Valid() && registered == old(registered) + [(kind, h)]
      ensures HasHandle(registered, kind) && LastHandle(registered, kind) == h
      ensures forall other :: other != kind ==> SameHandle(old(registered), registered, other)
    {
      forall other ensures other != kind ==> SameHandle(registered, registered + [(kind, h)], other) {
        OthersStay(registered, kind, h, other);
      }
      assert (registered + [(kind, h)])[|registered|] == (kind, h);
      handles := handles[kind := BuildTable(h)];
      registered := registered + [(kind, h)];
    }

    /** Unknown types and records that do not decode are told apart; a covered binlog leaves the schema
        alone; any other goes through the handler registered last, and only the schema changes. */
    method HandleBinlog(job: Job<S>, binlog: Binlog) returns (r: Result<Job<S>, HandleError>)
      requires Valid()
      ensures r == Err(NoHandle) <==> !HasHandle(registered, binlog.kind)
      ensures HasHandle(registered, binlog.kind) ==>
        var h := LastHandle(registered, binlog.kind);
        && (r == Err(BadRecord) <==> h.decode(binlog.data).None?)
        && (h.decode(binlog.data).Some? ==>
              var record := h.decode(binlog.data).value;
              if Covered(job, record) then r.Ok? && ShadowsSaved(job, record, r.value)
              else if r.Ok? then h.handle(binlog.at, record, job.schema) == Ok(r.value.schema) && r.value == job.(schema := r.value.schema)
              else r.error.Refused? && h.handle(binlog.at, record, job.schema) == Err(r.error.reason))
    {
      LastRegistrationWins(registered, binlog.kind);
      if binlog.kind !in handles {
        return Err(NoHandle);
      }
      r := handles[binlog.kind].handle(job, binlog);
      ghost var h := LastHandle(registered, binlog.kind);
      assert r == BuildHandle(h)(job, binlog);
      if h.decode(binlog.data).Some? && Covered(job, h.decode(binlog.data).value) {
        assert r == Ok(SaveShadows(job, h.decode(binlog.data).value));
      }
    }

    /** An idempotent handler is never asked, not even to decode the record. */
    method IsBinlogCommitted(job: Job<S>, binlog: Binlog) returns (r: Result<bool, HandleError>)
      requires Valid()
      ensures r == Err(NoHandle) <==> !HasHandle(registered, binlog.kind)
      ensures HasHandle(registered, binlog.kind) ==>
        var h := LastHandle(registered, binlog.kind);
        && (h.idempotent ==> r == Ok(false))
        && (r == Err(BadRecord) <==> !h.idempotent && h.decode(binlog.data).None?)
        && (!h.idempotent && h.decode(binlog.data).Some? ==>
              var answer := h.committed(h.decode(binlog.data).value, job.schema);
              if r.Ok? then answer == Ok(r.value) else r.error.Refused? && answer == Err(r.error.reason))
    {
      LastRegistrationWins(registered, binlog.kind);
      if binlog.kind !in handles {
        return Err(NoHandle);
      }
      r := handles[binlog.kind].committed(job, binlog);
      ghost var h := LastHandle(registered, binlog.kind);
      assert r == BuildCommitted(h)(job, binlog);
    }
  }

  /** Nothing of the job changed but the shadow indexes.  A schema change, or a rollup where rollups are
      replayed, adds its own while it is in flight and removes them when it has ended; an index already
      known keeps its entry, and no other record changes anything. */
  ghost predicate ShadowsSaved<S>(job: Job<S>, r: Record, job': Job<S>) {
    var saves := r.alter == SchemaChange || (r.alter == Rollup && !job.skipRollup);
    && job' == job.(shadowIndexes := job'.shadowIndexes)
    && (forall i :: i in job'.shadowIndexes <==>
          if saves && i in r.shadows then r.state == InFlight else i in job.shadowIndexes)
    && (forall i :: i in job'.shadowIndexes ==>
          job'.shadowIndexes[i] == if i in job.shadowIndexes then job.shadowIndexes[i] else r.shadows[i])
  }

  /** Once an alter job has ended none of its shadow indexes is left, whatever it left in flight, and
      every other index is as before it. */
  lemma {:induction false} EndedTakesBack<S>(job: Job<S>, r: Record)
    requires r.alter == SchemaChange || (r.alter == Rollup && !job.skipRollup)
    ensures var after := SaveShadows(SaveShadows(job, r.(state := InFlight)), r.(state := Ended));
      && after == job.(shadowIndexes := after.shadowIndexes)
      && forall i :: (i in after.shadowIndexes <==> i in job.shadowIndexes && i !in r.shadows)
           && (i in after.shadowIndexes ==> after.shadowIndexes[i] == job.shadowIndexes[i])
  {
    var inFlight := SaveShadows(job, r.(state := InFlight));
    assert ShadowsSaved(job, r.(state := InFlight), inFlight);
    assert ShadowsSaved(inFlight, r.(state := Ended), SaveShadows(inFlight, r.(state := Ended)));
  }

  // ----- The watermark filter behind the committed check -----

  /** The handlers as the replay of schema changes sees them: `h(c)` is the handler registered for the
      type of binlog `c` and `record(c)` its record.  The filter guards the effect only; the check is
      asked for covered binlogs like for any other, before the filter is reached. */
  ghost function Filtered<S>(h: Seq -> JobHandle<S>, record: Seq -> Record, covered: set<Seq>): D.Handlers<S> {
    D.Handlers(
      (c: Seq, s: S) => if c in covered || h(c).handle(c, record(c), s).Err? then s else h(c).handle(c, record(c), s).value,
      (c: Seq) => h(c).idempotent,
      (c: Seq, s: S) => h(c).committed(record(c), s) == Ok(true))
  }

  /** What a handler promises at the schema it meets: it does not refuse; its check does not take that
      schema for the changed one; and on the changed one the check says so, or it may run again. */
  ghost predicate HonestAt<S>(h: JobHandle<S>, c: Seq, r: Record, pre: S) {
    h.handle(c, r, pre).Ok? &&
    var post := h.handle(c, r, pre).value;
    && (!h.idempotent && h.committed(r, pre) == Ok(true) ==> post == pre)
    && ((!h.idempotent && h.committed(r, post) == Ok(true)) || h.handle(c, r, post) == Ok(post))
  }

  ghost predicate Honest<S>(log: seq<Entry>, h: Seq -> JobHandle<S>, record: Seq -> Record, covered: set<Seq>, lo: nat, s0: S) {
    forall k :: lo <= k < |log| && log[k].kind.Ddl? && log[k].at !in covered ==>
      HonestAt(h(log[k].at), log[k].at, record(log[k].at), D.Applied(log, Filtered(h, record, covered), lo, k, s0))
  }

  /** The filter does not break exactly-once.  If the handlers of the binlogs that are not covered keep
      their promise at the schemas they meet, every run, with crashes and lost replies, makes each
      change once; of the handlers and checks of covered binlogs nothing at all is asked. */
  lemma {:induction false} FilterKeepsTrust<S(!new)>(log: seq<Entry>, h: Seq -> JobHandle<S>, record: Seq -> Record, covered: set<Seq>,
                                      lo: nat, s: D.State<S>, es: seq<D.Event>) returns (n: nat)
    requires Ordered(log) && D.Init(log, lo, s) && Honest(log, h, record, covered, lo, s.schema)
    requires D.CanRun(log, Filtered(h, record, covered), true, s, es)
    ensures var f := Filtered(h, record, covered); D.Once(log, f, lo, s.schema, D.Run(log, f, true, s, es), n)
  {
    var f := Filtered(h, record, covered);
    forall k | lo <= k < |log| && log[k].kind.Ddl? ensures D.Trusts(log, f, true, lo, s.schema, k) {
      var c, pre := log[k].at, D.Applied(log, f, lo, k, s.schema);
      if c !in covered {
        assert HonestAt(h(c), c, record(c), pre);
      }
    }
    n := D.DdlExactlyOnce(log, f, true, lo, s, es);
  }

  /** Whether the check, asked first, takes a covered binlog for committed or lets it through to the
      filter: no step of its handling changes the schema. */
  lemma CoveredIsUntouched<S(!new)>(log: seq<Entry>, h: Seq -> JobHandle<S>, record: Seq -> Record, covered: set<Seq>,
                                    flag: bool, s: D.State<S>, e: D.Event)
    requires D.Enabled(log, s, e)
    requires (s.pc.Handling? || s.pc.Ready? || s.pc.Handled?) ==> s.pc.i < |log| && log[s.pc.i].at in covered
    ensures D.Next(log, Filtered(h, record, covered), flag, s, e).schema == s.schema
  {
  }
}
