/** Replay of schema changes outside the pipeline: a handler may take effect although its reply
    is lost, and the syncer may crash before or after it; the unknown commit sequence left by a
    rollback makes the next attempt look before it acts. */
module DdlReplay {
  import opened Wrappers
  import opened Progress
  import opened Binlogs

  /** What the handlers of the binlogs do to the destination schema `S`.  `committed` is the
      check a non-idempotent handler makes against the destination. */
  datatype Handlers<!S> = Handlers(
    effect: (Seq, S) -> S,
    idempotent: Seq -> bool,
    committed: (Seq, S) -> bool)

  datatype Pc = Idle | Handling(i: nat) | Ready(i: nat) | Handled(i: nat) | Left

  datatype State<S> = State(prog: Prog<()>, pc: Pc, schema: S)

  /** `Execute` runs the handler: it may land without an OK, an OK means it landed.
      `Upsert` is the outcome of replaying an upsert, which leaves the schema alone. */
  datatype Event =
    | Fetch(i: nat)
    | Examine
    | ExamineFailed
    | Execute(lands: bool, ok: bool)
    | Upsert(ok: bool)
    | FinishHandle
    | LeaveForSnapshot
    | Recover(committed: bool)
    | Crash

  /** The look finds the change there.  Idempotent handlers are never looked up. */
  predicate Asks<S>(h: Handlers<S>, flag: bool, c: Seq, s: S) {
    flag && !h.idempotent(c) && h.committed(c, s)
  }

  /** `idempotentDDL` is the feature flag that turns the look before the act on. */
  function Next<S>(log: seq<Entry>, h: Handlers<S>, idempotentDDL: bool, s: State<S>, e: Event): (r: State<S>)
    requires Enabled(log, s, e)
  {
    var p := s.prog;
    match e
    case Fetch(i) => s.(prog := StartHandle(p, log[i].at), pc := Handling(i))
    case Examine =>
      var c := log[s.pc.i].at;
      if p.cur.unknown == c && Asks(h, idempotentDDL, c, s.schema)
      then s.(pc := Handled(s.pc.i))
      else s.(pc := Ready(s.pc.i))
    case ExamineFailed => s.(pc := Idle)
    case Execute(lands, ok) =>
      s.(schema := if lands then h.effect(log[s.pc.i].at, s.schema) else s.schema,
         pc := if ok then Handled(s.pc.i) else Idle)
    case Upsert(ok) =>
      if ok then s.(prog := Finish(p), pc := Handled(s.pc.i))
      else s.(prog := NextSubCheckpoint(p, RollbackTransaction, None), pc := Idle)
    case FinishHandle => s.(prog := if p.cur.IsDone() then p else Finish(p), pc := Idle)
    case LeaveForSnapshot => s.(pc := Left)
    case Recover(committed) =>
      if p.cur.sub.IsUpsert() && committed then s.(prog := Finish(p)) else s.(prog := Rollback(p))
    case Crash => s.(prog := Reload(p), pc := Idle)
  }

  predicate Enabled<S>(log: seq<Entry>, s: State<S>, e: Event) {
    match e
    case Fetch(i) => s.pc.Idle? && s.prog.cur.IsDone() && IsNext(log, s.prog.cur.commit, i)
    case Examine => s.pc.Handling? && s.pc.i < |log| && log[s.pc.i].kind.Ddl?
    case ExamineFailed => s.pc.Handling? && s.pc.i < |log| && log[s.pc.i].kind.Ddl?
    case Execute(lands, ok) => s.pc.Ready? && s.pc.i < |log| && (ok ==> lands)
    case Upsert(_) => s.pc.Handling? && s.pc.i < |log| && log[s.pc.i].kind.Upsert?
    case FinishHandle => s.pc.Handled?
    case LeaveForSnapshot => s.pc.Handling? || s.pc.Ready? || s.pc.Handled?
    case Recover(_) => s.pc.Idle? && !s.prog.cur.IsDone()
    case Crash => !s.pc.Left?
  }

  predicate CanRun<S>(log: seq<Entry>, h: Handlers<S>, flag: bool, s: State<S>, es: seq<Event>)
    decreases |es|
  {
    es == [] || (Enabled(log, s, es[0]) && CanRun(log, h, flag, Next(log, h, flag, s, es[0]), es[1..]))
  }

  function Run<S>(log: seq<Entry>, h: Handlers<S>, flag: bool, s: State<S>, es: seq<Event>): State<S>
    requires CanRun(log, h, flag, s, es)
    decreases |es|
  {
    if es == [] then s else Run(log, h, flag, Next(log, h, flag, s, es[0]), es[1..])
  }

  /** The schema after the changes of `log[lo..hi]`, each applied once in order. */
  function Applied<S>(log: seq<Entry>, h: Handlers<S>, lo: nat, hi: nat, s: S): S
    requires hi <= |log|
    decreases hi
  {
    if hi <= lo then s
    else
      var before := Applied(log, h, lo, hi - 1, s);
      if log[hi - 1].kind.Ddl? then h.effect(log[hi - 1].at, before) else before
  }

  /** `n` binlogs are at or below `c`. */
  predicate Upto(log: seq<Entry>, c: Seq, n: nat) {
    n <= |log| && (n > 0 ==> log[n - 1].at <= c) && (n < |log| ==> c < log[n].at)
  }

  ghost predicate Init<S>(log: seq<Entry>, lo: nat, s: State<S>) {
    s.pc.Idle? && s.prog.cur.IsDone() && s.prog.db == s.prog.cur && Upto(log, s.prog.cur.prev, lo)
  }

  /** Binlog `k` can be tried again: the look does not take the schema before the change for the one
      after it, and after the change either the look finds it or the handler may run twice.  Only the
      two schemas at hand matter, not what the handler and the look do elsewhere. */
  ghost predicate Trusts<S>(log: seq<Entry>, h: Handlers<S>, flag: bool, lo: nat, s0: S, k: nat)
    requires k < |log|
  {
    var c, pre := log[k].at, Applied(log, h, lo, k, s0);
    var post := h.effect(c, pre);
    && (Asks(h, flag, c, pre) ==> post == pre)
    && (Asks(h, flag, c, post) || h.effect(c, post) == post)
  }

  ghost predicate Trustworthy<S>(log: seq<Entry>, h: Handlers<S>, flag: bool, lo: nat, s0: S) {
    forall k :: lo <= k < |log| && log[k].kind.Ddl? ==> Trusts(log, h, flag, lo, s0, k)
  }

  /** With `n` binlogs reached: the schema has their changes, plus possibly that of binlog `n`,
      which is then either in flight or marked unknown. */
  ghost predicate Inv<S>(log: seq<Entry>, h: Handlers<S>, lo: nat, s0: S, s: State<S>, n: nat) {
    && lo <= n && Upto(log, s.prog.cur.prev, n)
    && var pre := Applied(log, h, lo, n, s0);
    && s.prog.cur.prev == s.prog.db.prev && s.prog.cur.commit == s.prog.db.commit
    && s.prog.cur.unknown == s.prog.db.unknown && s.prog.cur.sub == s.prog.db.sub
    && (s.prog.cur.sub.Done? || s.prog.cur.sub.IsUpsert())
    && (s.prog.cur.commit == s.prog.cur.prev || (n < |log| && s.prog.cur.commit == log[n].at))
    && (s.prog.cur.sub.IsUpsert() ==> n < |log| && log[n].kind.Upsert? && s.prog.cur.commit == log[n].at && s.pc.Idle?)
    && (s.schema == pre ||
        (n < |log| && log[n].kind.Ddl? && s.schema == h.effect(log[n].at, pre)
         && (s.prog.cur.unknown == log[n].at || (s.prog.cur.commit == log[n].at && !s.pc.Handling? && !s.pc.Ready?))))
    && PcFits(log, h, s, n, pre)
  }

  ghost predicate PcFits<S>(log: seq<Entry>, h: Handlers<S>, s: State<S>, n: nat, pre: S) {
    match s.pc
    case Handling(i) => i == n < |log| && s.prog.cur.commit == log[n].at && s.prog.cur.sub.Done?
    case Ready(i) => i == n < |log| && s.prog.cur.commit == log[n].at && s.prog.cur.sub.Done? && log[n].kind.Ddl?
        && h.effect(log[n].at, s.schema) == h.effect(log[n].at, pre)
    case Handled(i) => s.prog.cur.sub.Done? &&
        (if s.prog.cur.IsDone() then s.schema == pre
         else i == n < |log| && log[n].kind.Ddl? && s.schema == h.effect(log[n].at, pre))
    case _ => true
  }

  lemma StepKeeps<S>(log: seq<Entry>, h: Handlers<S>, flag: bool, lo: nat, s0: S, s: State<S>, n: nat, e: Event) returns (n': nat)
    requires Ordered(log) && Trustworthy(log, h, flag, lo, s0) && Enabled(log, s, e) && Inv(log, h, lo, s0, s, n)
    ensures Inv(log, h, lo, s0, Next(log, h, flag, s, e), n')
  {
    var s' := Next(log, h, flag, s, e);
    if n < |log| && log[n].kind.Ddl? {
      assert Trusts(log, h, flag, lo, s0, n);
    }
    n' := if s'.prog.cur.prev != s.prog.cur.prev then n + 1 else n;
  }

  lemma {:induction false} RunKeeps<S>(log: seq<Entry>, h: Handlers<S>, flag: bool, lo: nat, s0: S, s: State<S>, n: nat, es: seq<Event>)
    returns (n': nat)
    requires Ordered(log) && Trustworthy(log, h, flag, lo, s0) && CanRun(log, h, flag, s, es) && Inv(log, h, lo, s0, s, n)
    ensures Inv(log, h, lo, s0, Run(log, h, flag, s, es), n')
    decreases |es|
  {
    n' := n;
    if es != [] {
      n' := StepKeeps(log, h, flag, lo, s0, s, n, es[0]);
      n' := RunKeeps(log, h, flag, lo, s0, Next(log, h, flag, s, es[0]), n', es[1..]);
    }
  }

  /** With `n` binlogs reached the schema is as if every change among them had been made once; only
      the very next change may have landed already, and then it is marked in the stored row, unless
      the log ends there. */
  ghost predicate Once<S>(log: seq<Entry>, h: Handlers<S>, lo: nat, s0: S, s: State<S>, n: nat) {
    && lo <= n && Upto(log, s.prog.db.prev, n)
    && (s.schema == Applied(log, h, lo, n, s0) ||
        (n < |log| && log[n].kind.Ddl? && s.schema == Applied(log, h, lo, n + 1, s0)
         && log[n].at in {s.prog.db.commit, s.prog.db.unknown}))
    && (s.prog.db.IsDone() && n < |log| && s.prog.db.unknown != log[n].at ==> s.schema == Applied(log, h, lo, n, s0))
    && (n == |log| ==> s.schema == Applied(log, h, lo, |log|, s0))
  }

  ghost predicate AsOnce<S>(log: seq<Entry>, h: Handlers<S>, lo: nat, s0: S, s: State<S>) {
    exists n: nat :: Once(log, h, lo, s0, s, n)
  }

  /** After any run with crashes and lost replies, whenever the loop is idle with nothing left to
      recover, the schema is as if every change reached had been made exactly once. */
  lemma {:induction false} DdlExactlyOnce<S>(log: seq<Entry>, h: Handlers<S>, flag: bool, lo: nat, s: State<S>, es: seq<Event>) returns (n: nat)
    requires Ordered(log) && Trustworthy(log, h, flag, lo, s.schema) && Init(log, lo, s) && CanRun(log, h, flag, s, es)
    ensures Once(log, h, lo, s.schema, Run(log, h, flag, s, es), n)
  {
    n := RunKeeps(log, h, flag, lo, s.schema, s, lo, es);
  }

  // ----- The other half: what goes wrong otherwise -----

  lemma RunCons<S>(log: seq<Entry>, h: Handlers<S>, flag: bool, s: State<S>, e: Event, es: seq<Event>)
    requires Enabled(log, s, e) && CanRun(log, h, flag, Next(log, h, flag, s, e), es)
    ensures CanRun(log, h, flag, s, [e] + es)
    ensures Run(log, h, flag, s, [e] + es) == Run(log, h, flag, Next(log, h, flag, s, e), es)
  {
    assert ([e] + es)[1..] == es;
  }

  lemma {:induction false} RunConcat<S>(log: seq<Entry>, h: Handlers<S>, flag: bool, s: State<S>, es: seq<Event>, fs: seq<Event>)
    requires CanRun(log, h, flag, s, es) && CanRun(log, h, flag, Run(log, h, flag, s, es), fs)
    ensures CanRun(log, h, flag, s, es + fs) && Run(log, h, flag, s, es + fs) == Run(log, h, flag, Run(log, h, flag, s, es), fs)
    decreases |es|
  {
    if es == [] {
      assert es + fs == fs;
    } else {
      RunConcat(log, h, flag, Next(log, h, flag, s, es[0]), es[1..], fs);
      RunCons(log, h, flag, s, es[0], es[1..] + fs);
      assert es + fs == [es[0]] + (es[1..] + fs);
    }
  }

  /** Idle with `k` binlogs done, each change made once. */
  ghost predicate Reached<S>(log: seq<Entry>, h: Handlers<S>, lo: nat, s0: S, s: State<S>, k: nat) {
    lo <= k && Init(log, k, s) && s.schema == Applied(log, h, lo, k, s0)
  }

  /** One binlog without any mishap. */
  lemma PassOne<S>(log: seq<Entry>, h: Handlers<S>, flag: bool, lo: nat, s0: S, s: State<S>, k: nat) returns (es: seq<Event>)
    requires Ordered(log) && k < |log| && Reached(log, h, lo, s0, s, k)
    requires log[k].kind.Ddl? ==> Trusts(log, h, flag, lo, s0, k)
    ensures CanRun(log, h, flag, s, es) && Reached(log, h, lo, s0, Run(log, h, flag, s, es), k + 1)
  {
    var s1 := Next(log, h, flag, s, Fetch(k));
    es := [FinishHandle] + [];
    if log[k].kind.Upsert? {
      var s2 := Next(log, h, flag, s1, Event.Upsert(true));
      RunCons(log, h, flag, s2, FinishHandle, []);
      RunCons(log, h, flag, s1, Event.Upsert(true), es);
      es := [Event.Upsert(true)] + es;
    } else {
      var s2 := Next(log, h, flag, s1, Examine);
      if s2.pc.Handled? {
        RunCons(log, h, flag, s2, FinishHandle, []);
      } else {
        var s3 := Next(log, h, flag, s2, Execute(true, true));
        RunCons(log, h, flag, s3, FinishHandle, []);
        RunCons(log, h, flag, s2, Execute(true, true), es);
        es := [Execute(true, true)] + es;
      }
      RunCons(log, h, flag, s1, Examine, es);
      es := [Examine] + es;
    }
    RunCons(log, h, flag, s, Fetch(k), es);
    es := [Fetch(k)] + es;
  }

  lemma {:induction false} Reach<S>(log: seq<Entry>, h: Handlers<S>, flag: bool, lo: nat, s: State<S>, k: nat) returns (es: seq<Event>)
    requires Ordered(log) && lo <= k <= |log| && Init(log, lo, s)
    requires forall j :: lo <= j < k && log[j].kind.Ddl? ==> Trusts(log, h, flag, lo, s.schema, j)
    ensures CanRun(log, h, flag, s, es) && Reached(log, h, lo, s.schema, Run(log, h, flag, s, es), k)
    decreases k
  {
    es := [];
    if lo < k {
      es := Reach(log, h, flag, lo, s, k - 1);
      var fs := PassOne(log, h, flag, lo, s.schema, Run(log, h, flag, s, es), k - 1);
      RunConcat(log, h, flag, s, es, fs);
      es := es + fs;
    }
  }

  /** Done with binlog `k` and wrong about it. */
  ghost predicate Spoilt<S>(log: seq<Entry>, h: Handlers<S>, lo: nat, s0: S, s: State<S>, k: nat) {
    && lo <= k < |log| && Init(log, k + 1, s) && s.prog.cur.unknown == log[k].at
    && s.schema != Applied(log, h, lo, k + 1, s0)
  }

  lemma SpoiltIsNotOnce<S>(log: seq<Entry>, h: Handlers<S>, lo: nat, s0: S, s: State<S>, k: nat)
    requires Ordered(log) && Spoilt(log, h, lo, s0, s, k)
    ensures !AsOnce(log, h, lo, s0, s)
  {
    forall n: nat ensures !Once(log, h, lo, s0, s, n) {
      if Upto(log, s.prog.db.prev, n) {
        assert n == k + 1;
      }
    }
  }

  /** The handler's call comes to nothing or its reply is lost; the binlog is rolled back. */
  lemma Mishap<S>(log: seq<Entry>, h: Handlers<S>, flag: bool, s: State<S>, k: nat, lands: bool) returns (es: seq<Event>)
    requires Ordered(log) && k < |log| && Init(log, k, s) && log[k].kind.Ddl?
    requires s.prog.cur.unknown == log[k].at ==> !Asks(h, flag, log[k].at, s.schema)
    ensures CanRun(log, h, flag, s, es)
    ensures var s' := Run(log, h, flag, s, es);
      && Init(log, k, s') && s'.prog.cur.unknown == log[k].at
      && s'.schema == if lands then h.effect(log[k].at, s.schema) else s.schema
  {
    var s1 := Next(log, h, flag, s, Fetch(k));
    var s2 := Next(log, h, flag, s1, Examine);
    var s3 := Next(log, h, flag, s2, Execute(lands, false));
    RunCons(log, h, flag, s3, Recover(false), []);
    RunCons(log, h, flag, s2, Execute(lands, false), [Recover(false)] + []);
    RunCons(log, h, flag, s1, Examine, [Execute(lands, false)] + ([Recover(false)] + []));
    RunCons(log, h, flag, s, Fetch(k), [Examine] + ([Execute(lands, false)] + ([Recover(false)] + [])));
    es := [Fetch(k)] + ([Examine] + ([Execute(lands, false)] + ([Recover(false)] + [])));
  }

  /** The next attempt: what it finds it takes as done, what it does not find it does. */
  lemma Retry<S>(log: seq<Entry>, h: Handlers<S>, flag: bool, s: State<S>, k: nat) returns (es: seq<Event>)
    requires Ordered(log) && k < |log| && Init(log, k, s) && log[k].kind.Ddl? && s.prog.cur.unknown == log[k].at
    ensures CanRun(log, h, flag, s, es)
    ensures var s' := Run(log, h, flag, s, es);
      && Init(log, k + 1, s') && s'.prog.cur.unknown == log[k].at
      && s'.schema == if Asks(h, flag, log[k].at, s.schema) then s.schema else h.effect(log[k].at, s.schema)
  {
    var s1 := Next(log, h, flag, s, Fetch(k));
    var s2 := Next(log, h, flag, s1, Examine);
    es := [FinishHandle] + [];
    if s2.pc.Handled? {
      RunCons(log, h, flag, s2, FinishHandle, []);
    } else {
      var s3 := Next(log, h, flag, s2, Execute(true, true));
      RunCons(log, h, flag, s3, FinishHandle, []);
      RunCons(log, h, flag, s2, Execute(true, true), es);
      es := [Execute(true, true)] + es;
    }
    RunCons(log, h, flag, s1, Examine, es);
    RunCons(log, h, flag, s, Fetch(k), [Examine] + es);
    es := [Fetch(k)] + ([Examine] + es);
  }

  /** At a binlog that cannot be tried again, one mishap is enough. */
  lemma Spoil<S>(log: seq<Entry>, h: Handlers<S>, flag: bool, lo: nat, s0: S, s: State<S>, k: nat) returns (es: seq<Event>)
    requires Ordered(log) && k < |log| && log[k].kind.Ddl? && Reached(log, h, lo, s0, s, k)
    requires !Trusts(log, h, flag, lo, s0, k)
    ensures CanRun(log, h, flag, s, es) && Spoilt(log, h, lo, s0, Run(log, h, flag, s, es), k)
  {
    var c := log[k].at;
    if s.prog.cur.unknown == c && Asks(h, flag, c, s.schema) {
      es := Retry(log, h, flag, s, k);
    } else {
      es := Mishap(log, h, flag, s, k, !Asks(h, flag, c, s.schema));
      var s1 := Run(log, h, flag, s, es);
      var fs := Retry(log, h, flag, s1, k);
      RunConcat(log, h, flag, s, es, fs);
      es := es + fs;
    }
  }

  lemma {:induction false} FirstUntrusted<S>(log: seq<Entry>, h: Handlers<S>, flag: bool, lo: nat, s0: S, k: nat) returns (first: nat)
    requires lo <= k < |log| && log[k].kind.Ddl? && !Trusts(log, h, flag, lo, s0, k)
    ensures lo <= first < |log| && log[first].kind.Ddl? && !Trusts(log, h, flag, lo, s0, first)
    ensures forall j :: lo <= j < first && log[j].kind.Ddl? ==> Trusts(log, h, flag, lo, s0, j)
    decreases k
  {
    first := k;
    if j :| lo <= j < k && log[j].kind.Ddl? && !Trusts(log, h, flag, lo, s0, j) {
      first := FirstUntrusted(log, h, flag, lo, s0, j);
    }
  }

  /** Exactly once, exactly when: every run leaves the schema as if each change had been made once if
      and only if every change to come can be tried again. */
  lemma {:induction false} ExactlyOnceExactly<S(!new)>(log: seq<Entry>, h: Handlers<S>, flag: bool, lo: nat, s: State<S>)
    requires Ordered(log) && Init(log, lo, s)
    ensures (forall es :: CanRun(log, h, flag, s, es) ==> AsOnce(log, h, lo, s.schema, Run(log, h, flag, s, es)))
            <==> Trustworthy(log, h, flag, lo, s.schema)
  {
    if Trustworthy(log, h, flag, lo, s.schema) {
      forall es | CanRun(log, h, flag, s, es) ensures AsOnce(log, h, lo, s.schema, Run(log, h, flag, s, es)) {
        var n := DdlExactlyOnce(log, h, flag, lo, s, es);
      }
    } else {
      var k :| lo <= k < |log| && log[k].kind.Ddl? && !Trusts(log, h, flag, lo, s.schema, k);
      k := FirstUntrusted(log, h, flag, lo, s.schema, k);
      var es := Reach(log, h, flag, lo, s, k);
      var fs := Spoil(log, h, flag, lo, s.schema, Run(log, h, flag, s, es), k);
      RunConcat(log, h, flag, s, es, fs);
      SpoiltIsNotOnce(log, h, lo, s.schema, Run(log, h, flag, s, es + fs), k);
    }
  }

  /** With the flag off nothing is looked up: exactly once then holds for every run if and only if no
      change made a second time, right after the first, changes anything. */
  lemma {:induction false} WithoutTheLook<S(!new)>(log: seq<Entry>, h: Handlers<S>, lo: nat, s: State<S>)
    requires Ordered(log) && Init(log, lo, s)
    ensures (forall es :: CanRun(log, h, false, s, es) ==> AsOnce(log, h, lo, s.schema, Run(log, h, false, s, es)))
            <==> (forall k :: lo <= k < |log| && log[k].kind.Ddl? ==>
                    h.effect(log[k].at, Applied(log, h, lo, k + 1, s.schema)) == Applied(log, h, lo, k + 1, s.schema))
  {
    ExactlyOnceExactly(log, h, false, lo, s);
    forall k | lo <= k < |log| && log[k].kind.Ddl?
      ensures Trusts(log, h, false, lo, s.schema, k) <==>
              h.effect(log[k].at, Applied(log, h, lo, k + 1, s.schema)) == Applied(log, h, lo, k + 1, s.schema)
    {
    }
  }
}
