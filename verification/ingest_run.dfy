/** Running a prepared ingest: one goroutine per tablet, one more per destination replica, all
    reporting into shared collectors. */
module IngestRun {
  import opened IngestPlan

  datatype CommitInfo = CommitInfo(tabletId: int, backendId: int)

  /** What became of the load of one destination replica; `src` is the position of the source
      replica in the list of eligible ones. */
  datatype Load = NotStarted | Running(src: nat) | Loaded(src: nat) | Failed

  /** `Scanning` walks through the destination replicas, `Joining` waits for their loads. */
  datatype Phase = Unbegun | Scanning(next: nat) | Joining | Over

  datatype Handler = Handler(job: TabletJob, phase: Phase, loads: seq<Load>, infos: seq<CommitInfo>)

  datatype State = State(handlers: seq<Handler>, srcBackends: set<int>, destBackends: set<int>, infos: seq<CommitInfo>, failed: bool)

  datatype Event =
    | Begin(h: nat)
    | Start(h: nat)
    | LoadEnds(h: nat, k: nat, ok: bool)
    | Join(h: nat)

  /** The source replicas that have the binlog's version, in order. */
  function Eligible(replicas: seq<Replica>, version: int): seq<Replica> {
    if replicas == [] then []
    else
      var last := replicas[|replicas| - 1];
      Eligible(replicas[..|replicas| - 1], version) + if last.version >= version then [last] else []
  }

  lemma {:induction false} EligibleMembers(replicas: seq<Replica>, version: int)
    ensures forall r :: r in Eligible(replicas, version) <==> r in replicas && r.version >= version
  {
    if replicas != [] {
      assert replicas == replicas[..|replicas| - 1] + [replicas[|replicas| - 1]];
      EligibleMembers(replicas[..|replicas| - 1], version);
    }
  }

  function Sources(job: TabletJob): seq<Replica> { Eligible(job.src.replicas, job.version) }

  function InfoOf(r: Replica): CommitInfo { CommitInfo(r.tabletId, r.backendId) }

  function Init(jobs: seq<TabletJob>, srcBackends: set<int>, destBackends: set<int>): State {
    State(seq(|jobs|, i requires 0 <= i < |jobs| =>
            Handler(jobs[i], Unbegun, seq(|jobs[i].dest.replicas|, k => NotStarted), [])),
          srcBackends, destBackends, [], false)
  }

  predicate WellFormed(h: Handler) { |h.loads| == |h.job.dest.replicas| }

  predicate Enabled(s: State, e: Event) {
    e.h < |s.handlers| &&
    var h := s.handlers[e.h];
    && WellFormed(h)
    && match e
       case Begin(_) => h.phase.Unbegun?
       case Start(_) => h.phase.Scanning? && h.phase.next < |h.loads| && |Sources(h.job)| > 0
       case LoadEnds(_, k, _) => k < |h.loads| && h.loads[k].Running?
       case Join(_) => (h.phase.Joining? || (h.phase.Scanning? && h.phase.next >= |h.loads|)) && forall k :: 0 <= k < |h.loads| ==> !h.loads[k].Running?
  }

  /** The next destination replica gets the next source replica in turn; an unknown backend sets the
      error and ends the scan. */
  function StartStep(s: State, h: Handler): (Handler, bool)
    requires WellFormed(h) && h.phase.Scanning? && h.phase.next < |h.loads| && |Sources(h.job)| > 0
  {
    var k := h.phase.next;
    var src := k % |Sources(h.job)|;
    if h.job.dest.replicas[k].backendId !in s.destBackends || Sources(h.job)[src].backendId !in s.srcBackends
    then (h.(phase := Joining), true)
    else (h.(phase := Scanning(k + 1), loads := h.loads[k := Running(src)]), false)
  }

  function Next(s: State, e: Event): State
    requires Enabled(s, e)
  {
    var h := s.handlers[e.h];
    match e
    case Begin(_) =>
      if Sources(h.job) == [] then s.(handlers := s.handlers[e.h := h.(phase := Over)], failed := true)
      else s.(handlers := s.handlers[e.h := h.(phase := Scanning(0))])
    case Start(_) =>
      var (h', bad) := StartStep(s, h);
      s.(handlers := s.handlers[e.h := h'], failed := s.failed || bad)
    case LoadEnds(_, k, ok) =>
      if ok then s.(handlers := s.handlers[e.h := h.(loads := h.loads[k := Loaded(h.loads[k].src)],
                                                     infos := h.infos + [InfoOf(h.job.dest.replicas[k])])])
      else s.(handlers := s.handlers[e.h := h.(loads := h.loads[k := Failed])], failed := true)
    case Join(_) => s.(handlers := s.handlers[e.h := h.(phase := Over)], infos := s.infos + h.infos)
  }

  ghost predicate CanRun(s: State, es: seq<Event>)
    decreases |es|
  {
    es == [] || (Enabled(s, es[0]) && CanRun(Next(s, es[0]), es[1..]))
  }

  ghost function Run(s: State, es: seq<Event>): State
    requires CanRun(s, es)
    decreases |es|
  {
    if es == [] then s else Run(Next(s, es[0]), es[1..])
  }

  // ----- What is collected -----

  /** The commit infos of the first `n` replicas whose load succeeded. */
  ghost function LoadedInfos(h: Handler, n: nat): multiset<CommitInfo>
    requires WellFormed(h) && n <= |h.loads|
  {
    if n == 0 then multiset{}
    else LoadedInfos(h, n - 1) + if h.loads[n - 1].Loaded? then multiset{InfoOf(h.job.dest.replicas[n - 1])} else multiset{}
  }

  lemma {:induction false} LoadedFrame(h: Handler, h': Handler, n: nat)
    requires WellFormed(h) && WellFormed(h') && h.job == h'.job && n <= |h.loads|
    requires forall k :: 0 <= k < n ==> (h.loads[k].Loaded? <==> h'.loads[k].Loaded?)
    ensures LoadedInfos(h, n) == LoadedInfos(h', n)
  {
    if n > 0 {
      LoadedFrame(h, h', n - 1);
    }
  }

  lemma {:induction false} OneMoreLoaded(h: Handler, h': Handler, k: nat, n: nat)
    requires WellFormed(h) && WellFormed(h') && h.job == h'.job && k < n <= |h.loads|
    requires !h.loads[k].Loaded? && h'.loads[k].Loaded?
    requires forall i :: 0 <= i < n && i != k ==> (h.loads[i].Loaded? <==> h'.loads[i].Loaded?)
    ensures LoadedInfos(h', n) == LoadedInfos(h, n) + multiset{InfoOf(h.job.dest.replicas[k])}
  {
    if k == n - 1 {
      LoadedFrame(h, h', n - 1);
    } else {
      OneMoreLoaded(h, h', k, n - 1);
    }
  }

  /** Every replica of every tablet, once each. */
  ghost function ReplicaInfos(t: Tablet, n: nat): multiset<CommitInfo>
    requires n <= |t.replicas|
  {
    if n == 0 then multiset{} else ReplicaInfos(t, n - 1) + multiset{CommitInfo(t.replicas[n - 1].tabletId, t.replicas[n - 1].backendId)}
  }

  ghost function Wanted(tablets: seq<Tablet>): multiset<CommitInfo> {
    if tablets == [] then multiset{}
    else
      var last := tablets[|tablets| - 1];
      Wanted(tablets[..|tablets| - 1]) + ReplicaInfos(last, |last.replicas|)
  }

  /** What the handlers that are over have put into the job's collector. */
  ghost function Collected(handlers: seq<Handler>): multiset<CommitInfo> {
    if handlers == [] then multiset{}
    else
      var last := handlers[|handlers| - 1];
      Collected(handlers[..|handlers| - 1]) + if last.phase.Over? then multiset(last.infos) else multiset{}
  }

  lemma {:induction false} CollectedUpdate(handlers: seq<Handler>, i: nat, h: Handler)
    requires i < |handlers| && !handlers[i].phase.Over?
    ensures Collected(handlers[i := h]) == Collected(handlers) + if h.phase.Over? then multiset(h.infos) else multiset{}
    decreases |handlers|
  {
    var before := handlers[..|handlers| - 1];
    if i == |handlers| - 1 {
      assert handlers[i := h][..|handlers| - 1] == before;
    } else {
      assert handlers[i := h][..|handlers| - 1] == before[i := h];
      CollectedUpdate(before, i, h);
    }
  }

  ghost predicate HandlerOk(h: Handler, failed: bool) {
    && WellFormed(h)
    && multiset(h.infos) == LoadedInfos(h, |h.loads|)
    && (h.phase.Scanning? ==> h.phase.next <= |h.loads|)
    && (h.phase.Scanning? ==> forall k :: 0 <= k < |h.loads| ==> (h.loads[k].NotStarted? <==> k >= h.phase.next))
    && (h.phase.Unbegun? ==> forall k :: 0 <= k < |h.loads| ==> h.loads[k].NotStarted?)
    && (h.phase.Over? ==> forall k :: 0 <= k < |h.loads| ==> !h.loads[k].Running?)
    && (!failed ==>
          && !h.phase.Joining?
          && (forall k :: 0 <= k < |h.loads| ==> !h.loads[k].Failed?)
          && (h.phase.Over? ==> forall k :: 0 <= k < |h.loads| ==> h.loads[k].Loaded?))
    && (forall k :: 0 <= k < |h.loads| && (h.loads[k].Running? || h.loads[k].Loaded?) ==> InTurn(h.job, k, h.loads[k].src))
  }

  /** Destination replica `k` reads from the source replica whose turn it is. */
  predicate InTurn(job: TabletJob, k: nat, src: nat) {
    |Sources(job)| > 0 && src == k % |Sources(job)|
  }

  ghost predicate Inv(s: State) {
    && (forall i :: 0 <= i < |s.handlers| ==> HandlerOk(s.handlers[i], s.failed))
    && multiset(s.infos) == Collected(s.handlers)
  }

  lemma BeginOk(s: State, h: Handler)
    requires HandlerOk(h, s.failed) && h.phase.Unbegun?
    ensures |Sources(h.job)| > 0 ==> HandlerOk(h.(phase := Scanning(0)), s.failed)
    ensures HandlerOk(h.(phase := Over), true) && h.infos == []
  {
    LoadedFrame(h, h.(phase := Over), |h.loads|);
    LoadedFrame(h, h.(phase := Scanning(0)), |h.loads|);
    NothingLoaded(h, |h.loads|);
  }

  lemma {:induction false} NothingLoaded(h: Handler, n: nat)
    requires WellFormed(h) && n <= |h.loads| && forall k :: 0 <= k < n ==> !h.loads[k].Loaded?
    ensures LoadedInfos(h, n) == multiset{}
  {
    if n > 0 {
      NothingLoaded(h, n - 1);
    }
  }

  lemma StartOk(s: State, h: Handler)
    requires HandlerOk(h, s.failed) && h.phase.Scanning? && h.phase.next < |h.loads| && |Sources(h.job)| > 0
    ensures HandlerOk(StartStep(s, h).0, s.failed || StartStep(s, h).1)
  {
    LoadedFrame(h, StartStep(s, h).0, |h.loads|);
  }

  lemma LoadEndsOk(h: Handler, k: nat, failed: bool)
    requires HandlerOk(h, failed) && k < |h.loads| && h.loads[k].Running?
    ensures HandlerOk(h.(loads := h.loads[k := Loaded(h.loads[k].src)], infos := h.infos + [InfoOf(h.job.dest.replicas[k])]), failed)
    ensures HandlerOk(h.(loads := h.loads[k := Failed]), true)
    ensures !h.phase.Over?
  {
    OneMoreLoaded(h, h.(loads := h.loads[k := Loaded(h.loads[k].src)]), k, |h.loads|);
    var done := h.(loads := h.loads[k := Loaded(h.loads[k].src)], infos := h.infos + [InfoOf(h.job.dest.replicas[k])]);
    LoadedFrame(done, h.(loads := h.loads[k := Loaded(h.loads[k].src)]), |h.loads|);
    LoadedFrame(h, h.(loads := h.loads[k := Failed]), |h.loads|);
  }

  lemma JoinOk(h: Handler, failed: bool)
    requires HandlerOk(h, failed) && (h.phase.Joining? || (h.phase.Scanning? && h.phase.next >= |h.loads|))
    requires forall k :: 0 <= k < |h.loads| ==> !h.loads[k].Running?
    ensures HandlerOk(h.(phase := Over), failed)
  {
    LoadedFrame(h, h.(phase := Over), |h.loads|);
  }

  lemma HandlerMoves(s: State, i: nat, h: Handler, failed: bool, s': State)
    requires Inv(s) && i < |s.handlers| && !s.handlers[i].phase.Over? && HandlerOk(h, failed) && (s.failed ==> failed)
    requires s'.handlers == s.handlers[i := h] && s'.failed == failed
    requires multiset(s'.infos) == multiset(s.infos) + if h.phase.Over? then multiset(h.infos) else multiset{}
    ensures Inv(s')
  {
    CollectedUpdate(s.handlers, i, h);
    forall j | 0 <= j < |s'.handlers| ensures HandlerOk(s'.handlers[j], failed) {
      assert HandlerOk(s.handlers[j], s.failed);
    }
  }

  lemma StepKeeps(s: State, e: Event)
    requires Inv(s) && Enabled(s, e)
    ensures Inv(Next(s, e))
  {
    var h, s' := s.handlers[e.h], Next(s, e);
    assert HandlerOk(h, s.failed);
    match e
    case Begin(i) => BeginOk(s, h); HandlerMoves(s, i, s'.handlers[i], s'.failed, s');
    case Start(i) => StartOk(s, h); HandlerMoves(s, i, s'.handlers[i], s'.failed, s');
    case LoadEnds(i, k, _) => LoadEndsOk(h, k, s.failed); HandlerMoves(s, i, s'.handlers[i], s'.failed, s');
    case Join(i) => JoinOk(h, s.failed); HandlerMoves(s, i, s'.handlers[i], s'.failed, s');
  }

  lemma {:induction false} RunKeeps(s: State, es: seq<Event>)
    requires Inv(s) && CanRun(s, es)
    ensures Inv(Run(s, es))
    decreases |es|
  {
    if es != [] {
      StepKeeps(s, es[0]);
      RunKeeps(Next(s, es[0]), es[1..]);
    }
  }

  lemma StepKeepsJobs(s: State, e: Event)
    requires Enabled(s, e)
    ensures |Next(s, e).handlers| == |s.handlers|
    ensures forall i :: 0 <= i < |s.handlers| ==> Next(s, e).handlers[i].job == s.handlers[i].job
  {
  }

  lemma {:induction false} RunKeepsJobs(s: State, es: seq<Event>)
    requires CanRun(s, es)
    ensures |Run(s, es).handlers| == |s.handlers|
    ensures forall i :: 0 <= i < |s.handlers| ==> Run(s, es).handlers[i].job == s.handlers[i].job
    decreases |es|
  {
    if es != [] {
      StepKeepsJobs(s, es[0]);
      RunKeepsJobs(Next(s, es[0]), es[1..]);
    }
  }

  lemma {:induction false} NothingCollected(handlers: seq<Handler>)
    requires forall i :: 0 <= i < |handlers| ==> handlers[i].phase.Unbegun?
    ensures Collected(handlers) == multiset{}
  {
    if handlers != [] {
      NothingCollected(handlers[..|handlers| - 1]);
    }
  }

  lemma InitOk(jobs: seq<TabletJob>, srcBackends: set<int>, destBackends: set<int>)
    ensures Inv(Init(jobs, srcBackends, destBackends))
  {
    var s := Init(jobs, srcBackends, destBackends);
    forall i | 0 <= i < |s.handlers| ensures HandlerOk(s.handlers[i], false) {
      NothingLoaded(s.handlers[i], |s.handlers[i].loads|);
    }
    NothingCollected(s.handlers);
  }

  lemma {:induction false} AllLoaded(h: Handler, n: nat)
    requires WellFormed(h) && n <= |h.loads| && forall k :: 0 <= k < n ==> h.loads[k].Loaded?
    ensures LoadedInfos(h, n) == ReplicaInfos(h.job.dest, n)
  {
    if n > 0 {
      AllLoaded(h, n - 1);
    }
  }

  lemma OverCollects(h: Handler)
    requires HandlerOk(h, false) && h.phase.Over?
    ensures multiset(h.infos) == ReplicaInfos(h.job.dest, |h.job.dest.replicas|)
  {
    AllLoaded(h, |h.loads|);
  }

  lemma {:induction false} AllCollected(handlers: seq<Handler>, jobs: seq<TabletJob>)
    requires |handlers| == |jobs|
    requires forall i :: 0 <= i < |handlers| ==> handlers[i].phase.Over? && handlers[i].job == jobs[i]
    requires forall i :: 0 <= i < |handlers| ==> multiset(handlers[i].infos) == ReplicaInfos(jobs[i].dest, |jobs[i].dest.replicas|)
    ensures Collected(handlers) == Wanted(Dests(jobs))
  {
    if handlers != [] {
      AllCollected(handlers[..|handlers| - 1], jobs[..|jobs| - 1]);
      assert Dests(jobs)[..|jobs| - 1] == Dests(jobs[..|jobs| - 1]);
    }
  }

  ghost predicate AllOver(s: State) { forall i :: 0 <= i < |s.handlers| ==> s.handlers[i].phase.Over? }

  /** The load of replica `k` succeeded, from the source whose turn it was and which had the version. */
  ghost predicate WellLoaded(h: Handler, k: nat) {
    && k < |h.loads| && h.loads[k].Loaded? && InTurn(h.job, k, h.loads[k].src)
    && var r := Sources(h.job)[h.loads[k].src];
    && r in h.job.src.replicas && r.version >= h.job.version
  }

  lemma LoadedWell(h: Handler, k: nat)
    requires HandlerOk(h, false) && h.phase.Over? && k < |h.loads|
    ensures WellLoaded(h, k)
  {
    EligibleMembers(h.job.src.replicas, h.job.version);
    assert InTurn(h.job, k, h.loads[k].src);
    assert Sources(h.job)[h.loads[k].src] in Sources(h.job);
  }

  // ----- Every ingest comes to an end -----

  function LoadWork(l: Load): nat { if l.NotStarted? then 2 else if l.Running? then 1 else 0 }

  function LoadsWork(loads: seq<Load>): nat {
    if loads == [] then 0 else LoadsWork(loads[..|loads| - 1]) + LoadWork(loads[|loads| - 1])
  }

  function PhaseWork(p: Phase): nat {
    match p
    case Unbegun => 3
    case Scanning(_) => 2
    case Joining => 1
    case Over => 0
  }

  /** What is left to do. */
  function Work(handlers: seq<Handler>): nat {
    if handlers == [] then 0
    else
      var last := handlers[|handlers| - 1];
      Work(handlers[..|handlers| - 1]) + LoadsWork(last.loads) + PhaseWork(last.phase)
  }

  lemma {:induction false} LoadsWorkUpdate(loads: seq<Load>, k: nat, l: Load)
    requires k < |loads|
    ensures LoadsWork(loads[k := l]) == LoadsWork(loads) - LoadWork(loads[k]) + LoadWork(l)
  {
    var before := loads[..|loads| - 1];
    if k == |loads| - 1 {
      assert loads[k := l][..|loads| - 1] == before;
    } else {
      assert loads[k := l][..|loads| - 1] == before[k := l];
      LoadsWorkUpdate(before, k, l);
    }
  }

  lemma {:induction false} WorkUpdate(handlers: seq<Handler>, i: nat, h: Handler)
    requires i < |handlers|
    ensures Work(handlers[i := h]) ==
            Work(handlers) - LoadsWork(handlers[i].loads) - PhaseWork(handlers[i].phase) + LoadsWork(h.loads) + PhaseWork(h.phase)
  {
    var before := handlers[..|handlers| - 1];
    if i == |handlers| - 1 {
      assert handlers[i := h][..|handlers| - 1] == before;
    } else {
      assert handlers[i := h][..|handlers| - 1] == before[i := h];
      WorkUpdate(before, i, h);
    }
  }

  function HandlerWork(h: Handler): nat { LoadsWork(h.loads) + PhaseWork(h.phase) }

  lemma StartWorks(s: State, h: Handler)
    requires WellFormed(h) && h.phase.Scanning? && h.phase.next < |h.loads| && |Sources(h.job)| > 0
    requires h.loads[h.phase.next].NotStarted?
    ensures HandlerWork(StartStep(s, h).0) < HandlerWork(h)
  {
    LoadsWorkUpdate(h.loads, h.phase.next, Running(h.phase.next % |Sources(h.job)|));
  }

  lemma LoadEndsWorks(h: Handler, k: nat, l: Load)
    requires k < |h.loads| && h.loads[k].Running? && (l.Loaded? || l.Failed?)
    ensures LoadsWork(h.loads[k := l]) < LoadsWork(h.loads)
  {
    LoadsWorkUpdate(h.loads, k, l);
  }

  lemma StepWorks(s: State, e: Event)
    requires Inv(s) && Enabled(s, e)
    ensures Work(Next(s, e).handlers) < Work(s.handlers)
  {
    var h, h' := s.handlers[e.h], Next(s, e).handlers[e.h];
    assert HandlerOk(h, s.failed);
    assert HandlerWork(h') < HandlerWork(h) by {
      if e.LoadEnds? {
        LoadEndsWorks(h, e.k, h'.loads[e.k]);
      } else if e.Start? {
        StartWorks(s, h);
      }
    }
    assert Next(s, e).handlers == s.handlers[e.h := h'];
    WorkUpdate(s.handlers, e.h, h');
  }

  /** While some handler is not over, some goroutine can move. */
  lemma SomethingIsEnabled(s: State) returns (e: Event)
    requires Inv(s) && !AllOver(s)
    requires forall i :: 0 <= i < |s.handlers| && s.handlers[i].phase.Scanning? ==> Sources(s.handlers[i].job) != []
    ensures Enabled(s, e)
  {
    var i :| 0 <= i < |s.handlers| && !s.handlers[i].phase.Over?;
    var h := s.handlers[i];
    assert HandlerOk(h, s.failed);
    if h.phase.Unbegun? {
      e := Begin(i);
    } else if h.phase.Scanning? && h.phase.next < |h.loads| {
      e := Start(i);
    } else if exists k :: 0 <= k < |h.loads| && h.loads[k].Running? {
      var k :| 0 <= k < |h.loads| && h.loads[k].Running?;
      e := LoadEnds(i, k, true);
    } else {
      e := Join(i);
    }
  }

  ghost predicate ScansHaveSources(s: State) {
    forall i :: 0 <= i < |s.handlers| && s.handlers[i].phase.Scanning? ==> Sources(s.handlers[i].job) != []
  }

  lemma ScansStay(s: State, e: Event)
    requires ScansHaveSources(s) && Enabled(s, e)
    ensures ScansHaveSources(Next(s, e))
  {
  }

  lemma {:induction false} RunWorks(s: State, es: seq<Event>)
    requires Inv(s) && ScansHaveSources(s) && CanRun(s, es)
    ensures |es| + Work(Run(s, es).handlers) <= Work(s.handlers) && ScansHaveSources(Run(s, es))
    decreases |es|
  {
    if es != [] {
      StepKeeps(s, es[0]);
      StepWorks(s, es[0]);
      ScansStay(s, es[0]);
      RunWorks(Next(s, es[0]), es[1..]);
    }
  }

  /** Every interleaving comes to an end, and none ends before all handlers are over: a run is no longer
      than the work there is, and one after which nothing can move has all handlers over. */
  lemma {:induction false} IngestEnds(jobs: seq<TabletJob>, srcBackends: set<int>, destBackends: set<int>, es: seq<Event>)
    requires CanRun(Init(jobs, srcBackends, destBackends), es)
    ensures |es| <= Work(Init(jobs, srcBackends, destBackends).handlers)
    ensures (forall e :: !Enabled(Run(Init(jobs, srcBackends, destBackends), es), e)) ==> AllOver(Run(Init(jobs, srcBackends, destBackends), es))
  {
    var s := Init(jobs, srcBackends, destBackends);
    InitOk(jobs, srcBackends, destBackends);
    RunKeeps(s, es);
    RunWorks(s, es);
    if !AllOver(Run(s, es)) {
      var e := SomethingIsEnabled(Run(s, es));
    }
  }

  // ----- Backends and errors -----

  /** The backends of destination replica `k` and of the source replica it reads from are known. */
  predicate Reachable(job: TabletJob, k: nat, srcBackends: set<int>, destBackends: set<int>)
    requires k < |job.dest.replicas| && |Sources(job)| > 0
  {
    job.dest.replicas[k].backendId in destBackends && Sources(job)[k % |Sources(job)|].backendId in srcBackends
  }

  ghost predicate OnlyReachable(s: State) {
    forall i, k :: 0 <= i < |s.handlers| && 0 <= k < |s.handlers[i].loads| && !s.handlers[i].loads[k].NotStarted? ==>
      WellFormed(s.handlers[i]) && |Sources(s.handlers[i].job)| > 0 && Reachable(s.handlers[i].job, k, s.srcBackends, s.destBackends)
  }

  lemma StepReaches(s: State, e: Event)
    requires OnlyReachable(s) && Enabled(s, e)
    ensures OnlyReachable(Next(s, e))
    ensures Next(s, e).srcBackends == s.srcBackends && Next(s, e).destBackends == s.destBackends
  {
    var s' := Next(s, e);
    forall i, k | 0 <= i < |s'.handlers| && 0 <= k < |s'.handlers[i].loads| && !s'.handlers[i].loads[k].NotStarted?
      ensures WellFormed(s'.handlers[i]) && |Sources(s'.handlers[i].job)| > 0 && Reachable(s'.handlers[i].job, k, s'.srcBackends, s'.destBackends)
    {
      if i != e.h {
        assert s'.handlers[i] == s.handlers[i];
      }
    }
  }

  lemma {:induction false} RunReaches(s: State, es: seq<Event>)
    requires OnlyReachable(s) && CanRun(s, es)
    ensures OnlyReachable(Run(s, es))
    ensures Run(s, es).srcBackends == s.srcBackends && Run(s, es).destBackends == s.destBackends
    decreases |es|
  {
    if es != [] {
      StepReaches(s, es[0]);
      RunReaches(Next(s, es[0]), es[1..]);
    }
  }

  /** The tablet has no source with the version, or one of its replicas cannot be reached. */
  ghost predicate Hopeless(job: TabletJob, srcBackends: set<int>, destBackends: set<int>) {
    Sources(job) == [] || exists k: nat :: k < |job.dest.replicas| && !Reachable(job, k, srcBackends, destBackends)
  }

  ghost predicate Excused(s: State, es: seq<Event>) {
    || (exists i :: 0 <= i < |s.handlers| && Hopeless(s.handlers[i].job, s.srcBackends, s.destBackends))
    || (exists e :: e in es && e.LoadEnds? && !e.ok)
  }

  lemma StepFails(s: State, e: Event)
    requires Enabled(s, e) && Next(s, e).failed && !s.failed
    ensures (e.LoadEnds? && !e.ok) || Hopeless(s.handlers[e.h].job, s.srcBackends, s.destBackends)
  {
    var h := s.handlers[e.h];
    if e.Start? {
      assert !Reachable(h.job, h.phase.next, s.srcBackends, s.destBackends);
    }
  }

  /** An ingest fails only for a load that failed, a tablet without an eligible source or a replica on
      an unknown backend. */
  lemma {:induction false} FailsForAReason(s: State, es: seq<Event>)
    requires CanRun(s, es) && !s.failed && Run(s, es).failed
    ensures Excused(s, es)
    decreases |es|
  {
    var s' := Next(s, es[0]);
    assert es == [es[0]] + es[1..];
    if s'.failed {
      StepFails(s, es[0]);
    } else {
      FailsForAReason(s', es[1..]);
      StepKeepsJobs(s, es[0]);
      if exists i :: 0 <= i < |s'.handlers| && Hopeless(s'.handlers[i].job, s'.srcBackends, s'.destBackends) {
        var i :| 0 <= i < |s'.handlers| && Hopeless(s'.handlers[i].job, s'.srcBackends, s'.destBackends);
        assert Hopeless(s.handlers[i].job, s.srcBackends, s.destBackends);
      }
    }
  }

  // ----- The sources share the work -----

  /** How many of the first `total` destination replicas read from source `i` of `n`. */
  function Uses(n: nat, total: nat, i: nat): nat
    requires i < n
  {
    if total == 0 then 0 else Uses(n, total - 1, i) + if (total - 1) % n == i then 1 else 0
  }

  lemma {:induction false} UsesCount(n: nat, total: nat, i: nat)
    requires i < n
    ensures Uses(n, total, i) == total / n + if i < total % n then 1 else 0
  {
    if total > 0 {
      UsesCount(n, total - 1, i);
      NextQuotient(total - 1, n);
    }
  }

  lemma NextQuotient(x: nat, n: nat)
    requires n > 0
    ensures if x % n == n - 1 then (x + 1) / n == x / n + 1 && (x + 1) % n == 0 else (x + 1) / n == x / n && (x + 1) % n == x % n + 1
  {
    var q, r := x / n, x % n;
    assert x == q * n + r;
    if r == n - 1 {
      assert x + 1 == (q + 1) * n;
      Quotient(x + 1, n, q + 1, 0);
    } else {
      Quotient(x + 1, n, q, r + 1);
    }
  }

  lemma MulMonotone(a: int, b: int, n: nat)
    ensures a <= b ==> a * n <= b * n
  {
  }

  lemma Quotient(x: nat, n: nat, q: nat, r: nat)
    requires n > 0 && x == q * n + r && r < n
    ensures x / n == q && x % n == r
  {
    assert x == (x / n) * n + x % n;
    MulMonotone(q + 1, x / n, n);
    MulMonotone(x / n + 1, q, n);
    assert (q + 1) * n == q * n + n && (x / n + 1) * n == (x / n) * n + n;
  }

  /** The destination replicas, among the first `n`, that were loaded from source `i`. */
  ghost function LoadedFrom(h: Handler, n: nat, i: nat): set<nat> {
    set k: nat | k < n && k < |h.loads| && h.loads[k].Loaded? && h.loads[k].src == i
  }

  lemma {:induction false} LoadedFromCount(h: Handler, n: nat, i: nat)
    requires n <= |h.loads| && i < |Sources(h.job)| && forall k :: 0 <= k < n ==> WellLoaded(h, k)
    ensures |LoadedFrom(h, n, i)| == Uses(|Sources(h.job)|, n, i)
  {
    if n == 0 {
      assert LoadedFrom(h, n, i) == {};
    } else {
      LoadedFromCount(h, n - 1, i);
      assert WellLoaded(h, n - 1);
      var last: set<nat> := if (n - 1) % |Sources(h.job)| == i then {n - 1} else {};
      assert LoadedFrom(h, n, i) == LoadedFrom(h, n - 1, i) + last;
    }
  }

  /** Of the eligible source replicas of the handler's tablet, none was read more than once oftener
      than another. */
  ghost predicate SharedEvenly(h: Handler) {
    forall i: nat, j: nat :: i < |Sources(h.job)| && j < |Sources(h.job)| ==>
      |LoadedFrom(h, |h.loads|, i)| <= |LoadedFrom(h, |h.loads|, j)| + 1
  }

  lemma {:induction false} SourcesShareEvenly(h: Handler)
    requires forall k :: 0 <= k < |h.loads| ==> WellLoaded(h, k)
    ensures SharedEvenly(h)
  {
    var n := |h.loads|;
    forall i: nat, j: nat | i < |Sources(h.job)| && j < |Sources(h.job)|
      ensures |LoadedFrom(h, n, i)| <= |LoadedFrom(h, n, j)| + 1
    {
      LoadedFromCount(h, n, i);
      LoadedFromCount(h, n, j);
      UsesCount(|Sources(h.job)|, n, i);
      UsesCount(|Sources(h.job)|, n, j);
    }
  }

  /** However the goroutines interleave: an ingest that ends without an error has collected exactly
      one commit info for each replica of each destination tablet that had to be loaded, each from a
      source replica that had the binlog's version, all on known backends, and the eligible source
      replicas of a tablet were read equally often, give or take one. */
  lemma {:induction false} CommitInfosAreComplete(m: Meta, setup: Setup, trs: seq<TableRecord>, srcBackends: set<int>, destBackends: set<int>, es: seq<Event>)
    requires AllJobs(m, setup, trs).Some?
    requires CanRun(Init(AllJobs(m, setup, trs).value, srcBackends, destBackends), es)
    requires var s := Run(Init(AllJobs(m, setup, trs).value, srcBackends, destBackends), es); AllOver(s) && !s.failed
    ensures var s := Run(Init(AllJobs(m, setup, trs).value, srcBackends, destBackends), es);
      && multiset(s.infos) == Wanted(WantedTablets(m, setup, trs))
      && (forall i, k :: 0 <= i < |s.handlers| && 0 <= k < |s.handlers[i].loads| ==>
            WellLoaded(s.handlers[i], k) && WellFormed(s.handlers[i]) && Reachable(s.handlers[i].job, k, srcBackends, destBackends))
      && (forall i :: 0 <= i < |s.handlers| ==> SharedEvenly(s.handlers[i]))
  {
    var jobs := AllJobs(m, setup, trs).value;
    var s0 := Init(jobs, srcBackends, destBackends);
    InitOk(jobs, srcBackends, destBackends);
    RunKeeps(s0, es);
    RunKeepsJobs(s0, es);
    RunReaches(s0, es);
    var s := Run(s0, es);
    Collection(s, jobs);
    PlanDestinations(m, setup, trs);
    forall i | 0 <= i < |s.handlers| ensures SharedEvenly(s.handlers[i]) {
      SourcesShareEvenly(s.handlers[i]);
    }
  }

  lemma Collection(s: State, jobs: seq<TabletJob>)
    requires Inv(s) && AllOver(s) && !s.failed && |s.handlers| == |jobs|
    requires forall i :: 0 <= i < |jobs| ==> s.handlers[i].job == jobs[i]
    ensures multiset(s.infos) == Wanted(Dests(jobs))
    ensures forall i, k :: 0 <= i < |s.handlers| && 0 <= k < |s.handlers[i].loads| ==> WellLoaded(s.handlers[i], k)
  {
    forall i | 0 <= i < |s.handlers|
      ensures multiset(s.handlers[i].infos) == ReplicaInfos(jobs[i].dest, |jobs[i].dest.replicas|)
    {
      OverCollects(s.handlers[i]);
    }
    AllCollected(s.handlers, jobs);
    forall i, k | 0 <= i < |s.handlers| && 0 <= k < |s.handlers[i].loads| ensures WellLoaded(s.handlers[i], k) {
      LoadedWell(s.handlers[i], k);
    }
  }

  /** The scan of one tablet in the form of the source: which replica each load reads from. */
  class TabletIngestBinlogHandler {
    const job: TabletJob
    var used: seq<Replica>

    constructor (job: TabletJob)
      ensures this.job == job && used == []
    {
      this.job, used := job, [];
    }

    method ScanSources() returns (srcReplicas: seq<Replica>)
      ensures srcReplicas == Sources(job)
    {
      srcReplicas := [];
      for i := 0 to |job.src.replicas|
        invariant srcReplicas == Eligible(job.src.replicas[..i], job.version)
      {
        assert job.src.replicas[..i + 1][..i] == job.src.replicas[..i];
        if job.src.replicas[i].version >= job.version {
          srcReplicas := srcReplicas + [job.src.replicas[i]];
        }
      }
      assert job.src.replicas[..|job.src.replicas|] == job.src.replicas;
    }

    /** The scan over the destination replicas ends early at an unknown backend. */
    method Handle(srcBackends: set<int>, destBackends: set<int>) returns (ok: bool)
      requires used == []
      modifies this
      ensures |used| <= |job.dest.replicas| && forall k :: 0 <= k < |used| ==> Reads(job, k, used[k])
      ensures ok <==> Sources(job) != [] && |used| == |job.dest.replicas|
      ensures forall k: nat :: k < |used| && |Sources(job)| > 0 ==> Reachable(job, k, srcBackends, destBackends)
      ensures Sources(job) != [] && !ok ==> |used| < |job.dest.replicas| && !Reachable(job, |used|, srcBackends, destBackends)
    {
      var srcReplicas := ScanSources();
      if |srcReplicas| == 0 {
        return false;
      }
      var srcReplicaIndex := 0;
      for k := 0 to |job.dest.replicas|
        invariant srcReplicaIndex == k == |used|
        invariant forall i :: 0 <= i < k ==> Reads(job, i, used[i])
        invariant forall i: nat :: i < k ==> Reachable(job, i, srcBackends, destBackends)
      {
        var srcReplica := srcReplicas[srcReplicaIndex % |srcReplicas|];
        assert Reads(job, k, srcReplica);
        if job.dest.replicas[k].backendId !in destBackends || srcReplica.backendId !in srcBackends {
          return false;
        }
        srcReplicaIndex := srcReplicaIndex + 1;
        used := used + [srcReplica];
      }
      return true;
    }
  }

  /** Destination replica `k` reads from `r`, the source replica whose turn it is. */
  predicate Reads(job: TabletJob, k: nat, r: Replica) {
    |Sources(job)| > 0 && r == Sources(job)[k % |Sources(job)|]
  }
}
