/** Several syncers sharing one metadata store.  A syncer proves it is alive, and learns about
    jobs handed to it, through one timestamp: it swaps its own stamp, and whoever gives it a job
    changes that stamp, so its next swap fails and it reads its jobs again. */
module Membership {
  type Host = string
  type Job = string
  type Stamp = int

  const INVALID_STAMP: Stamp := -1

  /** Time after which a silent syncer counts as dead, in nanoseconds. */
  const CHECK_TIMEOUT: Stamp := 12_000_000_000

  /** The checker's states.  Update is split where another syncer can get in between: after the
      stamp was read and before the jobs are, and before the jobs read are started. */
  datatype CheckerState =
    | Refresh | Update | ReadJobs(stamp: Stamp) | Starting(jobs: set<Job>)
    | Check | Rebalance | Finish | Error

  /** One syncer process.  `adding` are jobs inserted for it and not started yet. */
  datatype Node = Node(lastStamp: Stamp, state: CheckerState, firstCheck: bool, dead: set<Host>,
                       running: set<Job>, adding: set<Job>)

  /** The two shared tables, the highest stamp handed out, and the processes that are up. */
  datatype System = System(syncers: map<Host, Stamp>, jobs: map<Job, Host>, clock: Stamp, nodes: map<Host, Node>)

  datatype Event =
    | Boot(h: Host)
    | Die(h: Host)
    | Register(h: Host, now: Stamp)
    | StartCheck(h: Host)
    | DoRefresh(h: Host, now: Stamp, replied: bool)
    | ReadStamp(h: Host, replied: bool)
    | ReadJobList(h: Host, replied: bool)
    | StartJobs(h: Host)
    | FindDead(h: Host, replied: bool)
    | MoveJobs(h: Host, moves: map<Job, Host>, bumps: map<Host, Stamp>, latest: Stamp, replied: bool)
    | MoveFailed(h: Host)
    | InsertJob(h: Host, j: Job)
    | RunJob(h: Host, j: Job)

  /** `next`: the state after a step that left `lastStamp` and `dead` as given. */
  function NextState(n: Node, failed: bool): Node {
    if failed then n.(state := Error)
    else match n.state
      case Refresh =>
        n.(firstCheck := false,
           state := if n.lastStamp == INVALID_STAMP then Update else if n.firstCheck then Check else Finish)
      case Check => n.(state := if n.dead != {} then Rebalance else Finish)
      case Starting(_) => n.(state := Refresh)
      case Rebalance => n.(state := Refresh)
      case _ => n.(state := Error)
  }

  function DeadSyncers(syncers: map<Host, Stamp>, expired: Stamp): set<Host> {
    set h | h in syncers && syncers[h] < expired
  }

  /** The effect of one rebalance transaction: the dead are removed, their jobs go to syncers still
      present, if there is one, and every receiver gets a stamp never used before. */
  predicate ValidMoves(s: System, dead: set<Host>, moves: map<Job, Host>, bumps: map<Host, Stamp>, latest: Stamp) {
    && latest >= s.clock
    && (forall j :: j in moves ==> j in s.jobs && s.jobs[j] in dead && moves[j] in bumps)
    && (forall j :: j in s.jobs && s.jobs[j] in dead && j !in moves ==> s.syncers.Keys <= dead)
    && (forall h :: h in bumps ==> h in s.syncers && h !in dead && s.clock < bumps[h] <= latest)
  }

  ghost predicate Enabled(s: System, e: Event) {
    match e
    case Boot(h) => h !in s.nodes
    case Register(h, now) => h in s.nodes && now > s.clock
    case DoRefresh(h, now, _) => h in s.nodes && s.nodes[h].state.Refresh? && now > s.clock
    case StartCheck(h) => h in s.nodes && (s.nodes[h].state.Finish? || s.nodes[h].state.Error?)
    case ReadStamp(h, replied) => h in s.nodes && s.nodes[h].state.Update? && (replied ==> h in s.syncers)
    case ReadJobList(h, _) => h in s.nodes && s.nodes[h].state.ReadJobs?
    case StartJobs(h) => h in s.nodes && s.nodes[h].state.Starting?
    case FindDead(h, _) => h in s.nodes && s.nodes[h].state.Check?
    case MoveJobs(h, moves, bumps, latest, _) =>
      h in s.nodes && s.nodes[h].state.Rebalance? && ValidMoves(s, s.nodes[h].dead, moves, bumps, latest)
    case MoveFailed(h) => h in s.nodes && s.nodes[h].state.Rebalance?
    case InsertJob(h, j) => h in s.nodes && j !in s.jobs && j !in s.nodes[h].running
    case RunJob(h, j) => h in s.nodes && j in s.nodes[h].adding
    case Die(h) => h in s.nodes
  }

  function Next(s: System, e: Event): System
    requires Enabled(s, e)
  {
    match e
    case Boot(h) => s.(nodes := s.nodes[h := Node(INVALID_STAMP, Finish, true, {}, {}, {})])
    case Die(h) => s.(nodes := s.nodes - {h})
    case Register(h, now) => s.(syncers := s.syncers[h := now], clock := now)
    case StartCheck(h) => s.(nodes := s.nodes[h := s.nodes[h].(state := Refresh, firstCheck := true, dead := {})])
    case DoRefresh(h, now, replied) =>
      var n := s.nodes[h];
      var swapped := h in s.syncers && s.syncers[h] == n.lastStamp;
      var s' := if swapped then s.(syncers := s.syncers[h := now], clock := now) else s;
      var n' := n.(lastStamp := if replied && swapped then now else INVALID_STAMP);
      s'.(nodes := s.nodes[h := NextState(n', !replied)])
    case ReadStamp(h, replied) =>
      var n := s.nodes[h];
      s.(nodes := s.nodes[h := if replied then n.(state := ReadJobs(s.syncers[h]))
                               else NextState(n.(lastStamp := INVALID_STAMP), true)])
    case ReadJobList(h, replied) =>
      var n := s.nodes[h];
      s.(nodes := s.nodes[h :=
        if replied then n.(lastStamp := n.state.stamp, state := Starting(set j | j in s.jobs && s.jobs[j] == h))
        else NextState(n.(lastStamp := INVALID_STAMP), true)])
    case StartJobs(h) =>
      var n := s.nodes[h];
      s.(nodes := s.nodes[h := NextState(n.(running := n.running + n.state.jobs), false)])
    case FindDead(h, replied) =>
      var n := s.nodes[h];
      s.(nodes := s.nodes[h := NextState(
        n.(dead := if replied then DeadSyncers(s.syncers, n.lastStamp - CHECK_TIMEOUT) else {}), !replied)])
    case MoveJobs(h, moves, bumps, latest, replied) =>
      var n := s.nodes[h];
      s.(syncers := (s.syncers - n.dead) + bumps, jobs := s.jobs + moves, clock := latest,
         nodes := s.nodes[h := NextState(n, !replied)])
    case MoveFailed(h) => s.(nodes := s.nodes[h := NextState(s.nodes[h], true)])
    case InsertJob(h, j) =>
      s.(jobs := s.jobs[j := h], nodes := s.nodes[h := s.nodes[h].(adding := s.nodes[h].adding + {j})])
    case RunJob(h, j) =>
      var n := s.nodes[h];
      s.(nodes := s.nodes[h := n.(adding := n.adding - {j}, running := n.running + {j})])
  }

  /** The process is running the job, or is between inserting its row and starting it. */
  predicate HasJob(n: Node, j: Job) { j in n.running || j in n.adding }

  /** A job of `h` that `h` does not have is covered by a stamp `h` has not seen, or is in the
      list about to be started. */
  ghost predicate Noticed(s: System, h: Host, j: Job)
    requires h in s.nodes && h in s.syncers
  {
    var n := s.nodes[h];
    HasJob(n, j) || s.syncers[h] != n.lastStamp || (n.state.Starting? && j in n.state.jobs)
  }

  ghost predicate Inv(s: System) {
    && (forall h :: h in s.syncers ==> 0 <= s.syncers[h] <= s.clock)
    && (forall h :: h in s.nodes ==> s.nodes[h].lastStamp <= s.clock)
    && (forall h :: h in s.nodes && s.nodes[h].state.ReadJobs? ==> s.nodes[h].state.stamp <= s.clock)
    && (forall h, j :: h in s.nodes && h in s.syncers && j in s.jobs && s.jobs[j] == h ==> Noticed(s, h, j))
    && s.clock >= 0
  }

  lemma StepKeeps(s: System, e: Event)
    requires Inv(s) && Enabled(s, e)
    ensures Inv(Next(s, e))
  {
    var s' := Next(s, e);
    forall h, j | h in s'.nodes && h in s'.syncers && j in s'.jobs && s'.jobs[j] == h
      ensures Noticed(s', h, j)
    {
      if h in s.nodes && h in s.syncers && j in s.jobs && s.jobs[j] == h {
        assert Noticed(s, h, j);
      }
    }
  }

  ghost predicate CanRun(s: System, es: seq<Event>)
    decreases |es|
  {
    es == [] || (Enabled(s, es[0]) && CanRun(Next(s, es[0]), es[1..]))
  }

  ghost function Run(s: System, es: seq<Event>): System
    requires CanRun(s, es)
    decreases |es|
  {
    if es == [] then s else Run(Next(s, es[0]), es[1..])
  }

  /** No process is up yet; the tables may hold anything earlier processes left. */
  ghost predicate Init(s: System) {
    s.nodes == map[] && s.clock >= 0 && forall h :: h in s.syncers ==> 0 <= s.syncers[h] <= s.clock
  }

  lemma {:induction false} RunKeeps(s: System, es: seq<Event>)
    requires Inv(s) && CanRun(s, es)
    ensures Inv(Run(s, es))
    decreases |es|
  {
    if es != [] {
      StepKeeps(s, es[0]);
      RunKeeps(Next(s, es[0]), es[1..]);
    }
  }

  /** In every state that any number of syncers can reach: a job of `h` that `h` neither has nor
      is about to start implies that the stored stamp is not the one `h` remembers. */
  lemma ReassignedJobsAreNoticed(s: System, es: seq<Event>, h: Host, j: Job)
    requires Init(s) && CanRun(s, es)
    requires var r := Run(s, es);
      h in r.nodes && h in r.syncers && j in r.jobs && r.jobs[j] == h && !HasJob(r.nodes[h], j)
      && !r.nodes[h].state.Starting?
    ensures Run(s, es).syncers[h] != Run(s, es).nodes[h].lastStamp
  {
    RunKeeps(s, es);
    assert Noticed(Run(s, es), h, j);
  }

  /** So a swap that succeeds proves that every job of the syncer is running. */
  lemma RefreshMeansRunning(s: System, es: seq<Event>, h: Host, now: Stamp)
    requires Init(s) && CanRun(s, es) && Enabled(Run(s, es), DoRefresh(h, now, true))
    requires Next(Run(s, es), DoRefresh(h, now, true)).nodes[h].lastStamp != INVALID_STAMP
    ensures var r := Next(Run(s, es), DoRefresh(h, now, true));
      forall j :: j in r.jobs && r.jobs[j] == h ==> HasJob(r.nodes[h], j)
  {
    RunKeeps(s, es);
    var r := Run(s, es);
    forall j | j in r.jobs && r.jobs[j] == h ensures HasJob(r.nodes[h], j) {
      assert Noticed(r, h, j);
    }
  }

  /** Four undisturbed steps after a failed swap bring a syncer up to date. */
  lemma CatchUp(s: System, h: Host, now: Stamp)
    requires Inv(s) && h in s.nodes && h in s.syncers && s.nodes[h].state.Update? && now > s.clock
    ensures var es := [ReadStamp(h, true), ReadJobList(h, true), StartJobs(h), DoRefresh(h, now, true)];
      && CanRun(s, es)
      && h in Run(s, es).syncers && h in Run(s, es).nodes
      && Run(s, es).syncers[h] == Run(s, es).nodes[h].lastStamp == now
      && (forall j :: j in s.jobs && s.jobs[j] == h ==> j in Run(s, es).nodes[h].running)
  {
    var s1 := Next(s, ReadStamp(h, true));
    var s2 := Next(s1, ReadJobList(h, true));
    var s3 := Next(s2, StartJobs(h));
    var s4 := Next(s3, DoRefresh(h, now, true));
    assert Run(s4, []) == s4;
    RunCons(s3, DoRefresh(h, now, true), []);
    assert [DoRefresh(h, now, true)] + [] == [DoRefresh(h, now, true)];
    RunCons(s2, StartJobs(h), [DoRefresh(h, now, true)]);
    RunCons(s1, ReadJobList(h, true), [StartJobs(h)] + [DoRefresh(h, now, true)]);
    RunCons(s, ReadStamp(h, true), [ReadJobList(h, true)] + ([StartJobs(h)] + [DoRefresh(h, now, true)]));
    assert [ReadStamp(h, true), ReadJobList(h, true), StartJobs(h), DoRefresh(h, now, true)] ==
           [ReadStamp(h, true)] + ([ReadJobList(h, true)] + ([StartJobs(h)] + [DoRefresh(h, now, true)]));
  }

  lemma RunCons(s: System, e: Event, es: seq<Event>)
    requires Enabled(s, e) && CanRun(Next(s, e), es)
    ensures CanRun(s, [e] + es) && Run(s, [e] + es) == Run(Next(s, e), es)
  {
    assert ([e] + es)[1..] == es;
  }

  // ----- Who is taken for dead -----

  /** A check finds exactly the rows more than twelve seconds behind the checker's own stamp. */
  lemma {:induction false} FindDeadExactly(s: System, h: Host, g: Host)
    requires Enabled(s, FindDead(h, true))
    ensures g in Next(s, FindDead(h, true)).nodes[h].dead <==>
            g in s.syncers && s.syncers[g] + 12_000_000_000 < s.nodes[h].lastStamp
  {
    assert h in Next(s, FindDead(h, true)).nodes;
  }

  /** The row of `g`, if it is there, is at least as new as `since`. */
  predicate NotOlder(s: System, g: Host, since: Stamp) { s.clock >= since && (g in s.syncers ==> s.syncers[g] >= since) }

  lemma {:induction false} NeverOlder(s: System, es: seq<Event>, g: Host, since: Stamp)
    requires CanRun(s, es) && NotOlder(s, g, since)
    ensures NotOlder(Run(s, es), g, since)
    decreases |es|
  {
    if es != [] {
      NeverOlder(Next(s, es[0]), es[1..], g, since);
    }
  }

  /** The event writes the stamp `now` for `g`. */
  predicate Stamps(s: System, e: Event, g: Host, now: Stamp) {
    || e == Register(g, now)
    || (e.DoRefresh? && e.h == g && e.now == now && g in s.nodes && g in s.syncers && s.syncers[g] == s.nodes[g].lastStamp)
  }

  /** Once a syncer has written its stamp, whatever happens in between, no check of a syncer whose own
      stamp is at most twelve seconds later takes it for dead. */
  lemma {:induction false} RecentIsNotDead(s: System, e: Event, es: seq<Event>, g: Host, now: Stamp, h: Host)
    requires Enabled(s, e) && Stamps(s, e, g, now) && CanRun(Next(s, e), es)
    requires Enabled(Run(Next(s, e), es), FindDead(h, true))
    requires Run(Next(s, e), es).nodes[h].lastStamp <= now + 12_000_000_000
    ensures g !in Next(Run(Next(s, e), es), FindDead(h, true)).nodes[h].dead
  {
    NeverOlder(Next(s, e), es, g, now);
    FindDeadExactly(Run(Next(s, e), es), h, g);
  }

  // ----- Jobs whose owner has no row -----

  ghost predicate AllOwned(s: System) { forall j :: j in s.jobs ==> s.jobs[j] in s.syncers }

  /** A syncer that has no row adds a job, or the jobs of the dead are moved when nobody is left. */
  ghost predicate Strands(s: System, e: Event) {
    match e
    case InsertJob(h, _) => h !in s.syncers
    case MoveJobs(h, _, _, _, _) =>
      && h in s.nodes && s.syncers.Keys <= s.nodes[h].dead
      && exists j :: j in s.jobs && s.jobs[j] in s.nodes[h].dead
    case _ => false
  }

  lemma StrandsExactly(s: System, e: Event)
    requires AllOwned(s) && Enabled(s, e)
    ensures AllOwned(Next(s, e)) <==> !Strands(s, e)
  {
    var s' := Next(s, e);
    if e.InsertJob? {
      assert s'.jobs[e.j] == e.h;
    } else if e.MoveJobs? && Strands(s, e) {
      var dead := s.nodes[e.h].dead;
      var j :| j in s.jobs && s.jobs[j] in dead;
      assert forall h :: h in e.bumps ==> h in s.syncers && h !in dead;
      assert j !in e.moves && s'.jobs[j] == s.jobs[j];
    }
  }

  ghost predicate AlwaysOwned(s: System, es: seq<Event>)
    requires CanRun(s, es)
    decreases |es|
  {
    AllOwned(s) && (es == [] || AlwaysOwned(Next(s, es[0]), es[1..]))
  }

  ghost predicate NeverStrands(s: System, es: seq<Event>)
    requires CanRun(s, es)
    decreases |es|
  {
    es == [] || (!Strands(s, es[0]) && NeverStrands(Next(s, es[0]), es[1..]))
  }

  /** Over every run of any number of syncers: all jobs keep an owner with a row if and only if no job
      is added by a syncer without one and no transaction finds every syncer of the table dead. */
  lemma {:induction false} OwnedExactly(s: System, es: seq<Event>)
    requires AllOwned(s) && CanRun(s, es)
    ensures AlwaysOwned(s, es) <==> NeverStrands(s, es)
    decreases |es|
  {
    if es != [] {
      StrandsExactly(s, es[0]);
      if AllOwned(Next(s, es[0])) {
        OwnedExactly(Next(s, es[0]), es[1..]);
      }
    }
  }

  /** The owner has no row, and nobody is about to take its jobs over. */
  ghost predicate Lost(s: System, j: Job, h: Host) {
    && j in s.jobs && s.jobs[j] == h && h !in s.syncers
    && forall g :: g in s.nodes ==> !(s.nodes[g].state.Rebalance? && h in s.nodes[g].dead)
  }

  ghost predicate StaysLost(s: System, es: seq<Event>, j: Job, h: Host)
    requires CanRun(s, es)
    decreases |es|
  {
    Lost(s, j, h) && (es == [] || StaysLost(Next(s, es[0]), es[1..], j, h))
  }

  lemma LostStep(s: System, e: Event, j: Job, h: Host)
    requires Lost(s, j, h) && Enabled(s, e)
    ensures Lost(Next(s, e), j, h) <==> !(e.Register? && e.h == h)
  {
    var s' := Next(s, e);
    if !(e.Register? && e.h == h) {
      forall g | g in s'.nodes ensures !(s'.nodes[g].state.Rebalance? && h in s'.nodes[g].dead) {
        if g in s.nodes {
          assert !(s.nodes[g].state.Rebalance? && h in s.nodes[g].dead);
        }
      }
    }
  }

  /** No checker ever finds such a job: it stays where it is until its owner registers again. */
  lemma {:induction false} LostUntilRegistered(s: System, es: seq<Event>, j: Job, h: Host)
    requires Lost(s, j, h) && CanRun(s, es)
    ensures StaysLost(s, es, j, h) <==> forall e :: e in es ==> !(e.Register? && e.h == h)
    decreases |es|
  {
    if es != [] {
      LostStep(s, es[0], j, h);
      if !(es[0].Register? && es[0].h == h) {
        LostUntilRegistered(Next(s, es[0]), es[1..], j, h);
        assert es == [es[0]] + es[1..];
      }
    }
  }

  ghost predicate Reaches(s: System, es: seq<Event>, s': System) { CanRun(s, es) && Run(s, es) == s' }

  lemma {:induction false} Then(s: System, es: seq<Event>, s': System, e: Event)
    requires Reaches(s, es, s') && Enabled(s', e)
    ensures Reaches(s, es + [e], Next(s', e))
    decreases |es|
  {
    if es == [] {
      assert es + [e] == [e] && [e][1..] == [];
      assert Reaches(Next(s', e), [], Next(s', e));
    } else {
      assert (es + [e])[1..] == es[1..] + [e];
      Then(Next(s, es[0]), es[1..], s', e);
    }
  }

  /** A syncer just started reads its stamp and jobs and comes up for its next check. */
  lemma ComesUp(s0: System, es0: seq<Event>, s: System, h: Host, now: Stamp) returns (es: seq<Event>, s': System)
    requires Reaches(s0, es0, s) && Inv(s) && now > s.clock
    requires h in s.nodes && h in s.syncers && s.nodes[h].state.Finish? && s.nodes[h].lastStamp == INVALID_STAMP
    ensures Reaches(s0, es, s')
    ensures h in s'.nodes && s'.nodes[h].lastStamp == now && s'.nodes[h].state.Finish?
    ensures s' == s.(syncers := s.syncers[h := now], clock := now, nodes := s.nodes[h := s'.nodes[h]])
  {
    Then(s0, es0, s, StartCheck(h));
    var s1 := Next(s, StartCheck(h));
    es := es0 + [StartCheck(h)];
    Then(s0, es, s1, DoRefresh(h, now, true));
    var s2 := Next(s1, DoRefresh(h, now, true));
    es := es + [DoRefresh(h, now, true)];
    Then(s0, es, s2, ReadStamp(h, true));
    var s3 := Next(s2, ReadStamp(h, true));
    es := es + [ReadStamp(h, true)];
    Then(s0, es, s3, ReadJobList(h, true));
    var s4 := Next(s3, ReadJobList(h, true));
    es := es + [ReadJobList(h, true)];
    Then(s0, es, s4, StartJobs(h));
    var s5 := Next(s4, StartJobs(h));
    es := es + [StartJobs(h)];
    Then(s0, es, s5, DoRefresh(h, now, true));
    s' := Next(s5, DoRefresh(h, now, true));
    es := es + [DoRefresh(h, now, true)];
    assert s'.nodes == s.nodes[h := s'.nodes[h]];
  }

  /** And if the others have been silent for long enough, it finds all of them dead. */
  lemma FindsOthersDead(s0: System, es0: seq<Event>, s: System, h: Host, now: Stamp) returns (es: seq<Event>, s': System)
    requires Reaches(s0, es0, s) && Inv(s) && now > s.clock + CHECK_TIMEOUT
    requires h in s.nodes && h in s.syncers && s.nodes[h].state.Finish? && s.nodes[h].lastStamp == INVALID_STAMP
    requires s.syncers.Keys - {h} != {}
    ensures Reaches(s0, es, s')
    ensures h in s'.nodes && s'.nodes[h].state.Rebalance? && s'.nodes[h].dead == s.syncers.Keys - {h}
    ensures s' == s.(syncers := s.syncers[h := now + 1], clock := now + 1, nodes := s.nodes[h := s'.nodes[h]])
  {
    var s1;
    es, s1 := ComesUp(s0, es0, s, h, now);
    Then(s0, es, s1, StartCheck(h));
    var s2 := Next(s1, StartCheck(h));
    es := es + [StartCheck(h)];
    Then(s0, es, s2, DoRefresh(h, now + 1, true));
    var s3 := Next(s2, DoRefresh(h, now + 1, true));
    es := es + [DoRefresh(h, now + 1, true)];
    assert DeadSyncers(s3.syncers, now + 1 - CHECK_TIMEOUT) == s.syncers.Keys - {h};
    Then(s0, es, s3, FindDead(h, true));
    s' := Next(s3, FindDead(h, true));
    es := es + [FindDead(h, true)];
    assert s'.nodes == s.nodes[h := s'.nodes[h]];
  }

  function AllTo(s: System, dead: set<Host>, h: Host): map<Job, Host> {
    map j | j in s.jobs && s.jobs[j] in dead :: h
  }

  /** Its transaction then removes all the others and leaves it with their jobs. */
  lemma TakesAll(s0: System, es0: seq<Event>, s: System, h: Host) returns (es: seq<Event>, s': System)
    requires Reaches(s0, es0, s) && Inv(s)
    requires h in s.nodes && h in s.syncers && s.nodes[h].state.Rebalance? && s.nodes[h].dead == s.syncers.Keys - {h}
    ensures Reaches(s0, es, s') && s'.syncers.Keys == {h} && s'.jobs.Keys == s.jobs.Keys
    ensures h in s'.nodes && s'.nodes[h].state.Refresh? && s'.nodes == s.nodes[h := s'.nodes[h]]
    ensures forall j :: j in s.jobs && s.jobs[j] == h ==> s'.jobs[j] == h
  {
    var dead := s.nodes[h].dead;
    var move := MoveJobs(h, AllTo(s, dead, h), map[h := s.clock + 1], s.clock + 1, true);
    Then(s0, es0, s, move);
    s' := Next(s, move);
    es := es0 + [move];
  }

  lemma NobodyLeft(s: System, a: Host)
    requires a in s.nodes && s.nodes[a].state.Rebalance? && s.syncers.Keys <= s.nodes[a].dead
    requires forall g :: g in s.nodes && g != a ==> !s.nodes[g].state.Rebalance?
    ensures var e := MoveJobs(a, map[], map[], s.clock, true); var s' := Next(s, e);
      Enabled(s, e) && s'.syncers == map[] && s'.jobs == s.jobs && s'.nodes.Keys == s.nodes.Keys
      && forall i :: i in s'.jobs ==> Lost(s', i, s'.jobs[i])
  {
  }

  /** Two syncers up and registered, one of them with a job. */
  lemma TwoStart(s: System, a: Host, b: Host, j: Job) returns (es: seq<Event>, s': System)
    requires Init(s) && a != b && j !in s.jobs
    ensures Reaches(s, es, s') && Inv(s')
    ensures s'.nodes.Keys == {a, b} && a in s'.syncers && b in s'.syncers && s'.jobs == s.jobs[j := b]
    ensures forall h :: h in s'.nodes ==>
              s'.nodes[h].state.Finish? && s'.nodes[h].lastStamp == INVALID_STAMP && s'.nodes[h].running == {}
  {
    assert Reaches(s, [], s);
    Then(s, [], s, Boot(a));
    var s1 := Next(s, Boot(a));
    Then(s, [] + [Boot(a)], s1, Boot(b));
    var s2 := Next(s1, Boot(b));
    es := [] + [Boot(a)] + [Boot(b)];
    Then(s, es, s2, Register(a, s.clock + 1));
    var s3 := Next(s2, Register(a, s.clock + 1));
    es := es + [Register(a, s.clock + 1)];
    Then(s, es, s3, Register(b, s.clock + 2));
    var s4 := Next(s3, Register(b, s.clock + 2));
    es := es + [Register(b, s.clock + 2)];
    Then(s, es, s4, InsertJob(b, j));
    s' := Next(s4, InsertJob(b, j));
    es := es + [InsertJob(b, j)];
    RunKeeps(s, es);
  }

  /** A syncer slow enough to be taken for dead loses its row but not its process: the next job added
      through it belongs to nobody. */
  lemma {:induction false} OutlivedSyncerStrands(s: System, a: Host, b: Host, j: Job, j': Job) returns (es: seq<Event>)
    requires Init(s) && a != b && j !in s.jobs && j' !in s.jobs && j != j'
    ensures CanRun(s, es) && Lost(Run(s, es), j', b)
  {
    var s1, s2;
    es, s1 := TwoStart(s, a, b, j);
    assert b in s1.syncers.Keys - {a};
    es, s2 := FindsOthersDead(s, es, s1, a, s1.clock + CHECK_TIMEOUT + 1);
    RunKeeps(s, es);
    var s3;
    es, s3 := TakesAll(s, es, s2, a);
    assert s3.nodes[b] == s2.nodes[b] == s1.nodes[b];
    Then(s, es, s3, InsertJob(b, j'));
    es := es + [InsertJob(b, j')];
  }

  /** Each of two syncers has found the other dead. */
  lemma FaceOff(s: System, a: Host, b: Host, j: Job) returns (es: seq<Event>, s': System)
    requires Init(s) && a != b && j !in s.jobs
    ensures Reaches(s, es, s') && Inv(s') && s'.nodes.Keys == {a, b} && s'.jobs == s.jobs[j := b]
    ensures s'.nodes[a].state.Rebalance? && b in s'.nodes[a].dead
    ensures b in s'.syncers && s'.nodes[b].state.Rebalance? && s'.nodes[b].dead == s'.syncers.Keys - {b}
  {
    var s1, s2;
    es, s1 := TwoStart(s, a, b, j);
    assert b in s1.syncers.Keys - {a};
    es, s2 := FindsOthersDead(s, es, s1, a, s1.clock + CHECK_TIMEOUT + 1);
    RunKeeps(s, es);
    assert s2.nodes[b] == s1.nodes[b];
    assert a in s2.syncers.Keys - {b};
    es, s' := FindsOthersDead(s, es, s2, b, s2.clock + CHECK_TIMEOUT + 1);
    RunKeeps(s, es);
    assert s'.nodes[a] == s2.nodes[a];
  }

  /** Two syncers that take each other for dead, one of them late: its transaction finds nobody left,
      the table of syncers ends empty, and every job stored belongs to nobody. */
  lemma {:induction false} MutualSuspicionStrandsAll(s: System, a: Host, b: Host, j: Job) returns (es: seq<Event>)
    requires Init(s) && a != b && j !in s.jobs
    ensures CanRun(s, es)
    ensures var r := Run(s, es);
      && r.syncers == map[] && j in r.jobs && s.jobs.Keys <= r.jobs.Keys && r.nodes.Keys == {a, b}
      && forall i :: i in r.jobs ==> Lost(r, i, r.jobs[i])
  {
    var s1, s2;
    es, s1 := FaceOff(s, a, b, j);
    es, s2 := TakesAll(s, es, s1, b);
    assert s2.nodes[a] == s1.nodes[a];
    NobodyLeft(s2, a);
    var late := MoveJobs(a, map[], map[], s2.clock, true);
    Then(s, es, s2, late);
    es := es + [late];
    assert j in s2.jobs;
  }
}
