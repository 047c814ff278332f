/** One syncer's checker and job set, in the form the process keeps them.  Every step is proved to
    be a step of the membership protocol of module Membership. */
module CheckerObject {
  import opened Wrappers
  import opened Membership
  import opened SyncerStore
  import opened Rebalance
  import M = Membership

  class JobManager {
    var jobs: set<Job>
    var adding: set<Job>

    constructor ()
      ensures jobs == {} && adding == {}
    {
      jobs, adding := {}, {};
    }

    /** A new job is stored under this syncer's name before it is started. */
    method AddJob(db: SyncerDb, hostInfo: Host, j: Job, valid: bool) returns (ok: bool)
      modifies this`jobs, db`jobs
      ensures ok == (valid && j !in old(jobs) && j !in old(db.jobs))
      ensures ok ==> jobs == old(jobs) + {j} && db.jobs == old(db.jobs)[j := hostInfo]
      ensures !ok ==> jobs == old(jobs) && db.jobs == old(db.jobs)
    {
      if !valid || j in jobs {
        return false;
      }
      ok := db.AddJob(j, hostInfo);
      if ok {
        jobs := jobs + {j};
      }
    }

    /** The names not yet known, then one start each. */
    method Recover(names: seq<Job>)
      modifies this
      ensures jobs == old(jobs) + set j | j in names
      ensures adding == old(adding)
    {
      var missing: seq<Job> := [];
      for i := 0 to |names|
        invariant forall j :: j in missing <==> j in names[..i] && j !in jobs
      {
        if names[i] !in jobs {
          missing := missing + [names[i]];
        }
      }
      for i := 0 to |missing|
        invariant jobs == old(jobs) + set j | j in missing[..i]
        invariant adding == old(adding)
      {
        jobs := jobs + {missing[i]};
      }
    }
  }

  /** Adding a job is two steps of the protocol, and between them the job counts as the syncer's. */
  lemma AddJobIsTwoSteps(sys: System, h: Host, j: Job)
    requires Enabled(sys, InsertJob(h, j)) && j !in sys.nodes[h].adding
    ensures var between := M.Next(sys, InsertJob(h, j));
      && HasJob(between.nodes[h], j) && Enabled(between, RunJob(h, j))
      && M.Next(between, RunJob(h, j)) ==
           sys.(jobs := sys.jobs[j := h], nodes := sys.nodes[h := sys.nodes[h].(running := sys.nodes[h].running + {j})])
  {
    var between := M.Next(sys, InsertJob(h, j));
    assert between.nodes[h].adding - {j} == sys.nodes[h].adding;
  }

  lemma CommittedIsMove(sys: System, h: Host, lost: set<Host>, dead: seq<Host>, hosts: seq<Host>, order: seq<Job>,
                        s: seq<LoadInfo>, k: nat, t: seq<LoadInfo>, now: Stamp)
    requires now > sys.clock && Enumerates(dead, lost)
    requires Enumerates(order, sys.jobs.Keys) && Enumerates(hosts, sys.syncers.Keys - lost)
    requires Sorted(s) && Loads(s) && exists l :: IsLoadList(l, hosts, order, sys.jobs) && multiset(s) == multiset(l)
    requires var all := |Orphans(dead, order, sys.jobs)|;
      Outcome(s, all) == Ok((k, t)) && k <= |t| && Slices(t, k, all)
    ensures SlicesOk(t, Orphans(dead, order, sys.jobs), k)
    ensures ValidMoves(sys, lost, Moves(t, Orphans(dead, order, sys.jobs), k), Bumps(t, now, k), now + k)
    ensures (set i | 0 <= i < |dead| :: dead[i]) == lost
  {
    OutcomeCases(s, |Orphans(dead, order, sys.jobs)|, k, t);
    if k > 0 {
      LeveledShape(s, |Orphans(dead, order, sys.jobs)| + Sum(s, k), k);
    }
    assert Split(sys.jobs, dead, hosts, order, s, k, t);
    assert (set h | h in dead) == lost;
    DispatchIsValid(sys, dead, hosts, order, s, k, t, now);
  }

  lemma MoveIsStep(sys: System, h: Host, n: Node, moves: map<Job, Host>, bumps: map<Host, Stamp>,
                   latest: Stamp, replied: bool)
    requires sys.nodes == map[h := n] && n.state.Rebalance? && ValidMoves(sys, n.dead, moves, bumps, latest)
    ensures var e := MoveJobs(h, moves, bumps, latest, replied);
      && Enabled(sys, e)
      && M.Next(sys, e) == System((sys.syncers - n.dead) + bumps, sys.jobs + moves, latest,
                                  map[h := NextState(n, !replied)])
  {
  }

  class Checker {
    const hostInfo: Host
    const db: SyncerDb
    const manager: JobManager
    var lastStamp: Stamp
    var state: CheckerState
    var firstCheck: bool
    var deadSyncers: set<Host>
    var failed: bool
    var alive: bool

    constructor (h: Host, db: SyncerDb, jm: JobManager)
      ensures lastStamp == INVALID_STAMP && hostInfo == h && this.db == db && manager == jm && state == CheckerState.Finish && alive
    {
      hostInfo, this.db, manager := h, db, jm;
      lastStamp, state, firstCheck, deadSyncers, failed, alive := INVALID_STAMP, CheckerState.Finish, true, {}, false, true;
    }

    /** This process alone with the shared tables; steps of other processes happen between calls. */
    ghost function View(): System
      reads this, db, manager
    {
      System(db.syncers, db.jobs, db.clock,
             if alive then map[hostInfo := Node(lastStamp, state, firstCheck, deadSyncers, manager.jobs, manager.adding)]
             else map[])
    }

    method StartCheck()
      requires alive && (state.Finish? || state.Error?)
      modifies this
      ensures View() == M.Next(old(View()), M.StartCheck(hostInfo)) && !failed
      ensures state.Refresh? && firstCheck && deadSyncers == {} && lastStamp == old(lastStamp)
    {
      state, firstCheck, deadSyncers, failed := CheckerState.Refresh, true, {}, false;
    }

    method Advance()
      modifies this`state, this`firstCheck, this`failed
      ensures Node(lastStamp, state, firstCheck, deadSyncers, manager.jobs, manager.adding) ==
              NextState(old(Node(lastStamp, state, firstCheck, deadSyncers, manager.jobs, manager.adding)), old(failed))
      ensures failed == state.Error?
      ensures state == if old(failed) then CheckerState.Error
                       else match old(state)
                            case Refresh => if lastStamp == INVALID_STAMP then CheckerState.Update else if old(firstCheck) then CheckerState.Check else CheckerState.Finish
                            case Check => if deadSyncers != {} then CheckerState.Rebalance else CheckerState.Finish
                            case Starting(_) => CheckerState.Refresh
                            case Rebalance => CheckerState.Refresh
                            case _ => CheckerState.Error
      ensures firstCheck == if !old(failed) && old(state).Refresh? then false else old(firstCheck)
    {
      if failed {
        state := CheckerState.Error;
        return;
      }
      match state {
        case Refresh =>
          if lastStamp == INVALID_STAMP {
            state := CheckerState.Update;
          } else if firstCheck {
            state := CheckerState.Check;
          } else {
            state := CheckerState.Finish;
          }
          firstCheck := false;
        case Check =>
          if |deadSyncers| != 0 {
            state := CheckerState.Rebalance;
          } else {
            state := CheckerState.Finish;
          }
        case Starting(_) => state := CheckerState.Refresh;
        case Rebalance => state := CheckerState.Refresh;
        case _ =>
          failed := true;
          state := CheckerState.Error;
      }
    }

    method HandleRefresh(now: Stamp, replied: bool)
      requires !failed && Enabled(View(), DoRefresh(hostInfo, now, replied))
      modifies this, db
      ensures View() == M.Next(old(View()), DoRefresh(hostInfo, now, replied))
      ensures var swapped := hostInfo in old(db.syncers) && old(db.syncers)[hostInfo] == old(lastStamp);
        && db.syncers == (if swapped then old(db.syncers)[hostInfo := now] else old(db.syncers)) && db.jobs == old(db.jobs)
        && lastStamp == (if swapped && replied then now else INVALID_STAMP)
        && (state.Error? <==> !replied) && (replied && !swapped ==> state.Update?)
    {
      lastStamp := db.RefreshSyncer(hostInfo, lastStamp, now, replied);
      failed := !replied;
      Advance();
    }

    /** The first of the two reads of an update. */
    method HandleUpdateStamp(replied: bool)
      requires !failed && Enabled(View(), ReadStamp(hostInfo, replied))
      modifies this
      ensures View() == M.Next(old(View()), ReadStamp(hostInfo, replied))
      ensures if replied then state == CheckerState.ReadJobs(db.syncers[hostInfo]) && lastStamp == old(lastStamp)
              else state.Error? && lastStamp == INVALID_STAMP
    {
      if replied {
        state := CheckerState.ReadJobs(db.syncers[hostInfo]);
      } else {
        lastStamp := INVALID_STAMP;
        failed := true;
        Advance();
      }
    }

    /** The second read; other syncers may have moved jobs since the first. */
    method HandleUpdateJobs(order: seq<Job>, replied: bool)
      requires !failed && Enabled(View(), ReadJobList(hostInfo, replied)) && Enumerates(order, db.jobs.Keys)
      modifies this
      ensures View() == M.Next(old(View()), ReadJobList(hostInfo, replied))
      ensures if replied then lastStamp == old(state).stamp && state == CheckerState.Starting(set j | j in db.jobs && db.jobs[j] == hostInfo)
              else state.Error? && lastStamp == INVALID_STAMP
    {
      if replied {
        OwnedMembers(order, db.jobs, hostInfo);
        var names := Owned(order, db.jobs, hostInfo);
        assert (set j | j in names) == set j | j in db.jobs && db.jobs[j] == hostInfo;
        lastStamp := state.stamp;
        state := CheckerState.Starting(set j | j in names);
      } else {
        lastStamp := INVALID_STAMP;
        failed := true;
        Advance();
      }
    }

    method HandleUpdateRecover(names: seq<Job>)
      requires !failed && Enabled(View(), StartJobs(hostInfo)) && state.jobs == set j | j in names
      modifies this, manager
      ensures View() == M.Next(old(View()), StartJobs(hostInfo))
      ensures manager.jobs == old(manager.jobs) + old(state).jobs && state.Refresh? && lastStamp == old(lastStamp)
    {
      manager.Recover(names);
      Advance();
    }

    method HandleCheck(replied: bool)
      requires !failed && Enabled(View(), FindDead(hostInfo, replied))
      modifies this
      ensures View() == M.Next(old(View()), FindDead(hostInfo, replied))
      ensures forall h :: h in deadSyncers <==> replied && h in db.syncers && db.syncers[h] + 12_000_000_000 < lastStamp
    {
      if replied {
        deadSyncers := db.GetDeadSyncers(lastStamp - CHECK_TIMEOUT);
        assert deadSyncers == DeadSyncers(db.syncers, lastStamp - CHECK_TIMEOUT);
      } else {
        deadSyncers, failed := {}, true;
      }
      Advance();
    }

    method Transact(dead: seq<Host>, hosts: seq<Host>, order: seq<Job>, now: Stamp)
      returns (r: Result<nat, RebalanceError>, ghost moves: map<Job, Host>, ghost bumps: map<Host, Stamp>, ghost latest: Stamp)
      requires now > db.clock && Enumerates(dead, deadSyncers) && Enumerates(order, db.jobs.Keys)
      requires Enumerates(hosts, db.syncers.Keys - deadSyncers)
      modifies db
      ensures r.Ok? ==> ValidMoves(old(View()), deadSyncers, moves, bumps, latest)
      ensures r.Ok? ==> db.syncers == (old(db.syncers) - deadSyncers) + bumps
      ensures r.Ok? ==> db.jobs == old(db.jobs) + moves && db.clock == latest
      ensures r.Err? ==> db.syncers == old(db.syncers) && db.jobs == old(db.jobs) && db.clock == old(db.clock)
    {
      ghost var before := View();
      ghost var orphans, s, t;
      r, orphans, s, t := db.RebalanceLoadFromDeadSyncers(dead, hosts, order, now);
      moves, bumps, latest := map[], map[], now;
      if r.Ok? {
        CommittedIsMove(before, hostInfo, deadSyncers, dead, hosts, order, s, r.value, t, now);
        moves, bumps, latest := Moves(t, orphans, r.value), Bumps(t, now, r.value), now + r.value;
      }
    }

    /** Whatever the transaction does with the stored tables is a move the protocol allows.  A slice
        that cannot be cut ends the process. */
    method HandleRebalance(dead: seq<Host>, hosts: seq<Host>, order: seq<Job>, now: Stamp, replied: bool)
      returns (ghost e: Event)
      requires alive && !failed && state.Rebalance? && now > db.clock
      requires Enumerates(dead, deadSyncers) && Enumerates(order, db.jobs.Keys)
      requires Enumerates(hosts, db.syncers.Keys - deadSyncers)
      modifies this, db
      ensures Enabled(old(View()), e) && View() == M.Next(old(View()), e)
      ensures e == MoveFailed(hostInfo) || e == Die(hostInfo) || (e.MoveJobs? && e.h == hostInfo && e.replied == replied)
      ensures alive <==> !e.Die?
      ensures e.MoveFailed? || (e.MoveJobs? && !replied) ==> state.Error?
      ensures e.MoveJobs? && replied ==> state.Refresh?
      ensures !e.MoveJobs? ==> db.syncers == old(db.syncers) && db.jobs == old(db.jobs)
    {
      ghost var before := View();
      ghost var n := before.nodes[hostInfo];
      var r;
      ghost var moves, bumps, latest;
      r, moves, bumps, latest := Transact(dead, hosts, order, now);
      if r == Err(SliceOutOfRange) {
        alive := false;
        e := Die(hostInfo);
        return;
      }
      failed := r.Err? || !replied;
      if r.Ok? {
        e := MoveJobs(hostInfo, moves, bumps, latest, replied);
        MoveIsStep(before, hostInfo, n, moves, bumps, latest, replied);
      } else {
        e := MoveFailed(hostInfo);
      }
      Advance();
    }
  }
}
