/** Permits that bound concurrent backups and restores per cluster, shared by all jobs of a syncer. */
module Limiter {
  type Permits = map<string, int>

  function Held(permits: Permits, key: string): int { if key in permits then permits[key] else 0 }

  function Taken(permits: Permits, key: string, limit: int): (bool, Permits) {
    if key == "" || limit <= 0 then (true, permits)
    else if Held(permits, key) >= limit then (false, permits)
    else (true, permits[key := Held(permits, key) + 1])
  }

  function Observed(permits: Permits, key: string): Permits {
    if key == "" then permits else permits[key := Held(permits, key) + 1]
  }

  function Released(permits: Permits, key: string): Permits {
    if key == "" || key !in permits || permits[key] <= 0 then permits
    else if permits[key] == 1 then permits - {key}
    else permits[key := permits[key] - 1]
  }

  class BackupRestoreLimiter {
    var permits: Permits

    constructor ()
      ensures permits == map[]
    {
      permits := map[];
    }

    method TryAcquire(key: string, limit: int) returns (ok: bool)
      modifies this
      ensures (ok, permits) == Taken(old(permits), key, limit)
      ensures var held := if key in old(permits) then old(permits)[key] else 0;
        && (ok <==> key == "" || limit <= 0 || held < limit)
        && permits == if ok && key != "" && limit > 0 then old(permits)[key := held + 1] else old(permits)
    {
      if key == "" || limit <= 0 {
        return true;
      }
      var inflight := if key in permits then permits[key] else 0;
      if inflight >= limit {
        return false;
      }
      permits := permits[key := inflight + 1];
      return true;
    }

    method Observe(key: string)
      modifies this
      ensures permits == Observed(old(permits), key)
      ensures permits == if key == "" then old(permits) else old(permits)[key := (if key in old(permits) then old(permits)[key] else 0) + 1]
    {
      if key == "" {
        return;
      }
      var inflight := if key in permits then permits[key] else 0;
      permits := permits[key := inflight + 1];
    }

    method Release(key: string)
      modifies this
      ensures permits == Released(old(permits), key)
      ensures forall k :: k != key ==> (k in permits <==> k in old(permits)) && (k in permits ==> permits[k] == old(permits)[k])
      ensures key != "" && key in old(permits) && old(permits)[key] > 0 ==>
        if old(permits)[key] == 1 then key !in permits else key in permits && permits[key] == old(permits)[key] - 1
      ensures key == "" || key !in old(permits) || old(permits)[key] <= 0 ==> permits == old(permits)
    {
      if key == "" {
        return;
      }
      if key !in permits || permits[key] <= 0 {
        return;
      }
      var inflight := permits[key] - 1;
      if inflight == 0 {
        permits := permits - {key};
      } else {
        permits := permits[key := inflight];
      }
    }
  }

  // ----- All jobs together -----

  type Job = int

  /** The limiter and the permit key each job has noted for itself.  Between two calls of the limiter
      a job only touches its own note, so one event is one call with the note that goes with it. */
  datatype State = State(permits: Permits, keys: map<Job, string>)

  datatype Event = Try(j: Job, key: string) | Observe(j: Job, key: string) | Release(j: Job) | NewJob(j: Job)

  function Next(limit: int, s: State, e: Event): State
    requires Enabled(s, e)
  {
    match e
    case Try(j, key) =>
      var (ok, permits) := Taken(s.permits, key, limit);
      if ok then State(permits, s.keys[j := key]) else s
    case Observe(j, key) => State(Observed(s.permits, key), s.keys[j := key])
    case Release(j) => State(Released(s.permits, s.keys[j]), s.keys[j := ""])
    case NewJob(j) => s.(keys := s.keys[j := ""])
  }

  /** A job gives its permit back before it asks for another. */
  predicate Enabled(s: State, e: Event) {
    match e
    case Try(j, key) => j in s.keys && s.keys[j] == "" && key != ""
    case Observe(j, _) => j in s.keys && s.keys[j] == ""
    case Release(j) => j in s.keys
    case NewJob(j) => j !in s.keys
  }

  predicate CanRun(limit: int, s: State, es: seq<Event>)
    decreases |es|
  {
    es == [] || (Enabled(s, es[0]) && CanRun(limit, Next(limit, s, es[0]), es[1..]))
  }

  function Run(limit: int, s: State, es: seq<Event>): State
    requires CanRun(limit, s, es)
    decreases |es|
  {
    if es == [] then s else Run(limit, Next(limit, s, es[0]), es[1..])
  }

  ghost function Holders(keys: map<Job, string>, key: string): set<Job> {
    set j | j in keys && keys[j] == key
  }

  /** The stored count of a key is the number of jobs that noted it, and no zero is stored. */
  ghost predicate Counted(s: State) {
    && (forall key :: key != "" ==> Held(s.permits, key) == |Holders(s.keys, key)|)
    && (forall key :: key in s.permits ==> key != "" && s.permits[key] > 0)
  }

  lemma NoteChanges(keys: map<Job, string>, j: Job, key: string, k: string)
    ensures Holders(keys[j := key], k) == if k == key then Holders(keys, k) + {j} else Holders(keys, k) - {j}
    ensures |Holders(keys[j := key], k)| == |Holders(keys, k)| +
            (if k == key && j !in Holders(keys, k) then 1 else if k != key && j in Holders(keys, k) then -1 else 0)
  {
    var h, h' := Holders(keys, k), Holders(keys[j := key], k);
    if k == key {
      assert h' == h + {j};
    } else {
      assert h' == h - {j};
    }
  }

  lemma GrantCounts(s: State, j: Job, key: string)
    requires Counted(s) && j in s.keys && s.keys[j] == "" && key != ""
    ensures Counted(State(s.permits[key := Held(s.permits, key) + 1], s.keys[j := key]))
  {
    var s' := State(s.permits[key := Held(s.permits, key) + 1], s.keys[j := key]);
    forall k | k != "" ensures Held(s'.permits, k) == |Holders(s'.keys, k)| {
      NoteChanges(s.keys, j, key, k);
    }
  }

  lemma NoteNothing(s: State, j: Job)
    requires Counted(s) && (j in s.keys ==> s.keys[j] == "")
    ensures Counted(s.(keys := s.keys[j := ""]))
  {
    forall k | k != "" ensures Held(s.permits, k) == |Holders(s.keys[j := ""], k)| {
      NoteChanges(s.keys, j, "", k);
    }
  }

  lemma DropCounts(s: State, j: Job)
    requires Counted(s) && j in s.keys && s.keys[j] != ""
    ensures Counted(State(Released(s.permits, s.keys[j]), s.keys[j := ""]))
  {
    assert j in Holders(s.keys, s.keys[j]);
    assert Held(s.permits, s.keys[j]) == |Holders(s.keys, s.keys[j])|;
    forall k | k != "" ensures Held(Released(s.permits, s.keys[j]), k) == |Holders(s.keys[j := ""], k)| {
      NoteChanges(s.keys, j, "", k);
    }
  }

  lemma StepCounts(limit: int, s: State, e: Event)
    requires limit > 0 && Counted(s) && Enabled(s, e)
    ensures Counted(Next(limit, s, e))
  {
    match e
    case Try(j, key) => GrantCounts(s, j, key);
    case Observe(j, key) => if key == "" { NoteNothing(s, j); } else { GrantCounts(s, j, key); }
    case Release(j) => if s.keys[j] == "" { NoteNothing(s, j); } else { DropCounts(s, j); }
    case NewJob(j) => NoteNothing(s, j);
  }

  ghost predicate Within(limit: int, s: State) {
    forall key :: key != "" ==> |Holders(s.keys, key)| <= limit
  }

  lemma StepWithin(limit: int, s: State, e: Event)
    requires limit > 0 && Counted(s) && Within(limit, s) && Enabled(s, e) && !e.Observe?
    ensures Within(limit, Next(limit, s, e))
  {
    var s' := Next(limit, s, e);
    forall k | k != "" ensures |Holders(s'.keys, k)| <= limit {
      if s'.keys != s.keys {
        NoteChanges(s.keys, e.j, s'.keys[e.j], k);
      }
    }
  }

  lemma {:induction false} RunCounts(limit: int, s: State, es: seq<Event>)
    requires limit > 0 && Counted(s) && CanRun(limit, s, es)
    ensures Counted(Run(limit, s, es))
    ensures Within(limit, s) && (forall e :: e in es ==> !e.Observe?) ==> Within(limit, Run(limit, s, es))
    decreases |es|
  {
    if es != [] {
      StepCounts(limit, s, es[0]);
      if Within(limit, s) && forall e :: e in es ==> !e.Observe? {
        StepWithin(limit, s, es[0]);
      }
      RunCounts(limit, Next(limit, s, es[0]), es[1..]);
    }
  }

  const Nobody: State := State(map[], map[])

  /** Over all interleavings of any number of jobs the stored counts are exact; a permit asked for is
      granted exactly while fewer than the limit hold one, and then to the job that asked, all others
      keeping theirs. */
  lemma {:induction false} PermitsAreExact(limit: int, es: seq<Event>)
    requires limit > 0 && CanRun(limit, Nobody, es)
    ensures var s := Run(limit, Nobody, es);
      && (forall key :: key != "" ==> Held(s.permits, key) == |Holders(s.keys, key)|)
      && (forall key :: key in s.permits ==> key != "" && s.permits[key] > 0)
      && (forall j, key :: Enabled(s, Try(j, key)) ==>
            Next(limit, s, Try(j, key)).keys == if |Holders(s.keys, key)| < limit then s.keys[j := key] else s.keys)
      && (forall j, key :: Enabled(s, Observe(j, key)) ==> Next(limit, s, Observe(j, key)).keys == s.keys[j := key])
      && (forall j :: Enabled(s, Release(j)) ==> Next(limit, s, Release(j)).keys == s.keys[j := ""])
      && ((forall e :: e in es ==> !e.Observe?) ==> Within(limit, s))
  {
    assert forall key :: Holders(Nobody.keys, key) == {};
    RunCounts(limit, Nobody, es);
    var s := Run(limit, Nobody, es);
    forall j, key | Enabled(s, Try(j, key))
      ensures Next(limit, s, Try(j, key)).keys == if |Holders(s.keys, key)| < limit then s.keys[j := key] else s.keys
    {
      assert Held(s.permits, key) == |Holders(s.keys, key)|;
    }
  }
}

/** A job's side of the permits, as called from its full sync. */
module PermitJobs {
  import opened Progress
  import opened Limiter
  import L = Limiter

  lemma RunOne(limit: int, s: State, e: Event)
    requires Enabled(s, e)
    ensures CanRun(limit, s, [e]) && Run(limit, s, [e]) == L.Next(limit, s, e)
  {
    assert Run(limit, L.Next(limit, s, e), [e][1..]) == L.Next(limit, s, e);
  }

  lemma RunTwo(limit: int, s: State, e: Event, f: Event)
    requires Enabled(s, e) && Enabled(L.Next(limit, s, e), f)
    ensures CanRun(limit, s, [e] + [f]) && Run(limit, s, [e] + [f]) == L.Next(limit, L.Next(limit, s, e), f)
  {
    RunOne(limit, L.Next(limit, s, e), f);
    assert ([e] + [f])[1..] == [f];
  }

  class PermitJob {
    const id: Job
    const limiter: BackupRestoreLimiter
    const limit: int
    var syncPermitKey: string

    constructor (id: Job, limiter: BackupRestoreLimiter, limit: int)
      ensures this.id == id && this.limiter == limiter && this.limit == limit && syncPermitKey == ""
    {
      this.id, this.limiter, this.limit, syncPermitKey := id, limiter, limit, "";
    }

    /** This job among the others, whose notes are `others`. */
    ghost function View(others: map<Job, string>): State
      reads this, limiter
    {
      State(limiter.permits, others[id := syncPermitKey])
    }

    /** The calls the method makes, as events; other jobs may come between the two. */
    method TryAcquirePermit(key: string, ghost others: map<Job, string>) returns (ok: bool, ghost es: seq<Event>)
      modifies this, limiter
      ensures CanRun(limit, old(View(others)), es) && View(others) == Run(limit, old(View(others)), es)
      ensures ok && limit > 0 && key != "" ==> syncPermitKey == key
      ensures !ok ==> limit > 0 && syncPermitKey == ""
      ensures limit <= 0 ==> limiter.permits == old(limiter.permits) && syncPermitKey == old(syncPermitKey)
    {
      if limit <= 0 || key == "" || syncPermitKey == key {
        return true, [];
      }
      ghost var before := View(others);
      es := [Try(id, key)];
      if syncPermitKey != "" {
        limiter.Release(syncPermitKey);
        syncPermitKey := "";
        es := [Event.Release(id)] + es;
      }
      ghost var between := View(others);
      ok := limiter.TryAcquire(key, limit);
      if ok {
        syncPermitKey := key;
      }
      RunOne(limit, between, Try(id, key));
      assert View(others).keys == L.Next(limit, between, Try(id, key)).keys;
      if |es| == 2 {
        assert between.keys == L.Next(limit, before, Event.Release(id)).keys;
        RunTwo(limit, before, Event.Release(id), Try(id, key));
      }
    }

    method ObservePermit(key: string, ghost others: map<Job, string>) returns (ghost es: seq<Event>)
      modifies this, limiter
      ensures CanRun(limit, old(View(others)), es) && View(others) == Run(limit, old(View(others)), es)
      ensures limit > 0 ==> syncPermitKey == key
      ensures limit <= 0 ==> limiter.permits == old(limiter.permits) && syncPermitKey == old(syncPermitKey)
    {
      es := [];
      if limit <= 0 || syncPermitKey == key {
        return;
      }
      ghost var before := View(others);
      es := [Event.Observe(id, key)];
      if syncPermitKey != "" {
        limiter.Release(syncPermitKey);
        es := [Event.Release(id)] + es;
      }
      ghost var between := State(limiter.permits, others[id := ""]);
      limiter.Observe(key);
      syncPermitKey := key;
      RunOne(limit, between, Event.Observe(id, key));
      assert View(others).keys == L.Next(limit, between, Event.Observe(id, key)).keys;
      if |es| == 2 {
        assert between.keys == L.Next(limit, before, Event.Release(id)).keys;
        RunTwo(limit, before, Event.Release(id), Event.Observe(id, key));
      }
    }

    method ReleasePermit(ghost others: map<Job, string>) returns (ghost es: seq<Event>)
      modifies this, limiter
      ensures CanRun(limit, old(View(others)), es) && View(others) == Run(limit, old(View(others)), es)
      ensures syncPermitKey == ""
    {
      es := [];
      if syncPermitKey == "" {
        return;
      }
      es := [Event.Release(id)];
      limiter.Release(syncPermitKey);
      syncPermitKey := "";
    }

    /** The head of a full sync: without the permit of the step, the step is not taken.  Without a
        limit every step is taken, and a permit still noted is only given back. */
    method FullSyncGate(sub: SubState, backupKey: string, restoreKey: string, ghost others: map<Job, string>)
      returns (proceed: bool, ghost es: seq<Event>)
      modifies this, limiter
      ensures CanRun(limit, old(View(others)), es) && View(others) == Run(limit, old(View(others)), es)
      ensures proceed && limit > 0 && backupKey != "" && restoreKey != "" ==>
        syncPermitKey == if sub == BeginCreateSnapshot || sub == WaitBackupDone then backupKey
                         else if sub == RestoreSnapshot || sub == WaitRestoreDone then restoreKey
                         else ""
      ensures !proceed ==> limit > 0 && syncPermitKey == "" && (sub.BeginCreateSnapshot? || sub.RestoreSnapshot?)
      ensures limit <= 0 ==> proceed
      ensures limit <= 0 && sub in {BeginCreateSnapshot, WaitBackupDone, RestoreSnapshot, WaitRestoreDone} ==>
        limiter.permits == old(limiter.permits) && syncPermitKey == old(syncPermitKey)
      ensures limit <= 0 && sub !in {BeginCreateSnapshot, WaitBackupDone, RestoreSnapshot, WaitRestoreDone} ==> syncPermitKey == ""
    {
      proceed := true;
      if sub == BeginCreateSnapshot {
        proceed, es := TryAcquirePermit(backupKey, others);
      } else if sub == WaitBackupDone {
        es := ObservePermit(backupKey, others);
      } else if sub == RestoreSnapshot {
        proceed, es := TryAcquirePermit(restoreKey, others);
      } else if sub == WaitRestoreDone {
        es := ObservePermit(restoreKey, others);
      } else {
        es := ReleasePermit(others);
      }
    }
  }
}
