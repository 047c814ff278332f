/** The two tables syncers share, with the transactions the checker runs on them.  The order in
    which a query returns its rows is a parameter. */
module SyncerStore {
  import opened Wrappers
  import opened Membership
  import opened Rebalance

  function Owned(order: seq<Job>, jobs: map<Job, Host>, h: Host): seq<Job> {
    if order == [] then []
    else Owned(order[..|order| - 1], jobs, h) +
         (var j := order[|order| - 1]; if j in jobs && jobs[j] == h then [j] else [])
  }

  ghost function OwnedSet(jobs: map<Job, Host>, h: Host): set<Job> {
    set j | j in jobs && jobs[j] == h
  }

  ghost predicate Distinct<T>(s: seq<T>) { forall i, j :: 0 <= i < j < |s| ==> s[i] != s[j] }

  lemma DistinctAppend<T>(a: seq<T>, b: seq<T>)
    requires Distinct(a) && Distinct(b) && forall x :: x in a ==> x !in b
    ensures Distinct(a + b)
  {
    forall i, j | 0 <= i < j < |a + b| ensures (a + b)[i] != (a + b)[j] {
      if i < |a| <= j {
        assert a[i] in a && b[j - |a|] in b;
      }
    }
  }

  lemma {:induction false} OwnedMembers(order: seq<Job>, jobs: map<Job, Host>, h: Host)
    ensures forall j :: j in Owned(order, jobs, h) <==> j in order && j in jobs && jobs[j] == h
    ensures Distinct(order) ==> Distinct(Owned(order, jobs, h))
  {
    if order != [] {
      var before := order[..|order| - 1];
      assert order == before + [order[|order| - 1]];
      OwnedMembers(before, jobs, h);
    }
  }

  function Orphans(dead: seq<Host>, order: seq<Job>, jobs: map<Job, Host>): seq<Job> {
    if dead == [] then []
    else Orphans(dead[..|dead| - 1], order, jobs) + Owned(order, jobs, dead[|dead| - 1])
  }

  /** Every job of a dead syncer is collected once. */
  lemma {:induction false} OrphanMembers(dead: seq<Host>, order: seq<Job>, jobs: map<Job, Host>)
    ensures forall j :: j in Orphans(dead, order, jobs) <==> j in order && j in jobs && jobs[j] in dead
    ensures Distinct(order) && Distinct(dead) ==> Distinct(Orphans(dead, order, jobs))
  {
    if dead != [] {
      var before, d := dead[..|dead| - 1], dead[|dead| - 1];
      assert dead == before + [d];
      OrphanMembers(before, order, jobs);
      OwnedMembers(order, jobs, d);
      if Distinct(order) && Distinct(dead) {
        assert Distinct(before) && d !in before by {
          forall i | 0 <= i < |before| ensures before[i] != d {
            assert dead[i] != dead[|dead| - 1];
          }
        }
        DistinctAppend(Orphans(before, order, jobs), Owned(order, jobs, d));
      }
    }
  }

  /** One entry per live syncer, counting the jobs it owns. */
  ghost predicate IsLoadList(s: seq<LoadInfo>, hosts: seq<Host>, order: seq<Job>, jobs: map<Job, Host>) {
    |s| == |hosts| && forall i :: 0 <= i < |s| ==> s[i] == LoadInfo(|Owned(order, jobs, hosts[i])|, 0, hosts[i])
  }

  /** Jobs left after the first `i` slices were cut off the end. */
  function Upper(t: seq<LoadInfo>, all: int, i: nat): int
    requires i <= |t|
  {
    if i == 0 then all else Upper(t, all, i - 1) - t[i - 1].added
  }

  predicate SliceFits(t: seq<LoadInfo>, all: int, i: nat) {
    i < |t| && 0 <= Upper(t, all, i + 1) <= Upper(t, all, i)
  }

  ghost predicate Slices(t: seq<LoadInfo>, k: nat, all: int) {
    forall i :: 0 <= i < k ==> SliceFits(t, all, i)
  }

  lemma {:induction false} UpperIsSum(s: seq<LoadInfo>, t: seq<LoadInfo>, all: int, i: nat)
    requires i <= |t| == |s|
    requires forall j :: 0 <= j < i ==> s[j].added == 0 && t[j].now == s[j].now
    ensures Upper(t, all, i) == all - (Sum(t, i) - Sum(s, i))
  {
    if i > 0 {
      UpperIsSum(s, t, all, i - 1);
    }
  }

  lemma {:induction false} UpperFalls(t: seq<LoadInfo>, all: int, i: nat, k: nat)
    requires i <= k <= |t| && forall j :: 0 <= j < k ==> t[j].added >= 0
    ensures Upper(t, all, k) <= Upper(t, all, i)
    decreases k
  {
    if i < k {
      UpperFalls(t, all, i, k - 1);
    }
  }

  lemma UpperAtEnd(s: seq<LoadInfo>, all: int, k: nat, t: seq<LoadInfo>)
    requires all >= 0 && Loads(s) && Outcome(s, all) == Ok((k, t)) && forall j :: 0 <= j < |s| ==> s[j].added == 0
    ensures |t| == |s| && k <= |s| && (k > 0 ==> Upper(t, all, k) == 0)
  {
    RebalanceConserves(s, all, k, t);
    OutcomeCases(s, all, k, t);
    if k > 0 {
      LeveledShape(s, all + Sum(s, k), k);
      UpperIsSum(s, t, all, k);
    }
  }

  /** The slices can all be cut exactly when nobody is asked to give jobs away. */
  lemma {:induction false} SlicesExactly(s: seq<LoadInfo>, all: int, k: nat, t: seq<LoadInfo>)
    requires all >= 0 && Loads(s) && Outcome(s, all) == Ok((k, t)) && forall j :: 0 <= j < |s| ==> s[j].added == 0
    ensures |t| == |s| && k <= |s|
    ensures Slices(t, k, all) <==> forall i :: 0 <= i < k ==> t[i].added >= 0
  {
    UpperAtEnd(s, all, k, t);
    if forall i :: 0 <= i < k ==> t[i].added >= 0 {
      forall i | 0 <= i < k ensures SliceFits(t, all, i) {
        UpperFalls(t, all, i + 1, k);
      }
    }
    if Slices(t, k, all) {
      forall i | 0 <= i < k ensures t[i].added >= 0 {
        assert SliceFits(t, all, i);
      }
    }
  }

  function Assign(slice: seq<Job>, h: Host): map<Job, Host> { map j | j in slice :: h }

  /** The reassignments of the first `n` slices, cut off the end of the orphan list. */
  function Moves(t: seq<LoadInfo>, orphans: seq<Job>, n: nat): map<Job, Host>
    requires n <= |t| && forall i :: 0 <= i < n ==> SliceFits(t, |orphans|, i)
  {
    if n == 0 then map[]
    else
      assert SliceFits(t, |orphans|, n - 1);
      UpperOrder(t, |orphans|, 0, n - 1);
      Moves(t, orphans, n - 1) +
      Assign(orphans[Upper(t, |orphans|, n)..Upper(t, |orphans|, n - 1)], t[n - 1].host)
  }

  /** The stamps given to the receivers. */
  function Bumps(t: seq<LoadInfo>, now: Stamp, n: nat): (r: map<Host, Stamp>)
    requires n <= |t|
    ensures forall h :: h in r <==> exists i :: 0 <= i < n && t[i].host == h
    ensures forall h :: h in r ==> now <= r[h] < now + n
  {
    if n == 0 then map[] else Bumps(t, now, n - 1)[t[n - 1].host := now + n - 1]
  }

  lemma {:induction false} UpperOrder(t: seq<LoadInfo>, all: int, i: nat, k: nat)
    requires i <= k <= |t| && forall x :: 0 <= x < k ==> SliceFits(t, all, x)
    ensures Upper(t, all, k) <= Upper(t, all, i)
    decreases k
  {
    if i < k {
      assert SliceFits(t, all, k - 1);
      UpperOrder(t, all, i, k - 1);
    }
  }

  lemma PlusAssociates<K, V>(a: map<K, V>, b: map<K, V>, c: map<K, V>)
    ensures (a + b) + c == a + (b + c)
  {
  }

  lemma OneMore(owner: map<Job, Host>, left: map<Host, Stamp>, t: seq<LoadInfo>, orphans: seq<Job>, now: Stamp, i: nat)
    requires i < |t| && forall x :: 0 <= x <= i ==> SliceFits(t, |orphans|, x)
    ensures 0 <= Upper(t, |orphans|, i + 1) <= Upper(t, |orphans|, i) <= |orphans|
    ensures owner + Moves(t, orphans, i + 1) == owner + Moves(t, orphans, i) +
            Assign(orphans[Upper(t, |orphans|, i + 1)..Upper(t, |orphans|, i)], t[i].host)
    ensures left + Bumps(t, now, i + 1) == (left + Bumps(t, now, i))[t[i].host := now + i]
  {
    assert SliceFits(t, |orphans|, i);
    UpperOrder(t, |orphans|, 0, i);
    PlusAssociates(owner, Moves(t, orphans, i),
                   Assign(orphans[Upper(t, |orphans|, i + 1)..Upper(t, |orphans|, i)], t[i].host));
  }

  datatype RebalanceError = NoAvailableSyncer | SliceOutOfRange

  class SyncerDb {
    var syncers: map<Host, Stamp>
    var jobs: map<Job, Host>
    ghost var clock: Stamp

    constructor ()
      ensures syncers == map[] && jobs == map[] && clock == 0
    {
      syncers, jobs, clock := map[], map[], 0;
    }

    method AddSyncer(h: Host, now: Stamp)
      modifies this
      ensures syncers == old(syncers)[h := now] && jobs == old(jobs) && clock == now
    {
      syncers := syncers[h := now];
      clock := now;
    }

    /** The name is the key of the job table. */
    method AddJob(j: Job, h: Host) returns (ok: bool)
      modifies this`jobs
      ensures ok == (j !in old(jobs)) && jobs == if ok then old(jobs)[j := h] else old(jobs)
    {
      ok := j !in jobs;
      if ok {
        jobs := jobs[j := h];
      }
    }

    /** Compare and swap; -1 when the stored stamp is not `lastStamp`. */
    method RefreshSyncer(h: Host, lastStamp: Stamp, now: Stamp, replied: bool) returns (r: Stamp)
      modifies this
      ensures jobs == old(jobs)
      ensures var swapped := h in old(syncers) && old(syncers)[h] == lastStamp;
        && syncers == (if swapped then old(syncers)[h := now] else old(syncers))
        && clock == (if swapped then now else old(clock))
        && r == (if replied && swapped then now else INVALID_STAMP)
    {
      r := INVALID_STAMP;
      if h in syncers && syncers[h] == lastStamp {
        syncers := syncers[h := now];
        clock := now;
        if replied {
          r := now;
        }
      }
    }

    method GetDeadSyncers(expired: Stamp) returns (dead: set<Host>)
      ensures forall h :: h in dead <==> h in syncers && syncers[h] < expired
    {
      dead := set h | h in syncers && syncers[h] < expired;
    }

    method GetOrphanJobs(dead: seq<Host>, order: seq<Job>) returns (orphans: seq<Job>, left: map<Host, Stamp>)
      ensures orphans == Orphans(dead, order, jobs)
      ensures left == syncers - (set i | 0 <= i < |dead| :: dead[i])
    {
      orphans, left := [], syncers;
      for i := 0 to |dead|
        invariant orphans == Orphans(dead[..i], order, jobs)
        invariant forall h :: h in left <==> h in syncers && h !in dead[..i]
        invariant forall h :: h in left ==> left[h] == syncers[h]
      {
        assert dead[..i + 1][..i] == dead[..i];
        orphans := orphans + Owned(order, jobs, dead[i]);
        left := left - {dead[i]};
      }
      assert dead[..|dead|] == dead;
    }

    method GetLoadInfo(hosts: seq<Host>, order: seq<Job>) returns (load: seq<LoadInfo>, sumLoad: int)
      ensures IsLoadList(load, hosts, order, jobs)
      ensures sumLoad == Sum(load, |load|)
    {
      load, sumLoad := [], 0;
      for i := 0 to |hosts|
        invariant IsLoadList(load, hosts[..i], order, jobs)
        invariant sumLoad == Sum(load, |load|)
      {
        var info := LoadInfo(|Owned(order, jobs, hosts[i])|, 0, hosts[i]);
        SumFrame(load, load + [info], |load|);
        load := load + [info];
        sumLoad := sumLoad + info.now;
      }
    }

    method DispatchJobs(owner: map<Job, Host>, h: Host, slice: seq<Job>) returns (r: map<Job, Host>)
      ensures r == owner + Assign(slice, h)
    {
      r := owner;
      for q := 0 to |slice|
        invariant r == owner + Assign(slice[..q], h)
      {
        assert slice[..q + 1] == slice[..q] + [slice[q]];
        r := r[slice[q] := h];
      }
      assert slice[..|slice|] == slice;
    }

    /** The loop over the levelled list; `false` when a slice cannot be cut. */
    method DispatchAll(owner: map<Job, Host>, left: map<Host, Stamp>, orphans: seq<Job>, t: seq<LoadInfo>, k: nat, now: Stamp)
      returns (ok: bool, owner': map<Job, Host>, left': map<Host, Stamp>)
      requires k <= |t|
      ensures ok == Slices(t, k, |orphans|)
      ensures ok ==> owner' == owner + Moves(t, orphans, k) && left' == left + Bumps(t, now, k)
    {
      ok, owner', left' := true, owner, left;
      var additionalLoad := |orphans|;
      for i := 0 to k
        invariant additionalLoad == Upper(t, |orphans|, i) && 0 <= additionalLoad <= |orphans|
        invariant ok && forall x :: 0 <= x < i ==> SliceFits(t, |orphans|, x)
        invariant owner' == owner + Moves(t, orphans, i) && left' == left + Bumps(t, now, i)
      {
        var beginIdx := additionalLoad - t[i].added;
        if !(0 <= beginIdx <= additionalLoad) {
          assert !SliceFits(t, |orphans|, i);
          ok := false;
          return;
        }
        var slice := orphans[beginIdx..additionalLoad];
        assert SliceFits(t, |orphans|, i);
        OneMore(owner, left, t, orphans, now, i);
        owner' := DispatchJobs(owner', t[i].host, slice);
        left' := left'[t[i].host := now + i];
        additionalLoad := beginIdx;
      }
    }

    /** The three queries and the split in memory; nothing is written yet. */
    method Plan(dead: seq<Host>, hosts: seq<Host>, order: seq<Job>)
      returns (k: Result<nat, string>, orphans: seq<Job>, left: map<Host, Stamp>, list: seq<LoadInfo>, ghost s: seq<LoadInfo>)
      ensures orphans == Orphans(dead, order, jobs) && left == syncers - (set i | 0 <= i < |dead| :: dead[i])
      ensures Sorted(s) && Loads(s) && exists l :: IsLoadList(l, hosts, order, jobs) && multiset(s) == multiset(l)
      ensures k.Err? <==> Outcome(s, |orphans|).Err?
      ensures k.Ok? ==> Outcome(s, |orphans|) == Ok((k.value, list)) && k.value <= |list|
    {
      orphans, left := GetOrphanJobs(dead, order);
      var load, currentLoad := GetLoadInfo(hosts, order);
      var a := new LoadInfo[|load|](i requires 0 <= i < |load| => load[i]);
      assert a[..] == load;
      k, s := RebalanceLoad(|orphans|, currentLoad, a);
      list := a[..];
      LoadsPermute(load, s);
      if k.Ok? {
        OutcomeCases(s, |orphans|, k.value, list);
        LeveledLength(s, |orphans|, k.value, list);
      }
    }

    /** One transaction: all or nothing.  A slice that cannot be cut panics in the source, and the
        transaction is never committed. */
    method RebalanceLoadFromDeadSyncers(dead: seq<Host>, hosts: seq<Host>, order: seq<Job>, now: Stamp)
      returns (r: Result<nat, RebalanceError>, ghost orphans: seq<Job>, ghost s: seq<LoadInfo>, ghost t: seq<LoadInfo>)
      requires now > clock
      modifies this
      ensures orphans == Orphans(dead, order, old(jobs))
      ensures Sorted(s) && Loads(s) && exists l :: IsLoadList(l, hosts, order, old(jobs)) && multiset(s) == multiset(l)
      ensures var o := Outcome(s, |orphans|);
        r.Ok? <==> o.Ok? && o.value.0 <= |o.value.1| && Slices(o.value.1, o.value.0, |orphans|)
      ensures r.Err? ==> syncers == old(syncers) && jobs == old(jobs) && clock == old(clock)
      ensures r.Ok? ==> Outcome(s, |orphans|) == Ok((r.value, t))
      ensures r.Ok? ==> jobs == old(jobs) + Moves(t, orphans, r.value)
      ensures r.Ok? ==> syncers == (old(syncers) - (set i | 0 <= i < |dead| :: dead[i])) + Bumps(t, now, r.value)
      ensures r.Ok? ==> clock == now + r.value
    {
      var k, lost, left, list;
      k, lost, left, list, s := Plan(dead, hosts, order);
      orphans, t := lost, list;
      if k.Err? {
        r := Err(NoAvailableSyncer);
        return;
      }
      var ok, owner, stamps := DispatchAll(jobs, left, lost, list, k.value, now);
      if !ok {
        r := Err(SliceOutOfRange);
        return;
      }
      syncers, jobs, clock := stamps, owner, now + k.value;
      r := Ok(k.value);
    }
  }

  lemma LeveledLength(s: seq<LoadInfo>, all: int, k: nat, t: seq<LoadInfo>)
    requires all >= 0 && Loads(s) && Outcome(s, all) == Ok((k, t))
    ensures k <= |t|
  {
    OutcomeCases(s, all, k, t);
    if k > 0 {
      LeveledShape(s, all + Sum(s, k), k);
    }
  }

  // ----- What the transaction leaves behind -----

  lemma TwiceCounts<T>(s: seq<T>, i: nat, j: nat)
    requires i < j < |s| && s[i] == s[j]
    ensures multiset(s)[s[i]] >= 2
  {
    assert s == s[..j] + [s[j]] + s[j + 1..];
    assert s[i] in s[..j];
  }

  lemma {:induction false} DistinctCounts<T>(s: seq<T>)
    requires Distinct(s)
    ensures forall x :: multiset(s)[x] <= 1
    ensures |set x | x in s| == |s|
  {
    if s != [] {
      var before, x := s[..|s| - 1], s[|s| - 1];
      assert s == before + [x];
      assert x !in before by {
        forall i | 0 <= i < |before| ensures before[i] != x {
          assert s[i] != s[|s| - 1];
        }
      }
      DistinctCounts(before);
      assert (set y | y in s) == (set y | y in before) + {x};
    }
  }

  /** The sort keeps the entries apart: one per live syncer, still counting its jobs. */
  lemma HostsPermute(s: seq<LoadInfo>, load: seq<LoadInfo>, hosts: seq<Host>, order: seq<Job>, jobs: map<Job, Host>)
    requires IsLoadList(load, hosts, order, jobs) && multiset(s) == multiset(load) && Distinct(hosts)
    ensures |s| == |hosts|
    ensures forall i, j :: 0 <= i < j < |s| ==> s[i].host != s[j].host
    ensures forall i :: 0 <= i < |s| ==> s[i].host in hosts && s[i] == LoadInfo(|Owned(order, jobs, s[i].host)|, 0, s[i].host)
  {
    SameLength(s, load);
    forall i | 0 <= i < |s|
      ensures s[i].host in hosts && s[i] == LoadInfo(|Owned(order, jobs, s[i].host)|, 0, s[i].host)
    {
      assert s[i] in multiset(s);
      assert s[i] in load;
    }
    assert Distinct(load) by {
      forall i, j | 0 <= i < j < |load| ensures load[i] != load[j] {
        assert hosts[i] != hosts[j];
      }
    }
    DistinctCounts(load);
    forall i, j | 0 <= i < j < |s| ensures s[i].host != s[j].host {
      if s[i] == s[j] {
        TwiceCounts(s, i, j);
      }
    }
  }

  ghost function Elements(s: seq<Job>): set<Job> { set j | j in s }

  ghost predicate SlicesOk(t: seq<LoadInfo>, orphans: seq<Job>, n: nat) {
    && n <= |t| && (forall i :: 0 <= i < n ==> SliceFits(t, |orphans|, i)) && Distinct(orphans)
    && (forall i, j :: 0 <= i < j < n ==> t[i].host != t[j].host)
  }

  /** All orphans from the last cut on are reassigned, to hosts of the list. */
  lemma {:induction false} MovesCover(t: seq<LoadInfo>, orphans: seq<Job>, n: nat)
    requires SlicesOk(t, orphans, n)
    ensures Upper(t, |orphans|, n) <= |orphans| && (n > 0 ==> 0 <= Upper(t, |orphans|, n))
    ensures Moves(t, orphans, n).Keys == Elements(orphans[Upper(t, |orphans|, n)..])
    ensures forall j :: j in Moves(t, orphans, n) ==> exists i :: 0 <= i < n && Moves(t, orphans, n)[j] == t[i].host
  {
    if n > 0 {
      MovesCover(t, orphans, n - 1);
      assert SliceFits(t, |orphans|, n - 1);
      var lo, hi := Upper(t, |orphans|, n), Upper(t, |orphans|, n - 1);
      assert orphans[lo..] == orphans[lo..hi] + orphans[hi..];
    }
  }

  lemma SlicesDisjoint(orphans: seq<Job>, lo: nat, hi: nat, lo': nat, hi': nat)
    requires Distinct(orphans) && lo <= hi <= lo' <= hi' <= |orphans|
    ensures Elements(orphans[lo..hi]) !! Elements(orphans[lo'..hi'])
  {
    forall j | j in orphans[lo..hi] ensures j !in orphans[lo'..hi'] {
      var q :| lo <= q < hi && orphans[q] == j;
      forall p | lo' <= p < hi' ensures orphans[p] != j {}
    }
  }

  lemma OwnedOfPlus(m: map<Job, Host>, slice: seq<Job>, h: Host, g: Host)
    requires Elements(slice) !! m.Keys
    ensures OwnedSet(m + Assign(slice, h), g) == OwnedSet(m, g) + if g == h then Elements(slice) else {}
  {
  }

  /** Nothing is reassigned to a host before its slice comes up. */
  lemma NotYet(t: seq<LoadInfo>, orphans: seq<Job>, n: nat, i: nat)
    requires SlicesOk(t, orphans, i + 1) && n <= i
    ensures SlicesOk(t, orphans, n) && OwnedSet(Moves(t, orphans, n), t[i].host) == {}
  {
    MovesCover(t, orphans, n);
  }

  lemma LastSlice(t: seq<LoadInfo>, orphans: seq<Job>, n: nat)
    requires SlicesOk(t, orphans, n + 1)
    ensures 0 <= Upper(t, |orphans|, n + 1) <= Upper(t, |orphans|, n) <= |orphans|
    ensures forall g :: OwnedSet(Moves(t, orphans, n + 1), g) == (OwnedSet(Moves(t, orphans, n), g) +
              if g == t[n].host then Elements(orphans[Upper(t, |orphans|, n + 1)..Upper(t, |orphans|, n)]) else {})
  {
    assert SliceFits(t, |orphans|, n);
    MovesCover(t, orphans, n);
    var lo, hi := Upper(t, |orphans|, n + 1), Upper(t, |orphans|, n);
    SlicesDisjoint(orphans, lo, hi, hi, |orphans|);
    assert orphans[hi..|orphans|] == orphans[hi..];
    forall g ensures OwnedSet(Moves(t, orphans, n + 1), g) == (OwnedSet(Moves(t, orphans, n), g) +
                       if g == t[n].host then Elements(orphans[lo..hi]) else {}) {
      OwnedOfPlus(Moves(t, orphans, n), orphans[lo..hi], t[n].host, g);
    }
  }

  /** Each orphan goes to exactly one host, that of the slice holding it. */
  lemma {:induction false} MovesTile(t: seq<LoadInfo>, orphans: seq<Job>, n: nat, i: nat)
    requires SlicesOk(t, orphans, n) && i < n
    ensures 0 <= Upper(t, |orphans|, i + 1) <= Upper(t, |orphans|, i) <= |orphans|
    ensures OwnedSet(Moves(t, orphans, n), t[i].host) ==
            Elements(orphans[Upper(t, |orphans|, i + 1)..Upper(t, |orphans|, i)])
  {
    LastSlice(t, orphans, n - 1);
    if i < n - 1 {
      MovesTile(t, orphans, n - 1, i);
    } else {
      NotYet(t, orphans, n - 1, i);
    }
  }

  /** A committed transaction: the queries returned every row once, the dead are not among the
      live, and the split went through. */
  ghost predicate Split(jobs: map<Job, Host>, dead: seq<Host>, hosts: seq<Host>, order: seq<Job>,
                        s: seq<LoadInfo>, k: nat, t: seq<LoadInfo>) {
    var orphans := Orphans(dead, order, jobs);
    && Enumerates(order, jobs.Keys) && Distinct(dead) && Distinct(hosts) && (forall h :: h in dead ==> h !in hosts)
    && Sorted(s) && Loads(s) && (exists l :: IsLoadList(l, hosts, order, jobs) && multiset(s) == multiset(l))
    && Outcome(s, |orphans|) == Ok((k, t)) && k <= |t| == |s| && Slices(t, k, |orphans|)
  }

  lemma CountsOwned(order: seq<Job>, jobs: map<Job, Host>, h: Host)
    requires Enumerates(order, jobs.Keys)
    ensures |Owned(order, jobs, h)| == |OwnedSet(jobs, h)|
  {
    OwnedMembers(order, jobs, h);
    DistinctCounts(Owned(order, jobs, h));
    assert OwnedSet(jobs, h) == set j | j in Owned(order, jobs, h);
  }

  lemma SplitHosts(jobs: map<Job, Host>, dead: seq<Host>, hosts: seq<Host>, order: seq<Job>,
                   s: seq<LoadInfo>, k: nat, t: seq<LoadInfo>)
    requires Split(jobs, dead, hosts, order, s, k, t)
    ensures |s| == |hosts| && forall i :: 0 <= i < |s| ==>
              s[i].host in hosts && s[i] == LoadInfo(|OwnedSet(jobs, s[i].host)|, 0, s[i].host)
    ensures forall i, j :: 0 <= i < j < |s| ==> s[i].host != s[j].host
  {
    var l :| IsLoadList(l, hosts, order, jobs) && multiset(s) == multiset(l);
    HostsPermute(s, l, hosts, order, jobs);
    forall i | 0 <= i < |s| ensures s[i] == LoadInfo(|OwnedSet(jobs, s[i].host)|, 0, s[i].host) {
      CountsOwned(order, jobs, s[i].host);
    }
  }

  /** What the split leaves of each entry. */
  lemma SplitEntries(s: seq<LoadInfo>, all: nat, k: nat, t: seq<LoadInfo>)
    requires Loads(s) && Outcome(s, all) == Ok((k, t)) && k <= |t| == |s|
    ensures forall i :: 0 <= i < |t| ==> t[i].host == s[i].host && t[i].now == s[i].now && (i >= k ==> t[i] == s[i])
    ensures k == 0 ==> t == s
  {
    OutcomeCases(s, all, k, t);
    if k > 0 {
      LeveledShape(s, all + Sum(s, k), k);
    }
  }

  lemma SplitFacts(jobs: map<Job, Host>, dead: seq<Host>, hosts: seq<Host>, order: seq<Job>,
                   s: seq<LoadInfo>, k: nat, t: seq<LoadInfo>)
    requires Split(jobs, dead, hosts, order, s, k, t)
    ensures SlicesOk(t, Orphans(dead, order, jobs), k)
    ensures |s| == |hosts| && forall i :: 0 <= i < |t| ==>
              t[i].host in hosts && t[i].host == s[i].host && t[i].now == s[i].now == |OwnedSet(jobs, t[i].host)|
    ensures forall i :: 0 <= i < |t| ==> s[i].added == 0 && (i >= k ==> t[i] == s[i])
    ensures forall i, j :: 0 <= i < j < |t| ==> t[i].host != t[j].host
    ensures k > 0 ==> Upper(t, |Orphans(dead, order, jobs)|, k) == 0
    ensures k == 0 ==> t == s
  {
    var orphans := Orphans(dead, order, jobs);
    SplitHosts(jobs, dead, hosts, order, s, k, t);
    SplitEntries(s, |orphans|, k, t);
    OrphanMembers(dead, order, jobs);
    UpperAtEnd(s, |orphans|, k, t);
  }

  lemma ElementCount(orphans: seq<Job>, lo: nat, hi: nat)
    requires lo <= hi <= |orphans| && Distinct(orphans)
    ensures |Elements(orphans[lo..hi])| == hi - lo
  {
    assert Distinct(orphans[lo..hi]) by {
      forall i, j | 0 <= i < j < hi - lo ensures orphans[lo..hi][i] != orphans[lo..hi][j] {
        assert orphans[lo + i] != orphans[lo + j];
      }
    }
    DistinctCounts(orphans[lo..hi]);
  }

  lemma OwnedAfter(jobs: map<Job, Host>, moves: map<Job, Host>, h: Host)
    requires forall j :: j in moves ==> j in jobs && jobs[j] != h
    ensures OwnedSet(jobs + moves, h) == OwnedSet(jobs, h) + OwnedSet(moves, h)
    ensures OwnedSet(jobs, h) !! OwnedSet(moves, h)
  {
  }

  lemma MovesAreOrphans(jobs: map<Job, Host>, dead: seq<Host>, hosts: seq<Host>, order: seq<Job>,
                        s: seq<LoadInfo>, k: nat, t: seq<LoadInfo>)
    requires Split(jobs, dead, hosts, order, s, k, t)
    ensures SlicesOk(t, Orphans(dead, order, jobs), k)
    ensures forall j :: j in Moves(t, Orphans(dead, order, jobs), k) ==> j in jobs && jobs[j] in dead
    ensures hosts != [] || Orphans(dead, order, jobs) == [] ==>
              forall j :: j in Moves(t, Orphans(dead, order, jobs), k) <==> j in jobs && jobs[j] in dead
    ensures hosts == [] ==> k == 0
  {
    var orphans := Orphans(dead, order, jobs);
    SplitFacts(jobs, dead, hosts, order, s, k, t);
    MovesCover(t, orphans, k);
    OrphanMembers(dead, order, jobs);
    OutcomeCases(s, |orphans|, k, t);
    assert k > 0 ==> orphans[0..] == orphans;
    if k == 0 {
      assert Moves(t, orphans, k) == map[];
    }
  }

  /** The stored owners match the plan: every live syncer, returned or not, now owns exactly its
      planned number of jobs, jobs of the living never move, and jobs stay with the dead exactly
      when nobody is there to take them. */
  lemma {:induction false} DispatchMatchesPlan(jobs: map<Job, Host>, dead: seq<Host>, hosts: seq<Host>, order: seq<Job>,
                            s: seq<LoadInfo>, k: nat, t: seq<LoadInfo>)
    requires Split(jobs, dead, hosts, order, s, k, t)
    ensures SlicesOk(t, Orphans(dead, order, jobs), k) && |t| == |hosts|
    ensures var jobs' := jobs + Moves(t, Orphans(dead, order, jobs), k);
      && jobs'.Keys == jobs.Keys
      && (forall i :: 0 <= i < |t| ==> |OwnedSet(jobs', t[i].host)| == t[i].Load())
      && (forall j :: j in jobs && jobs[j] !in dead ==> jobs'[j] == jobs[j])
      && ((forall j :: j in jobs' ==> jobs'[j] !in dead) <==> (hosts != [] || Orphans(dead, order, jobs) == []))
  {
    var orphans := Orphans(dead, order, jobs);
    SplitFacts(jobs, dead, hosts, order, s, k, t);
    NobodyLeftBehind(jobs, dead, hosts, order, s, k, t);
    var m := Moves(t, orphans, k);
    forall i | 0 <= i < |t| ensures |OwnedSet(jobs + m, t[i].host)| == t[i].Load() {
      HostEndsAt(jobs, dead, hosts, order, s, k, t, i);
    }
  }

  lemma NobodyLeftBehind(jobs: map<Job, Host>, dead: seq<Host>, hosts: seq<Host>, order: seq<Job>,
                         s: seq<LoadInfo>, k: nat, t: seq<LoadInfo>)
    requires Split(jobs, dead, hosts, order, s, k, t)
    ensures SlicesOk(t, Orphans(dead, order, jobs), k)
    ensures var jobs' := jobs + Moves(t, Orphans(dead, order, jobs), k);
      && jobs'.Keys == jobs.Keys
      && (forall j :: j in jobs && jobs[j] !in dead ==> jobs'[j] == jobs[j])
      && ((forall j :: j in jobs' ==> jobs'[j] !in dead) <==> (hosts != [] || Orphans(dead, order, jobs) == []))
  {
    var orphans := Orphans(dead, order, jobs);
    MoveFacts(jobs, dead, hosts, order, s, k, t, 0);
    MovesAreOrphans(jobs, dead, hosts, order, s, k, t);
    OrphanMembers(dead, order, jobs);
    if hosts == [] && orphans != [] {
      assert (jobs + Moves(t, orphans, k))[orphans[0]] in dead;
    }
  }

  lemma HostEndsAt(jobs: map<Job, Host>, dead: seq<Host>, hosts: seq<Host>, order: seq<Job>,
                   s: seq<LoadInfo>, k: nat, t: seq<LoadInfo>, i: nat)
    requires Split(jobs, dead, hosts, order, s, k, t) && i < |t|
    ensures SlicesOk(t, Orphans(dead, order, jobs), k)
    ensures |OwnedSet(jobs + Moves(t, Orphans(dead, order, jobs), k), t[i].host)| == t[i].Load()
  {
    var orphans := Orphans(dead, order, jobs);
    SplitFacts(jobs, dead, hosts, order, s, k, t);
    MovesAreOrphans(jobs, dead, hosts, order, s, k, t);
    var m := Moves(t, orphans, k);
    OwnedAfter(jobs, m, t[i].host);
    if i < k {
      MovesTile(t, orphans, k, i);
      ElementCount(orphans, Upper(t, |orphans|, i + 1), Upper(t, |orphans|, i));
    } else {
      MovesCover(t, orphans, k);
      assert OwnedSet(m, t[i].host) == {};
    }
  }

  ghost predicate EvenlyOwned(hosts: seq<Host>, jobs: map<Job, Host>) {
    forall g, h :: g in hosts && h in hosts ==> |OwnedSet(jobs, g)| <= |OwnedSet(jobs, h)| + 1
  }

  lemma InList(t: seq<LoadInfo>, hosts: seq<Host>, h: Host) returns (i: nat)
    requires |t| == |hosts| && Distinct(hosts) && h in hosts
    requires forall i :: 0 <= i < |t| ==> t[i].host in hosts
    requires forall i, j :: 0 <= i < j < |t| ==> t[i].host != t[j].host
    ensures i < |t| && t[i].host == h
  {
    var names := seq(|t|, i requires 0 <= i < |t| => t[i].host);
    DistinctCounts(names);
    DistinctCounts(hosts);
    var a, b := set x | x in names, set x | x in hosts;
    assert a <= b by {
      forall x | x in names ensures x in hosts {
        var q :| 0 <= q < |names| && names[q] == x;
        assert t[q].host in hosts;
      }
    }
    SubsetOfSameSize(a, b);
    assert h in a;
    i :| 0 <= i < |names| && names[i] == h;
  }

  lemma SubsetOfSameSize<T>(a: set<T>, b: set<T>)
    requires a <= b && |a| == |b|
    ensures a == b
  {
    assert |b - a| == |b| - |a|;
    assert b == a + (b - a);
  }

  lemma PlanIsBalanced(jobs: map<Job, Host>, dead: seq<Host>, hosts: seq<Host>, order: seq<Job>,
                       s: seq<LoadInfo>, k: nat, t: seq<LoadInfo>)
    requires Split(jobs, dead, hosts, order, s, k, t) && EvenlyOwned(hosts, jobs)
    ensures Balanced(t)
  {
    SplitFacts(jobs, dead, hosts, order, s, k, t);
    assert Balanced(s) by {
      forall i, j | 0 <= i < |s| && 0 <= j < |s| ensures s[i].Load() <= s[j].Load() + 1 {
        assert t[i].host in hosts && t[j].host in hosts;
      }
    }
    BalanceIsPreserved(s, |Orphans(dead, order, jobs)|, k, t);
  }

  /** If the live syncers' job counts differ by at most one before, they do after. */
  lemma {:induction false} DispatchKeepsEven(jobs: map<Job, Host>, dead: seq<Host>, hosts: seq<Host>, order: seq<Job>,
                          s: seq<LoadInfo>, k: nat, t: seq<LoadInfo>)
    requires Split(jobs, dead, hosts, order, s, k, t) && EvenlyOwned(hosts, jobs)
    ensures SlicesOk(t, Orphans(dead, order, jobs), k)
    ensures EvenlyOwned(hosts, jobs + Moves(t, Orphans(dead, order, jobs), k))
  {
    SplitFacts(jobs, dead, hosts, order, s, k, t);
    DispatchMatchesPlan(jobs, dead, hosts, order, s, k, t);
    PlanIsBalanced(jobs, dead, hosts, order, s, k, t);
    var jobs' := jobs + Moves(t, Orphans(dead, order, jobs), k);
    forall g, h | g in hosts && h in hosts ensures |OwnedSet(jobs', g)| <= |OwnedSet(jobs', h)| + 1 {
      var i := InList(t, hosts, g);
      var j := InList(t, hosts, h);
    }
  }

  /** With even loads to start from, the transaction can only fail with the one error that has
      nothing to hand out: every slice can be cut. */
  lemma {:induction false} EvenLoadsDispatch(jobs: map<Job, Host>, dead: seq<Host>, hosts: seq<Host>, order: seq<Job>, s: seq<LoadInfo>)
    requires Sorted(s) && Loads(s) && Balanced(s) && forall i :: 0 <= i < |s| ==> s[i].added == 0
    ensures var all := |Orphans(dead, order, jobs)|;
      match Outcome(s, all)
      case Ok((k, t)) => 0 <= k <= |t| && Slices(t, k, all)
      case Err(_) => all == 0 && |s| > 0 && forall i :: 0 <= i < |s| ==> s[i].Load() == s[0].Load()
  {
    var all := |Orphans(dead, order, jobs)|;
    ErrorExactly(s, all);
    if Outcome(s, all).Ok? {
      var (k, t) := Outcome(s, all).value;
      BalanceIsPreserved(s, all, k, t);
      SlicesExactly(s, all, k, t);
    }
  }

  lemma ReceiversAreBumped(t: seq<LoadInfo>, orphans: seq<Job>, now: Stamp, k: nat)
    requires SlicesOk(t, orphans, k)
    ensures forall j :: j in Moves(t, orphans, k) ==> Moves(t, orphans, k)[j] in Bumps(t, now, k)
  {
    MovesCover(t, orphans, k);
  }

  lemma BumpsAreLive(t: seq<LoadInfo>, hosts: seq<Host>, now: Stamp, k: nat)
    requires k <= |t| && forall i :: 0 <= i < |t| ==> t[i].host in hosts
    ensures forall h :: h in Bumps(t, now, k) ==> h in hosts && now <= Bumps(t, now, k)[h] < now + k
  {
  }

  lemma MoveFacts(jobs: map<Job, Host>, dead: seq<Host>, hosts: seq<Host>, order: seq<Job>,
                  s: seq<LoadInfo>, k: nat, t: seq<LoadInfo>, now: Stamp)
    requires Split(jobs, dead, hosts, order, s, k, t)
    ensures SlicesOk(t, Orphans(dead, order, jobs), k) && forall h :: h in hosts ==> h !in dead
    ensures var moves, bumps := Moves(t, Orphans(dead, order, jobs), k), Bumps(t, now, k);
      && (forall j :: j in moves ==> j in jobs && jobs[j] in dead && moves[j] in bumps)
      && (forall h :: h in bumps ==> h in hosts && now <= bumps[h] < now + k)
  {
    SplitFacts(jobs, dead, hosts, order, s, k, t);
    MovesAreOrphans(jobs, dead, hosts, order, s, k, t);
    ReceiversAreBumped(t, Orphans(dead, order, jobs), now, k);
    BumpsAreLive(t, hosts, now, k);
  }

  lemma AllMoved(jobs: map<Job, Host>, dead: seq<Host>, hosts: seq<Host>, order: seq<Job>,
                 s: seq<LoadInfo>, k: nat, t: seq<LoadInfo>)
    requires Split(jobs, dead, hosts, order, s, k, t)
    ensures SlicesOk(t, Orphans(dead, order, jobs), k)
    ensures hosts != [] ==> forall j :: j in jobs && jobs[j] in dead ==> j in Moves(t, Orphans(dead, order, jobs), k)
  {
    MovesAreOrphans(jobs, dead, hosts, order, s, k, t);
    OrphanMembers(dead, order, jobs);
  }

  /** The transaction is the one the membership protocol relies on. */
  lemma {:induction false} DispatchIsValid(sys: System, dead: seq<Host>, hosts: seq<Host>, order: seq<Job>,
                        s: seq<LoadInfo>, k: nat, t: seq<LoadInfo>, now: Stamp)
    requires Split(sys.jobs, dead, hosts, order, s, k, t) && now > sys.clock
    requires forall h :: h in hosts <==> h in sys.syncers && h !in dead
    ensures SlicesOk(t, Orphans(dead, order, sys.jobs), k)
    ensures ValidMoves(sys, (set h | h in dead), Moves(t, Orphans(dead, order, sys.jobs), k), Bumps(t, now, k), now + k)
  {
    MoveFacts(sys.jobs, dead, hosts, order, s, k, t, now);
    AllMoved(sys.jobs, dead, hosts, order, s, k, t);
    MovesAreValid(sys, dead, hosts, Moves(t, Orphans(dead, order, sys.jobs), k), Bumps(t, now, k), now, now + k);
  }

  lemma MovesAreValid(sys: System, dead: seq<Host>, hosts: seq<Host>, moves: map<Job, Host>, bumps: map<Host, Stamp>, now: Stamp, latest: Stamp)
    requires sys.clock < now <= latest && forall h :: h in hosts <==> h in sys.syncers && h !in dead
    requires hosts != [] ==> forall j :: j in sys.jobs && sys.jobs[j] in dead ==> j in moves
    requires forall j :: j in moves ==> j in sys.jobs && sys.jobs[j] in dead && moves[j] in bumps
    requires forall h :: h in bumps ==> h in hosts && now <= bumps[h] < latest
    ensures ValidMoves(sys, (set h | h in dead), moves, bumps, latest)
  {
  }
}
