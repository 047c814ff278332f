/** Splitting orphan jobs over the live syncers: drop the syncers above the average, level the
    rest, hand the remainder out one by one. */
module Rebalance {
  import opened Wrappers

  datatype LoadInfo = LoadInfo(now: int, added: int, host: string) {
    function Load(): int { added + now }
  }

  function Sum(s: seq<LoadInfo>, n: nat): int
    requires n <= |s|
  {
    if n == 0 then 0 else Sum(s, n - 1) + s[n - 1].Load()
  }

  ghost predicate Sorted(s: seq<LoadInfo>) {
    forall i, j :: 0 <= i < j < |s| ==> s[i].Load() <= s[j].Load()
  }

  // ----- The library sort: any sorted permutation -----

  function Insert(x: LoadInfo, s: seq<LoadInfo>): seq<LoadInfo> {
    if s == [] || x.Load() <= s[0].Load() then [x] + s else [s[0]] + Insert(x, s[1..])
  }

  lemma {:induction false} InsertMembers(x: LoadInfo, s: seq<LoadInfo>)
    ensures multiset(Insert(x, s)) == multiset(s) + multiset{x}
  {
    if s != [] && !(x.Load() <= s[0].Load()) {
      assert s == [s[0]] + s[1..];
      InsertMembers(x, s[1..]);
    }
  }

  lemma SortedCons(x: LoadInfo, s: seq<LoadInfo>)
    requires Sorted(s) && forall y :: y in s ==> x.Load() <= y.Load()
    ensures Sorted([x] + s)
  {
    forall i, j | 0 <= i < j < |s| + 1 ensures ([x] + s)[i].Load() <= ([x] + s)[j].Load() {
      assert s[j - 1] in s;
    }
  }

  lemma {:induction false} InsertSorted(x: LoadInfo, s: seq<LoadInfo>)
    requires Sorted(s)
    ensures Sorted(Insert(x, s))
  {
    if s == [] || x.Load() <= s[0].Load() {
      SortedCons(x, s);
    } else {
      InsertSorted(x, s[1..]);
      InsertMembers(x, s[1..]);
      forall y | y in Insert(x, s[1..]) ensures s[0].Load() <= y.Load() {
        assert y in multiset(Insert(x, s[1..]));
        assert y == x || y in s[1..];
      }
      SortedCons(s[0], Insert(x, s[1..]));
    }
  }

  function SortSeq(s: seq<LoadInfo>): seq<LoadInfo> {
    if s == [] then [] else Insert(s[0], SortSeq(s[1..]))
  }

  lemma {:induction false} SortSeqSorts(s: seq<LoadInfo>)
    ensures Sorted(SortSeq(s)) && multiset(SortSeq(s)) == multiset(s)
  {
    if s != [] {
      assert s == [s[0]] + s[1..];
      SortSeqSorts(s[1..]);
      InsertSorted(s[0], SortSeq(s[1..]));
      InsertMembers(s[0], SortSeq(s[1..]));
    }
  }

  lemma SameLength(s: seq<LoadInfo>, t: seq<LoadInfo>)
    requires multiset(s) == multiset(t)
    ensures |s| == |t|
  {
    assert |s| == |multiset(s)| && |t| == |multiset(t)|;
  }

  method SortByLoad(a: array<LoadInfo>)
    modifies a
    ensures Sorted(a[..]) && multiset(a[..]) == multiset(old(a[..]))
  {
    var s := SortSeq(a[..]);
    SortSeqSorts(a[..]);
    SameLength(s, a[..]);
    for i := 0 to a.Length
      invariant a[..i] == s[..i]
    {
      a[i] := s[i];
    }
    assert a[..] == s;
  }

  // ----- Dropping the loaded syncers -----

  /** How many of the first `k` syncers stay: up to the last one strictly below the average. */
  function Kept(s: seq<LoadInfo>, total: int, k: nat): (r: nat)
    requires k <= |s|
    ensures r <= k
  {
    if k == 0 then 0 else if s[k - 1].Load() * |s| < total then k else Kept(s, total, k - 1)
  }

  lemma {:induction false} KeptMeans(s: seq<LoadInfo>, total: int, k: nat)
    requires k <= |s|
    ensures var r := Kept(s, total, k);
      && (r > 0 ==> s[r - 1].Load() * |s| < total)
      && (forall i :: r <= i < k ==> s[i].Load() * |s| >= total)
  {
    if k > 0 && !(s[k - 1].Load() * |s| < total) {
      KeptMeans(s, total, k - 1);
    }
  }

  /** The comparison with the average is written without fractions. */
  method FilterHighLoadSyncer(sumLoad: int, a: array<LoadInfo>)
    returns (r: Result<(nat, int), string>)
    modifies a
    ensures Sorted(a[..]) && multiset(a[..]) == multiset(old(a[..]))
    ensures if a.Length == 0 || sumLoad == 0 then r == Ok((0, 0))
            else var k := Kept(a[..], sumLoad, a.Length);
              if k == 0 then r.Err? else r == Ok((k, sumLoad - (Sum(a[..], a.Length) - Sum(a[..], k))))
  {
    SortByLoad(a);
    if a.Length == 0 || sumLoad == 0 {
      return Ok((0, 0));
    }
    var left := sumLoad;
    var i := a.Length - 1;
    while i >= 0
      invariant -1 <= i < a.Length
      invariant Kept(a[..], sumLoad, i + 1) == Kept(a[..], sumLoad, a.Length)
      invariant left == sumLoad - (Sum(a[..], a.Length) - Sum(a[..], i + 1))
    {
      if a[i].Load() * a.Length < sumLoad {
        return Ok((i + 1, left));
      }
      left := left - a[i].Load();
      i := i - 1;
    }
    return Err("There is no available syncer!");
  }

  // ----- Levelling -----

  /** `sum` jobs over `k` syncers: everyone the average, the first ones one more. */
  function Target(sum: int, k: nat, i: nat): int
    requires k > 0
  {
    sum / k + if i < sum % k then 1 else 0
  }

  function Leveled(s: seq<LoadInfo>, sum: int, k: nat): seq<LoadInfo>
    requires 0 < k <= |s|
  {
    seq(|s|, i requires 0 <= i < |s| => if i < k then s[i].(added := Target(sum, k, i) - s[i].now) else s[i])
  }

  lemma DivMod(sum: int, k: nat)
    requires k > 0 && sum >= 0
    ensures sum == k * (sum / k) + sum % k && 0 <= sum % k < k
  {
  }

  /** What one call does to a list `s` sorted by load: keep a prefix and level it, or nothing. */
  function Outcome(s: seq<LoadInfo>, additional: int): Result<(nat, seq<LoadInfo>), ()> {
    var total := additional + Sum(s, |s|);
    if |s| == 0 || total == 0 then Ok((0, s))
    else
      var k := Kept(s, total, |s|);
      if k == 0 then Err(())
      else if additional + Sum(s, k) == 0 then Ok((0, s))
      else Ok((k, Leveled(s, additional + Sum(s, k), k)))
  }

  ghost predicate Loads(s: seq<LoadInfo>) { forall i :: 0 <= i < |s| ==> s[i].Load() >= 0 }

  lemma {:induction false} SumNonNegative(s: seq<LoadInfo>, n: nat)
    requires n <= |s| && Loads(s)
    ensures Sum(s, n) >= 0
  {
    if n > 0 {
      SumNonNegative(s, n - 1);
    }
  }

  lemma {:induction false} SumFrame(s: seq<LoadInfo>, t: seq<LoadInfo>, n: nat)
    requires n <= |s| && n <= |t| && s[..n] == t[..n]
    ensures Sum(s, n) == Sum(t, n)
  {
    if n > 0 {
      assert s[..n][..n - 1] == s[..n - 1] && t[..n][..n - 1] == t[..n - 1];
      assert s[..n][n - 1] == t[..n][n - 1];
      SumFrame(s, t, n - 1);
    }
  }

  /** The sum does not depend on the order. */
  ghost function Bag(m: multiset<LoadInfo>): int
    decreases |m|
  {
    if m == multiset{} then 0 else var x :| x in m; x.Load() + Bag(m - multiset{x})
  }

  lemma {:induction false} BagRemove(m: multiset<LoadInfo>, x: LoadInfo)
    requires x in m
    ensures Bag(m) == x.Load() + Bag(m - multiset{x})
    decreases |m|
  {
    var y :| y in m && Bag(m) == y.Load() + Bag(m - multiset{y});
    if y != x {
      BagRemove(m - multiset{y}, x);
      BagRemove(m - multiset{x}, y);
      assert m - multiset{y} - multiset{x} == m - multiset{x} - multiset{y};
    }
  }

  lemma {:induction false} SumIsBag(s: seq<LoadInfo>)
    ensures Sum(s, |s|) == Bag(multiset(s))
    decreases |s|
  {
    if s != [] {
      var t := s[..|s| - 1];
      assert s == t + [s[|s| - 1]];
      SumFrame(s, t, |t|);
      SumIsBag(t);
      BagRemove(multiset(s), s[|s| - 1]);
      assert multiset(s) - multiset{s[|s| - 1]} == multiset(t);
    }
  }

  lemma SumPermutes(s: seq<LoadInfo>, t: seq<LoadInfo>)
    requires multiset(s) == multiset(t)
    ensures |s| == |t| && Sum(s, |s|) == Sum(t, |t|)
  {
    SameLength(s, t);
    SumIsBag(s);
    SumIsBag(t);
  }

  lemma LoadsPermute(s: seq<LoadInfo>, t: seq<LoadInfo>)
    requires multiset(s) == multiset(t) && Loads(s)
    ensures Loads(t)
  {
    forall i | 0 <= i < |t| ensures t[i].Load() >= 0 {
      assert t[i] in multiset(t);
      assert t[i] in s;
    }
  }

  /** The two loops that update the loads in place. */
  method Level(additionalLoad: int, sumLoad: int, k: nat, a: array<LoadInfo>)
    requires 0 < k <= a.Length && sumLoad >= 0
    requires sumLoad == additionalLoad + Sum(a[..], k)
    modifies a
    ensures a[..] == Leveled(old(a[..]), sumLoad, k)
  {
    ghost var s := a[..];
    DivMod(sumLoad, k);
    var averageLoad := sumLoad / k;
    var left := additionalLoad;
    ghost var given := 0;
    for i := 0 to k
      invariant left == additionalLoad - given + Sum(s, i) && given == averageLoad * i
      invariant forall j :: 0 <= j < i ==> a[j] == s[j].(added := averageLoad - s[j].now)
      invariant forall j :: i <= j < a.Length ==> a[j] == s[j]
    {
      var difference := averageLoad - a[i].Load();
      a[i] := a[i].(added := a[i].added + difference);
      left := left - difference;
      assert averageLoad * (i + 1) == averageLoad * i + averageLoad;
      given := given + averageLoad;
    }
    ghost var rest := sumLoad % k;
    assert left == rest;
    var i := 0;
    while left > 0
      invariant 0 <= i <= rest < k && left == rest - i
      invariant forall j :: 0 <= j < k ==>
        a[j] == s[j].(added := averageLoad + (if j < i then 1 else 0) - s[j].now)
      invariant forall j :: k <= j < a.Length ==> a[j] == s[j]
    {
      a[i] := a[i].(added := a[i].added + 1);
      left := left - 1;
      i := i + 1;
    }
    ghost var want := Leveled(s, sumLoad, k);
    assert forall j :: 0 <= j < a.Length ==> a[j] == want[j];
    assert a[..] == want;
  }

  /** `s` is the list as the sort left it; the result is the number of leading entries returned. */
  method RebalanceLoad(additionalLoad: int, currentLoad: int, a: array<LoadInfo>)
    returns (r: Result<nat, string>, ghost s: seq<LoadInfo>)
    requires additionalLoad >= 0 && Loads(a[..]) && currentLoad == Sum(a[..], a.Length)
    modifies a
    ensures Sorted(s) && multiset(s) == multiset(old(a[..]))
    ensures r.Err? <==> Outcome(s, additionalLoad).Err?
    ensures r.Err? ==> a[..] == s
    ensures r.Ok? ==> (r.value, a[..]) == Outcome(s, additionalLoad).value
  {
    var f := FilterHighLoadSyncer(additionalLoad + currentLoad, a);
    s := a[..];
    SumPermutes(s, old(a[..]));
    LoadsPermute(old(a[..]), s);
    if f.Err? {
      return Err(f.error), s;
    }
    var (k, sumLoad) := f.value;
    if sumLoad == 0 || k == 0 {
      return Ok(0), s;
    }
    SumNonNegative(s, k);
    Level(additionalLoad, sumLoad, k, a);
    r := Ok(k);
  }

  // ----- What the split promises -----

  lemma {:induction false} LeveledSum(s: seq<LoadInfo>, sum: int, k: nat, n: nat)
    requires 0 < k <= |s| && n <= k
    ensures Sum(Leveled(s, sum, k), n) == sum / k * n + if n <= sum % k then n else sum % k
  {
    if n > 0 {
      LeveledSum(s, sum, k, n - 1);
      assert sum / k * n == sum / k * (n - 1) + sum / k;
    }
  }

  /** Summing the targets gives back the jobs that were to be spread. */
  lemma LeveledTotal(s: seq<LoadInfo>, sum: int, k: nat)
    requires 0 < k <= |s| && sum >= 0
    ensures Sum(Leveled(s, sum, k), k) == sum
  {
    LeveledSum(s, sum, k, k);
    DivMod(sum, k);
  }

  lemma OutcomeCases(s: seq<LoadInfo>, additional: int, k: nat, t: seq<LoadInfo>)
    requires additional >= 0 && Loads(s) && Outcome(s, additional) == Ok((k, t))
    ensures k <= |s|
    ensures k > 0 ==> additional + Sum(s, k) >= 0 && t == Leveled(s, additional + Sum(s, k), k)
    ensures k == 0 ==> t == s && (|s| > 0 ==> additional == 0)
  {
    SumNonNegative(s, |s|);
    SumNonNegative(s, k);
    if k == 0 && |s| > 0 && additional + Sum(s, |s|) != 0 {
      SumNonNegative(s, Kept(s, additional + Sum(s, |s|), |s|));
    }
  }

  /** Levelling touches only the loads handed out. */
  lemma LeveledShape(s: seq<LoadInfo>, sum: int, k: nat)
    requires 0 < k <= |s|
    ensures var t := Leveled(s, sum, k);
      && |t| == |s|
      && (forall i :: 0 <= i < |s| ==> t[i].host == s[i].host && t[i].now == s[i].now)
      && (forall i :: k <= i < |s| ==> t[i] == s[i])
      && (forall i :: 0 <= i < k ==> t[i].Load() == Target(sum, k, i))
  {
  }

  /** Nothing is lost: the returned syncers take over exactly the additional load, each ending at
      the floor of the average or one above it; when none is returned there was none, and when any
      is, they have something to carry. */
  lemma {:induction false} RebalanceConserves(s: seq<LoadInfo>, additional: int, k: nat, t: seq<LoadInfo>)
    requires additional >= 0 && Loads(s) && Outcome(s, additional) == Ok((k, t))
    ensures |t| == |s| && k <= |s| && (k == 0 ==> t == s && (|s| > 0 ==> additional == 0))
    ensures k > 0 ==> Sum(t, k) - Sum(s, k) == additional && Sum(t, k) > 0
    ensures forall i :: 0 <= i < k ==> t[i].Load() == Target(additional + Sum(s, k), k, i)
  {
    OutcomeCases(s, additional, k, t);
    if k > 0 {
      LeveledShape(s, additional + Sum(s, k), k);
      LeveledTotal(s, additional + Sum(s, k), k);
    }
  }

  lemma {:induction false} SumAtLeast(s: seq<LoadInfo>, n: nat, m: int)
    requires n <= |s| && forall i :: 0 <= i < n ==> s[i].Load() >= m
    ensures Sum(s, n) >= m * n
    ensures Sum(s, n) == m * n ==> forall i :: 0 <= i < n ==> s[i].Load() == m
  {
    if n > 0 {
      SumAtLeast(s, n - 1, m);
      assert m * n == m * (n - 1) + m;
    }
  }

  lemma {:induction false} SumOfEqual(s: seq<LoadInfo>, n: nat, m: int)
    requires n <= |s| && forall i :: 0 <= i < n ==> s[i].Load() == m
    ensures Sum(s, n) == m * n
  {
    if n > 0 {
      SumOfEqual(s, n - 1, m);
      assert m * n == m * (n - 1) + m;
    }
  }

  /** The error is raised exactly when there is nothing to hand out and all loads are the same
      positive number; a dead syncer without jobs then stays in the table. */
  lemma {:induction false} ErrorExactly(s: seq<LoadInfo>, additional: int)
    requires additional >= 0 && Loads(s) && Sorted(s)
    ensures Outcome(s, additional).Err? <==>
            |s| > 0 && additional == 0 && s[0].Load() > 0 && forall i :: 0 <= i < |s| ==> s[i].Load() == s[0].Load()
  {
    if |s| > 0 {
      var n, m := |s|, s[0].Load();
      var total := additional + Sum(s, n);
      SumAtLeast(s, n, m);
      KeptMeans(s, total, n);
      if Outcome(s, additional).Err? {
        assert m * n >= total;
      }
      if additional == 0 && m > 0 && forall i :: 0 <= i < n ==> s[i].Load() == m {
        SumOfEqual(s, n, m);
        assert m * n > 0 by { MulPositive(m, n); }
        forall i | 0 <= i < n ensures s[i].Load() * n >= total {}
        assert Kept(s, total, n) == 0;
      }
    }
  }

  lemma MulPositive(m: int, n: int)
    requires m > 0 && n > 0
    ensures m * n > 0
  {
  }

  /** The negative split in the open: loads 0, 9 and 100 with one orphan job take four jobs away
      from the second syncer, although it has none to give. */
  lemma {:induction false} NegativeSplit(a: string, b: string, c: string)
    ensures var s := [LoadInfo(0, 0, a), LoadInfo(9, 0, b), LoadInfo(100, 0, c)];
      Outcome(s, 1).Ok? && Outcome(s, 1).value.1[1].added == -4
  {
    var s := [LoadInfo(0, 0, a), LoadInfo(9, 0, b), LoadInfo(100, 0, c)];
    assert Sum(s, 1) == 0;
    assert Sum(s, 2) == 9;
    assert Sum(s, 3) == 109;
    assert Kept(s, 110, 2) == 2;
    assert Kept(s, 110, 3) == 2;
    assert Outcome(s, 1) == Ok((2, Leveled(s, 10, 2)));
    assert Target(10, 2, 1) == 5;
  }

  /** No syncer is asked to give jobs away exactly when the most loaded one that was kept is not
      above the average of the kept ones. */
  lemma {:induction false} NonNegativeExactly(s: seq<LoadInfo>, additional: int, k: nat, t: seq<LoadInfo>)
    requires additional >= 0 && Loads(s) && Sorted(s) && Outcome(s, additional) == Ok((k, t)) && k > 0
    ensures k <= |s| && |t| == |s|
    ensures (forall i :: 0 <= i < k ==> t[i].added >= s[i].added) <==> s[k - 1].Load() <= (additional + Sum(s, k)) / k
  {
    RebalanceConserves(s, additional, k, t);
    OutcomeCases(s, additional, k, t);
    var sum := additional + Sum(s, k);
    LeveledShape(s, sum, k);
    DivMod(sum, k);
    assert t[k - 1].Load() == sum / k;
    forall i | 0 <= i < k
      ensures t[i].added >= s[i].added <==> s[i].Load() <= Target(sum, k, i)
      ensures sum / k <= Target(sum, k, i) && s[i].Load() <= s[k - 1].Load()
    {
    }
  }

  ghost predicate Balanced(s: seq<LoadInfo>) {
    forall i, j :: 0 <= i < |s| && 0 <= j < |s| ==> s[i].Load() <= s[j].Load() + 1
  }

  lemma {:induction false} SumSplit(s: seq<LoadInfo>, k: nat, n: nat, m: int)
    requires k <= n <= |s| && forall i :: k <= i < n ==> s[i].Load() == m
    ensures Sum(s, n) == Sum(s, k) + m * (n - k)
  {
    if n > k {
      SumSplit(s, k, n - 1, m);
      assert m * (n - k) == m * (n - 1 - k) + m;
    }
  }

  lemma MulMonotone(a: int, b: int, n: nat)
    ensures a <= b ==> a * n <= b * n
  {
  }

  lemma FloorAtLeast(x: int, sum: int, k: nat)
    requires k > 0 && x * k <= sum && sum >= 0
    ensures x <= sum / k
  {
    DivMod(sum, k);
    MulMonotone(sum / k + 1, x, k);
    assert (sum / k + 1) * k == k * (sum / k) + k;
  }

  lemma FloorExact(x: int, sum: int, k: nat)
    requires k > 0 && x * k <= sum < (x + 1) * k && sum >= 0
    ensures x == sum / k
  {
    FloorAtLeast(x, sum, k);
    DivMod(sum, k);
    MulMonotone(x + 1, sum / k, k);
  }

  lemma LessFactor(a: int, b: int, n: nat)
    requires a * n < b * n
    ensures a < b
  {
    MulMonotone(b, a, n);
  }

  /** With only the low half kept, the orphans fit under the high half. */
  lemma LowHalf(s: seq<LoadInfo>, additional: int, k: nat, m: int)
    requires additional >= 0 && Loads(s) && 0 < k < |s|
    requires forall i :: 0 <= i < k ==> s[i].Load() == m
    requires forall i :: k <= i < |s| ==> s[i].Load() == m + 1
    requires additional + Sum(s, |s|) <= (m + 1) * |s|
    ensures m * k <= additional + Sum(s, k) <= (m + 1) * k
  {
    SumOfEqual(s, k, m);
    SumSplit(s, k, |s|, m + 1);
    Distribute(m + 1, k, |s| - k);
  }

  lemma Distribute(x: int, a: int, b: int)
    ensures x * (a + b) == x * a + x * b
  {
  }

  lemma TargetBetween(sum: int, k: nat, m: int, i: nat)
    requires k > 0 && sum >= 0 && m * k <= sum <= (m + 1) * k
    ensures m <= Target(sum, k, i) <= m + 1 && m <= sum / k
  {
    DivMod(sum, k);
    FloorAtLeast(m, sum, k);
    if sum == (m + 1) * k {
      assert (m + 2) * k == (m + 1) * k + k;
      FloorExact(m + 1, sum, k);
      assert sum % k == 0;
    } else {
      FloorExact(m, sum, k);
    }
  }

  /** Where a balanced list is cut, the loads step up by one. */
  lemma CutIsStep(s: seq<LoadInfo>, additional: int, k: nat)
    requires additional >= 0 && Loads(s) && Sorted(s) && Balanced(s) && 0 < k < |s|
    requires s[k - 1].Load() * |s| < additional + Sum(s, |s|) <= s[k].Load() * |s|
    ensures var c := s[k - 1].Load();
      (forall i :: 0 <= i < k ==> s[i].Load() == c) && (forall i :: k <= i < |s| ==> s[i].Load() == c + 1)
  {
    LessFactor(s[k - 1].Load(), s[k].Load(), |s|);
  }

  lemma TargetsBetween(sum: int, k: nat, m: int)
    requires k > 0 && sum >= 0 && m * k <= sum <= (m + 1) * k
    ensures m <= sum / k && forall i: nat :: i < k ==> m <= Target(sum, k, i) <= m + 1
  {
    TargetBetween(sum, k, m, 0);
    forall i: nat | i < k ensures m <= Target(sum, k, i) <= m + 1 {
      TargetBetween(sum, k, m, i);
    }
  }

  lemma WindowWhenCut(s: seq<LoadInfo>, additional: int, k: nat)
    requires additional >= 0 && Loads(s) && Sorted(s) && Balanced(s) && 0 < k < |s|
    requires s[k - 1].Load() * |s| < additional + Sum(s, |s|) <= s[k].Load() * |s|
    ensures var c, sum := s[k - 1].Load(), additional + Sum(s, k);
      && c <= sum / k && (forall i: nat :: i < k ==> c <= Target(sum, k, i) <= c + 1)
      && (forall i :: k <= i < |s| ==> s[i].Load() == c + 1)
  {
    CutIsStep(s, additional, k);
    LowHalf(s, additional, k, s[k - 1].Load());
    SumNonNegative(s, k);
    TargetsBetween(additional + Sum(s, k), k, s[k - 1].Load());
  }

  /** All loads after the split lie in a window of two. */
  lemma WindowOfTwo(s: seq<LoadInfo>, additional: int, k: nat, t: seq<LoadInfo>) returns (c: int)
    requires additional >= 0 && Loads(s) && Sorted(s) && Balanced(s) && Outcome(s, additional) == Ok((k, t)) && k > 0
    ensures k <= |s| && |t| == |s| && s[k - 1].Load() <= (additional + Sum(s, k)) / k
    ensures forall i :: 0 <= i < |t| ==> c <= t[i].Load() <= c + 1
  {
    RebalanceConserves(s, additional, k, t);
    OutcomeCases(s, additional, k, t);
    var n, sum := |s|, additional + Sum(s, k);
    KeptMeans(s, additional + Sum(s, |s|), n);
    LeveledShape(s, sum, k);
    if k == n {
      FloorAtLeast(s[k - 1].Load(), sum, k);
      c := sum / k;
    } else {
      c := s[k - 1].Load();
      WindowWhenCut(s, additional, k);
    }
  }

  /** If the live loads differ by at most one, nobody gives jobs away and the loads of all live
      syncers, returned or not, still differ by at most one. */
  lemma {:induction false} BalanceIsPreserved(s: seq<LoadInfo>, additional: int, k: nat, t: seq<LoadInfo>)
    requires additional >= 0 && Loads(s) && Sorted(s) && Balanced(s) && Outcome(s, additional) == Ok((k, t))
    ensures Balanced(t)
    ensures |t| == |s| && k <= |s| && forall i :: 0 <= i < k ==> t[i].added >= s[i].added
  {
    OutcomeCases(s, additional, k, t);
    if k > 0 {
      var c := WindowOfTwo(s, additional, k, t);
      NonNegativeExactly(s, additional, k, t);
    }
  }
}
