/** The window that bounds concurrent ingests on one backend: a counter, a lock and a condition
    variable, used by any number of goroutines. */
module ConcurrencyWindows {

  /** `waiting` are asleep on the condition in the order they went to sleep; `woken` were signalled
      and have yet to take the lock again; `holders` are inside the window. */
  datatype State = State(max: int, inflights: int, waiting: seq<int>, woken: set<int>, holders: set<int>)

  /** Each event is one stay inside the lock.  `Arrive` may come at any time, also between a signal
      and the moment the signalled goroutine runs. */
  datatype Event = Arrive(g: int) | Rerun(g: int) | Release(g: int)

  /** The test at the head of the wait loop. */
  function TryEnter(s: State, g: int): State {
    if s.inflights + 1 > s.max then s.(waiting := s.waiting + [g])
    else s.(inflights := s.inflights + 1, holders := s.holders + {g})
  }

  function Signal(s: State): State {
    if s.waiting == [] then s else s.(waiting := s.waiting[1..], woken := s.woken + {s.waiting[0]})
  }

  function Next(s: State, e: Event): State {
    match e
    case Arrive(g) => TryEnter(s, g)
    case Rerun(g) => TryEnter(s.(woken := s.woken - {g}), g)
    case Release(g) =>
      if s.inflights == 0 then s
      else Signal(s.(inflights := s.inflights - 1, holders := s.holders - {g}))
  }

  predicate Outside(s: State, g: int) { g !in s.waiting && g !in s.woken && g !in s.holders }

  predicate Enabled(s: State, e: Event) {
    match e
    case Arrive(g) => Outside(s, g)
    case Rerun(g) => g in s.woken
    case Release(g) => g in s.holders
  }

  predicate CanRun(s: State, es: seq<Event>)
    decreases |es|
  {
    es == [] || (Enabled(s, es[0]) && CanRun(Next(s, es[0]), es[1..]))
  }

  function Run(s: State, es: seq<Event>): State
    requires CanRun(s, es)
    decreases |es|
  {
    if es == [] then s else Run(Next(s, es[0]), es[1..])
  }

  ghost predicate Inv(s: State) {
    && s.max >= 1 && 0 <= s.inflights <= s.max && s.inflights == |s.holders|
    && (s.waiting != [] ==> s.inflights + |s.woken| >= s.max)
    && (forall i, j :: 0 <= i < j < |s.waiting| ==> s.waiting[i] != s.waiting[j])
    && (forall g :: g in s.waiting ==> g !in s.woken && g !in s.holders)
    && s.woken !! s.holders
  }

  lemma StepKeeps(s: State, e: Event)
    requires Inv(s) && Enabled(s, e)
    ensures Inv(Next(s, e))
  {
    match e
    case Arrive(g) => EnterKeeps(s, g);
    case Rerun(g) => EnterKeeps(s, g);
    case Release(g) => ReleaseKeeps(s, g);
  }

  lemma EnterKeeps(s: State, g: int)
    requires Inv(s) && g !in s.waiting && g !in s.holders
    ensures Inv(TryEnter(s.(woken := s.woken - {g}), g))
    ensures g !in s.woken ==> s.woken - {g} == s.woken
  {
    var s' := TryEnter(s.(woken := s.woken - {g}), g);
    assert s.woken <= s'.woken + {g};
  }

  lemma ReleaseKeeps(s: State, g: int)
    requires Inv(s) && g in s.holders
    ensures Inv(Next(s, Release(g)))
  {
    assert |s.holders - {g}| == |s.holders| - 1;
    if s.waiting != [] {
      var w := s.waiting[0];
      assert w in s.waiting;
      assert w !in s.woken && w !in s.holders;
      assert |s.woken + {w}| == |s.woken| + 1;
    }
  }

  lemma {:induction false} RunKeeps(s: State, es: seq<Event>)
    requires Inv(s) && CanRun(s, es)
    ensures Inv(Run(s, es))
    decreases |es|
  {
    if es != [] {
      StepKeeps(s, es[0]);
      RunKeeps(Next(s, es[0]), es[1..]);
    }
  }

  /** No wakeup is lost: the window never holds more than its limit, and whoever sleeps does so
      because the window is full or enough others are already on their way to fill it.  In
      particular, when everybody woken has run, sleepers and free places never meet. */
  lemma {:induction false} NoLostWakeup(max: int, es: seq<Event>)
    requires max >= 1 && CanRun(State(max, 0, [], {}, {}), es)
    ensures var s := Run(State(max, 0, [], {}, {}), es);
      && 0 <= s.inflights <= s.max == max && s.inflights == |s.holders|
      && (s.waiting != [] ==> s.inflights + |s.woken| >= max)
      && (s.waiting != [] && s.woken == {} ==> s.inflights == max && s.holders != {})
  {
    RunKeeps(State(max, 0, [], {}, {}), es);
    MaxStays(State(max, 0, [], {}, {}), es);
  }

  lemma {:induction false} MaxStays(s: State, es: seq<Event>)
    requires CanRun(s, es)
    ensures Run(s, es).max == s.max
    decreases |es|
  {
    if es != [] {
      MaxStays(Next(s, es[0]), es[1..]);
    }
  }

  /** Everybody gets out of the way of a sleeper: when all woken goroutines have run and all holders
      released, nobody sleeps. */
  lemma {:induction false} SleepersAreServed(max: int, es: seq<Event>)
    requires max >= 1 && CanRun(State(max, 0, [], {}, {}), es)
    requires Run(State(max, 0, [], {}, {}), es).woken == {} && Run(State(max, 0, [], {}, {}), es).holders == {}
    ensures Run(State(max, 0, [], {}, {}), es).waiting == []
  {
    NoLostWakeup(max, es);
  }

  /** In every reachable state: who comes is let in exactly if there is room and otherwise goes to sleep
      behind the others, and nobody else moves. */
  lemma {:induction false} EntersExactly(max: int, es: seq<Event>, e: Event)
    requires max >= 1 && CanRun(State(max, 0, [], {}, {}), es) && !e.Release?
    requires Enabled(Run(State(max, 0, [], {}, {}), es), e)
    ensures var s := Run(State(max, 0, [], {}, {}), es); var s' := Next(s, e);
      && s'.woken == s.woken - {e.g}
      && (if |s.holders| < max then s'.holders == s.holders + {e.g} && s'.waiting == s.waiting
          else s'.holders == s.holders && s'.waiting == s.waiting + [e.g])
  {
    NoLostWakeup(max, es);
  }

  /** Who releases is out, and the one that has slept longest is woken and will find room if it is the
      next to run. */
  lemma {:induction false} ReleaseServes(max: int, es: seq<Event>, g: int)
    requires max >= 1 && CanRun(State(max, 0, [], {}, {}), es) && g in Run(State(max, 0, [], {}, {}), es).holders
    ensures var s := Run(State(max, 0, [], {}, {}), es); var s' := Next(s, Release(g));
      && s'.holders == s.holders - {g}
      && (if s.waiting == [] then s'.waiting == [] && s'.woken == s.woken
          else s'.waiting == s.waiting[1..] && s'.woken == s.woken + {s.waiting[0]} && s.waiting[0] in Next(s', Rerun(s.waiting[0])).holders)
  {
    RunKeeps(State(max, 0, [], {}, {}), es);
    MaxStays(State(max, 0, [], {}, {}), es);
  }

  /** The window itself; each method body is one stay inside the lock. */
  class ConcurrencyWindow {
    const max: int
    var inflights: int
    ghost var waiting: seq<int>
    ghost var woken: set<int>
    ghost var holders: set<int>

    constructor (max: int)
      ensures View() == State(max, 0, [], {}, {})
    {
      this.max := max;
      inflights, waiting, woken, holders := 0, [], {}, {};
    }

    ghost function View(): State
      reads this
    {
      State(max, inflights, waiting, woken, holders)
    }

    /** From taking the lock to entering the window or going to sleep. */
    method AcquireTurn(g: int, ghost e: Event) returns (entered: bool)
      requires e == Arrive(g) || e == Rerun(g)
      modifies this
      ensures View() == Next(old(View()), e)
      ensures entered <==> old(inflights) + 1 <= max
    {
      if e.Rerun? {
        woken := woken - {g};
      }
      if inflights + 1 > max {
        waiting := waiting + [g];
        return false;
      }
      inflights := inflights + 1;
      holders := holders + {g};
      return true;
    }

    method ReleaseTurn(g: int) returns (signalled: bool)
      modifies this
      ensures View() == Next(old(View()), Release(g))
      ensures signalled <==> old(inflights) != 0
    {
      if inflights == 0 {
        return false;
      }
      inflights := inflights - 1;
      holders := holders - {g};
      if waiting != [] {
        woken := woken + {waiting[0]};
        waiting := waiting[1..];
      }
      return true;
    }
  }
}
