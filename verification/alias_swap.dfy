/** The tail of a sync that restored tables under aliases: each alias replaces its table.  The
    process may die after any replacement and will run the whole loop again. */
module AliasSwap {
  import opened Wrappers

  /** The destination's tables and what they hold. */
  class DestTables<C> {
    var tables: map<string, C>

    method CheckTableExistsByName(name: string) returns (exist: bool)
      ensures exist == (name in tables)
    {
      exist := name in tables;
    }

    /** The table `name` is dropped and `alias` takes its name; refused when either is missing. */
    method ReplaceTable(alias: string, name: string) returns (ok: bool)
      modifies this
      ensures ok == (alias in old(tables) && name in old(tables) && alias != name)
      ensures tables == if ok then Moved(old(tables), alias, name) else old(tables)
    {
      ok := alias in tables && name in tables && alias != name;
      if ok {
        var content := tables[alias];
        tables := (tables - {alias})[name := content];
      }
    }

    method RenameTable(alias: string, name: string) returns (ok: bool)
      modifies this
      ensures ok == (alias in old(tables) && name !in old(tables))
      ensures tables == if ok then Moved(old(tables), alias, name) else old(tables)
    {
      ok := alias in tables && name !in tables;
      if ok {
        var content := tables[alias];
        tables := (tables - {alias})[name := content];
      }
    }
  }

  function Moved<C>(tables: map<string, C>, alias: string, name: string): map<string, C>
    requires alias in tables
  {
    (tables - {alias})[name := tables[alias]]
  }

  /** Targets map to aliases: the aliases are distinct and none is itself a target. */
  ghost predicate WellAliased(aliases: map<string, string>) {
    && (forall s, t :: s in aliases && t in aliases && s != t ==> aliases[s] != aliases[t])
    && (forall s, t :: s in aliases && t in aliases ==> aliases[s] != t)
  }

  /** Just restored: every target and every alias is there. */
  ghost predicate JustRestored<C>(tables: map<string, C>, aliases: map<string, string>) {
    forall t :: t in aliases ==> t in tables && aliases[t] in tables
  }

  /** The tables once the targets in `done` hold the restored contents of `from`. */
  ghost function SwappedIn<C>(from: map<string, C>, aliases: map<string, string>, done: set<string>): map<string, C>
    requires JustRestored(from, aliases)
  {
    map name | name in from && !(exists t :: t in done && t in aliases && aliases[t] == name)
      :: if name in done && name in aliases then from[aliases[name]] else from[name]
  }

  /** One turn of the loop. */
  function SwapOne<C>(tables: map<string, C>, aliases: map<string, string>, t: string): map<string, C>
    requires t in aliases
  {
    if aliases[t] in tables && t in tables && aliases[t] != t then Moved(tables, aliases[t], t) else tables
  }

  lemma SwapOneMore<C(!new)>(from: map<string, C>, aliases: map<string, string>, done: set<string>, t: string)
    requires JustRestored(from, aliases) && WellAliased(aliases) && t in aliases && done <= aliases.Keys
    ensures SwapOne(SwappedIn(from, aliases, done), aliases, t) == SwappedIn(from, aliases, done + {t})
    ensures t in SwappedIn(from, aliases, done)
    ensures aliases[t] in SwappedIn(from, aliases, done) <==> t !in done
  {
    var m, m' := SwappedIn(from, aliases, done), SwappedIn(from, aliases, done + {t});
    var r := SwapOne(m, aliases, t);
    forall name ensures name in r <==> name in m' {
      if name == aliases[t] {
        assert t in done + {t} && aliases[t] == name;
      }
    }
    forall name | name in m' ensures r[name] == m'[name] {}
  }

  /** One run of the loop that ended early: its order, and how many turns took effect. */
  datatype Attempt = Attempt(order: seq<string>, reached: nat)

  ghost function RunTurns<C>(tables: map<string, C>, aliases: map<string, string>, order: seq<string>, n: nat): map<string, C>
    requires n <= |order| && forall t :: t in order ==> t in aliases
  {
    if n == 0 then tables else SwapOne(RunTurns(tables, aliases, order, n - 1), aliases, order[n - 1])
  }

  ghost function Visited(order: seq<string>, n: nat): set<string>
    requires n <= |order|
  {
    if n == 0 then {} else Visited(order, n - 1) + {order[n - 1]}
  }

  lemma {:induction false} VisitedAre(order: seq<string>, n: nat)
    requires n <= |order|
    ensures forall t :: t in Visited(order, n) <==> exists i :: 0 <= i < n && order[i] == t
  {
    if n > 0 {
      VisitedAre(order, n - 1);
    }
  }

  lemma AddNothing(done: set<string>)
    ensures done + {} == done
  {
  }

  lemma AddOne(done: set<string>, order: seq<string>, n: nat)
    requires 0 < n <= |order|
    ensures done + Visited(order, n) == done + Visited(order, n - 1) + {order[n - 1]}
  {
  }

  lemma {:induction false} TurnsSwap<C(!new)>(from: map<string, C>, aliases: map<string, string>, done: set<string>, order: seq<string>, n: nat)
    requires JustRestored(from, aliases) && WellAliased(aliases) && done <= aliases.Keys
    requires n <= |order| && forall t :: t in order ==> t in aliases
    ensures RunTurns(SwappedIn(from, aliases, done), aliases, order, n) == SwappedIn(from, aliases, done + Visited(order, n))
    ensures done + Visited(order, n) <= aliases.Keys
  {
    if n == 0 {
      AddNothing(done);
    } else {
      TurnsSwap(from, aliases, done, order, n - 1);
      AddOne(done, order, n);
      SwapOneMore(from, aliases, done + Visited(order, n - 1), order[n - 1]);
    }
  }

  ghost predicate ValidAttempts(attempts: seq<Attempt>, aliases: map<string, string>) {
    forall a :: a in attempts ==> a.reached <= |a.order| && Enumerates(a.order, aliases.Keys)
  }

  /** Runs of the loop that all died on the way, each having gone through the aliases in an order of
      its own. */
  ghost function RunAttempts<C>(tables: map<string, C>, aliases: map<string, string>, attempts: seq<Attempt>): map<string, C>
    requires ValidAttempts(attempts, aliases)
  {
    if attempts == [] then tables
    else
      var last := attempts[|attempts| - 1];
      assert last in attempts;
      RunTurns(RunAttempts(tables, aliases, attempts[..|attempts| - 1]), aliases, last.order, last.reached)
  }

  lemma {:induction false} AttemptsSwap<C(!new)>(from: map<string, C>, aliases: map<string, string>, attempts: seq<Attempt>)
    returns (done: set<string>)
    requires JustRestored(from, aliases) && WellAliased(aliases) && ValidAttempts(attempts, aliases)
    ensures done <= aliases.Keys && RunAttempts(from, aliases, attempts) == SwappedIn(from, aliases, done)
  {
    if attempts == [] {
      done := {};
      assert SwappedIn(from, aliases, {}) == from;
    } else {
      var last := attempts[|attempts| - 1];
      assert last in attempts;
      done := AttemptsSwap(from, aliases, attempts[..|attempts| - 1]);
      TurnsSwap(from, aliases, done, last.order, last.reached);
      done := done + Visited(last.order, last.reached);
    }
  }

  /** However often the process died on the way, the run that gets through leaves every target with
      its restored content, no alias, and every other table as it was. */
  lemma {:induction false} SwapSurvivesCrashes<C(!new)>(from: map<string, C>, aliases: map<string, string>, attempts: seq<Attempt>, order: seq<string>)
    requires JustRestored(from, aliases) && WellAliased(aliases)
    requires ValidAttempts(attempts, aliases) && Enumerates(order, aliases.Keys)
    ensures var end := RunTurns(RunAttempts(from, aliases, attempts), aliases, order, |order|);
      && (forall t :: t in aliases ==> t in end && end[t] == from[aliases[t]])
      && (forall t :: t in aliases ==> aliases[t] !in end)
      && (forall name :: name !in aliases && name !in aliases.Values ==> (name in end <==> name in from))
      && (forall name :: name in end && name !in aliases ==> name in from && end[name] == from[name])
  {
    var done := AttemptsSwap(from, aliases, attempts);
    TurnsSwap(from, aliases, done, order, |order|);
    VisitedAre(order, |order|);
    assert done + Visited(order, |order|) == aliases.Keys;
  }

  /** A turn is refused when the alias is there and the table it should replace is not. */
  predicate Allowed<C>(tables: map<string, C>, aliases: map<string, string>, t: string) {
    t in aliases && (aliases[t] in tables ==> t in tables && aliases[t] != t)
  }

  /** The body of the loop: a replacement is tried only while the alias exists. */
  method SwapTurn<C(!new)>(dest: DestTables<C>, aliases: map<string, string>, table: string) returns (ok: bool)
    requires table in aliases
    modifies dest
    ensures ok == Allowed(old(dest.tables), aliases, table)
    ensures !ok <==> aliases[table] in old(dest.tables) && (table !in old(dest.tables) || aliases[table] == table)
    ensures dest.tables == SwapOne(old(dest.tables), aliases, table)
  {
    ok := true;
    var alias := aliases[table];
    var exist := dest.CheckTableExistsByName(alias);
    if exist {
      ok := dest.ReplaceTable(alias, table);
    }
  }

  /** None of the first `n` turns is refused. */
  ghost predicate AllAllowed<C>(tables: map<string, C>, aliases: map<string, string>, order: seq<string>, n: nat)
    requires n <= |order| && forall t :: t in order ==> t in aliases
  {
    n == 0 || (AllAllowed(tables, aliases, order, n - 1) && Allowed(RunTurns(tables, aliases, order, n - 1), aliases, order[n - 1]))
  }

  lemma {:induction false} RefusedForGood<C>(tables: map<string, C>, aliases: map<string, string>, order: seq<string>, i: nat, n: nat)
    requires i <= n <= |order| && (forall t :: t in order ==> t in aliases) && !AllAllowed(tables, aliases, order, i)
    ensures !AllAllowed(tables, aliases, order, n)
  {
    if i < n {
      RefusedForGood(tables, aliases, order, i, n - 1);
    }
  }

  /** The loop of the full sync.  Turn `stops` is where the process dies or a call fails; the call
      may still have taken effect.  `turns` counts those that did. */
  method SwapAliases<C(!new)>(dest: DestTables<C>, aliases: map<string, string>, order: seq<string>, stops: nat, lands: bool)
    returns (ok: bool, ghost turns: nat)
    requires Enumerates(order, aliases.Keys) && stops <= |order|
    modifies dest
    ensures turns <= |order| && dest.tables == RunTurns(old(dest.tables), aliases, order, turns)
    ensures ok <==> stops == |order| && AllAllowed(old(dest.tables), aliases, order, |order|)
    ensures ok ==> turns == |order|
  {
    ghost var start := dest.tables;
    for i := 0 to |order|
      invariant i <= stops && dest.tables == RunTurns(start, aliases, order, i) && AllAllowed(start, aliases, order, i)
    {
      if i == stops && !lands {
        return false, i;
      }
      var replaced := SwapTurn(dest, aliases, order[i]);
      if !replaced {
        RefusedForGood(start, aliases, order, i + 1, |order|);
        return false, i + 1;
      }
      if i == stops {
        return false, i + 1;
      }
    }
    return true, |order|;
  }

  /** Right after a restore, and however often the loop died since, no turn is refused. */
  lemma {:induction false} NeverRefused<C(!new)>(from: map<string, C>, aliases: map<string, string>, attempts: seq<Attempt>, order: seq<string>, n: nat)
    requires JustRestored(from, aliases) && WellAliased(aliases)
    requires ValidAttempts(attempts, aliases) && Enumerates(order, aliases.Keys) && n < |order|
    ensures Allowed(RunTurns(RunAttempts(from, aliases, attempts), aliases, order, n), aliases, order[n])
  {
    var done := AttemptsSwap(from, aliases, attempts);
    TurnsSwap(from, aliases, done, order, n);
    assert order[n] in aliases;
    SwapOneMore(from, aliases, done + Visited(order, n), order[n]);
  }

  // ----- The single alias of a partial sync -----

  /** The target may be missing here: then the alias is renamed. */
  function PartialSwapped<C>(tables: map<string, C>, alias: string, target: string): map<string, C> {
    if alias in tables && alias != target then Moved(tables, alias, target) else tables
  }

  method SwapPartial<C>(dest: DestTables<C>, alias: string, target: string, dies: bool, lands: bool) returns (ok: bool)
    modifies dest
    ensures ok == (!dies && !(alias == target && alias in old(dest.tables)))
    ensures dest.tables == if dies && !lands then old(dest.tables) else PartialSwapped(old(dest.tables), alias, target)
  {
    if dies && !lands {
      return false;
    }
    ok := true;
    var exist := dest.CheckTableExistsByName(alias);
    if exist {
      var exists' := dest.CheckTableExistsByName(target);
      if exists' {
        ok := dest.ReplaceTable(alias, target);
      } else {
        ok := dest.RenameTable(alias, target);
      }
    }
    ok := ok && !dies;
  }

  /** Attempts that died, each with or without its effect. */
  function RunPartial<C>(tables: map<string, C>, alias: string, target: string, landed: seq<bool>): map<string, C> {
    if landed == [] then tables
    else
      var before := RunPartial(tables, alias, target, landed[..|landed| - 1]);
      if landed[|landed| - 1] then PartialSwapped(before, alias, target) else before
  }

  lemma {:induction false} PartialSwapSurvivesCrashes<C(!new)>(from: map<string, C>, alias: string, target: string, landed: seq<bool>)
    requires alias in from && alias != target
    ensures var end := PartialSwapped(RunPartial(from, alias, target, landed), alias, target);
      && target in end && end[target] == from[alias] && alias !in end
      && (forall name :: name != alias && name != target ==> (name in end <==> name in from))
      && (forall name :: name in end && name != target ==> name in from && end[name] == from[name])
      && (RunPartial(from, alias, target, landed) == from || RunPartial(from, alias, target, landed) == end)
  {
    if landed != [] {
      PartialSwapSurvivesCrashes(from, alias, target, landed[..|landed| - 1]);
    }
  }
}
