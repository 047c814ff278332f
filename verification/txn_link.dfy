/** The chain of one-slot channels that keeps the results of concurrent ingests in launch order:
    every launched transaction waits for its predecessor's token, reports, and passes it on. */
module TxnLinks {
  import opened Progress

  datatype TxnContext = TxnContext(commitSeq: Seq, txnId: int, destTables: set<int>)

  datatype Outcome = Ingested | Triggered | Failed

  datatype TxnIngestResult = TxnIngestResult(context: TxnContext, outcome: Outcome)

  /** How far the goroutine of a launched transaction is inside `Ingest` and `Link.Done`. */
  datatype Phase = Ingesting | Waiting(outcome: Outcome) | Holding(outcome: Outcome) | Sent | Passed

  const COMMIT_CH_SIZE := 100

  /** `slots[i]` says whether the channel before transaction `i` holds a token; `taken` are the
      results already received from `ch`, the commit channel. */
  datatype Chain = Chain(txns: seq<TxnContext>, phases: seq<Phase>, slots: seq<bool>,
                         ch: seq<TxnIngestResult>, taken: seq<TxnIngestResult>)

  datatype Event =
    | Launch(t: TxnContext, triggered: bool)
    | IngestEnds(i: nat, outcome: Outcome)
    | Receive(i: nat)
    | Report(i: nat)
    | Notify(i: nat)
    | Take

  const Fresh: Chain := Chain([], [], [true], [], [])

  predicate WellFormed(c: Chain) { |c.phases| == |c.txns| && |c.slots| == |c.txns| + 1 }

  predicate Enabled(c: Chain, e: Event) {
    WellFormed(c) &&
    match e
    case Launch(_, _) => true
    case IngestEnds(i, outcome) => i < |c.txns| && c.phases[i].Ingesting? && !outcome.Triggered?
    case Receive(i) => i < |c.txns| && c.phases[i].Waiting? && c.slots[i]
    case Report(i) => i < |c.txns| && c.phases[i].Holding? && |c.ch| < COMMIT_CH_SIZE
    case Notify(i) => i < |c.txns| && c.phases[i].Sent? && !c.slots[i + 1]
    case Take => |c.ch| > 0
  }

  function Next(c: Chain, e: Event): Chain
    requires Enabled(c, e)
  {
    match e
    case Launch(t, triggered) =>
      c.(txns := c.txns + [t], phases := c.phases + [if triggered then Waiting(Triggered) else Ingesting],
         slots := c.slots + [false])
    case IngestEnds(i, outcome) => c.(phases := c.phases[i := Waiting(outcome)])
    case Receive(i) => c.(phases := c.phases[i := Holding(c.phases[i].outcome)], slots := c.slots[i := false])
    case Report(i) =>
      c.(phases := c.phases[i := Sent], ch := c.ch + [TxnIngestResult(c.txns[i], c.phases[i].outcome)])
    case Notify(i) => c.(phases := c.phases[i := Passed], slots := c.slots[i + 1 := true])
    case Take => c.(ch := c.ch[1..], taken := c.taken + [c.ch[0]])
  }

  predicate Early(p: Phase) { p.Ingesting? || p.Waiting? }

  predicate HasToken(p: Phase) { p.Holding? || p.Sent? }

  /** The token has passed `k` transactions. */
  ghost predicate TokenAt(c: Chain, k: nat) {
    && WellFormed(c) && k <= |c.txns|
    && (forall i :: 0 <= i < k ==> c.phases[i].Passed?)
    && (forall i :: k < i < |c.txns| ==> Early(c.phases[i]))
    && (forall i :: 0 <= i <= |c.txns| && i != k ==> !c.slots[i])
    && (k < |c.txns| ==> if c.slots[k] then Early(c.phases[k]) else HasToken(c.phases[k]))
    && (k == |c.txns| ==> c.slots[k])
    && |c.taken| + |c.ch| == (if k < |c.txns| && c.phases[k].Sent? then k + 1 else k)
    && (forall j :: 0 <= j < |c.taken + c.ch| ==> (c.taken + c.ch)[j].context == c.txns[j])
  }

  ghost predicate Linked(c: Chain) { exists k: nat :: TokenAt(c, k) }

  lemma LaunchKeepsToken(c: Chain, k: nat, t: TxnContext, triggered: bool)
    requires TokenAt(c, k)
    ensures TokenAt(Next(c, Launch(t, triggered)), k)
  {
  }

  lemma ReportKeepsToken(c: Chain, k: nat, e: Event)
    requires TokenAt(c, k) && Enabled(c, e) && (e.Report? || e.Take?)
    ensures TokenAt(Next(c, e), k)
  {
    if e.Take? {
      assert Next(c, e).taken + Next(c, e).ch == c.taken + c.ch;
    } else {
      assert Next(c, e).taken + Next(c, e).ch == (c.taken + c.ch) + [TxnIngestResult(c.txns[e.i], c.phases[e.i].outcome)];
    }
  }

  lemma StepKeepsToken(c: Chain, k: nat, e: Event) returns (k': nat)
    requires TokenAt(c, k) && Enabled(c, e)
    ensures TokenAt(Next(c, e), k')
  {
    k' := if e.Notify? then k + 1 else k;
    if e.Launch? {
      LaunchKeepsToken(c, k, e.t, e.triggered);
    } else if e.Take? || e.Report? {
      ReportKeepsToken(c, k, e);
    }
  }

  lemma StepKeepsLinked(c: Chain, e: Event)
    requires Linked(c) && Enabled(c, e)
    ensures Linked(Next(c, e))
  {
    var k: nat :| TokenAt(c, k);
    var k' := StepKeepsToken(c, k, e);
  }

  ghost predicate CanRun(c: Chain, es: seq<Event>)
    decreases |es|
  {
    es == [] || (Enabled(c, es[0]) && CanRun(Next(c, es[0]), es[1..]))
  }

  ghost function Run(c: Chain, es: seq<Event>): Chain
    requires CanRun(c, es)
    decreases |es|
  {
    if es == [] then c else Run(Next(c, es[0]), es[1..])
  }

  lemma {:induction false} RunKeepsLinked(c: Chain, es: seq<Event>)
    requires Linked(c) && CanRun(c, es)
    ensures Linked(Run(c, es))
    decreases |es|
  {
    if es != [] {
      StepKeepsLinked(c, es[0]);
      RunKeepsLinked(Next(c, es[0]), es[1..]);
    }
  }

  datatype Place = InSlot(i: nat) | InGoroutine(i: nat)

  /** Where a token is: in a channel, or with a goroutine between its receive and its send. */
  predicate Holds(c: Chain, p: Place) {
    match p
    case InSlot(i) => i < |c.slots| && c.slots[i]
    case InGoroutine(i) => i < |c.phases| && HasToken(c.phases[i])
  }

  /** However the goroutines interleave: results are received in launch order without a gap, and
      there is exactly one token. */
  lemma {:induction false} InLaunchOrder(es: seq<Event>) returns (p: Place)
    requires CanRun(Fresh, es)
    ensures var c := Run(Fresh, es);
      && |c.taken + c.ch| <= |c.txns|
      && (forall j :: 0 <= j < |c.taken + c.ch| ==> (c.taken + c.ch)[j].context == c.txns[j])
      && Holds(c, p) && (forall q :: Holds(c, q) ==> q == p)
  {
    assert TokenAt(Fresh, 0);
    RunKeepsLinked(Fresh, es);
    var k: nat :| TokenAt(Run(Fresh, es), k);
    p := OneToken(Run(Fresh, es), k);
  }

  lemma OneToken(c: Chain, k: nat) returns (p: Place)
    requires TokenAt(c, k)
    ensures |c.taken + c.ch| <= |c.txns|
    ensures Holds(c, p) && (forall q :: Holds(c, q) ==> q == p)
  {
    p := if c.slots[k] then InSlot(k) else InGoroutine(k);
  }

  /** The outcome of transaction `i` is known to its goroutine, or reported, as `o`. */
  predicate Says(c: Chain, i: nat, o: Outcome) {
    || (i < |c.phases| && (c.phases[i].Waiting? || c.phases[i].Holding?) && c.phases[i].outcome == o)
    || (i < |c.taken + c.ch| && (c.taken + c.ch)[i].outcome == o)
  }

  /** An outcome is told once, by the end of the ingest or at the launch, and passed on unchanged. */
  lemma OutcomeIsOwn(c: Chain, k: nat, e: Event, i: nat, o: Outcome)
    requires TokenAt(c, k) && Enabled(c, e)
    ensures Says(Next(c, e), i, o) <==>
            Says(c, i, o) || e == IngestEnds(i, o) || (e.Launch? && e.triggered && i == |c.txns| && o.Triggered?)
  {
    var c' := Next(c, e);
    if e.Take? {
      assert c'.taken + c'.ch == c.taken + c.ch;
    } else if e.Report? {
      assert c'.taken + c'.ch == (c.taken + c.ch) + [TxnIngestResult(c.txns[e.i], c.phases[e.i].outcome)];
    }
  }

  /** Transaction `i` is the first not done with its link, and it is ingesting or can move. */
  predicate Moving(c: Chain, i: nat) {
    && WellFormed(c) && i < |c.txns| && (forall j :: 0 <= j < i ==> c.phases[j].Passed?)
    && (c.phases[i].Ingesting? || Enabled(c, Receive(i)) || Enabled(c, Report(i)) || Enabled(c, Notify(i)))
  }

  /** The chain never jams: while some result is missing and the commit channel has room, the
      first transaction not done with its link is still ingesting, or its goroutine can move. */
  lemma {:induction false} NeverJams(es: seq<Event>) returns (i: nat)
    requires CanRun(Fresh, es)
    requires |Run(Fresh, es).taken + Run(Fresh, es).ch| < |Run(Fresh, es).txns|
    requires |Run(Fresh, es).ch| < COMMIT_CH_SIZE
    ensures Moving(Run(Fresh, es), i)
  {
    assert TokenAt(Fresh, 0);
    RunKeepsLinked(Fresh, es);
    i :| TokenAt(Run(Fresh, es), i);
  }
}
