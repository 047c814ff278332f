/** The source log of a database or table, as its binlogs are served to the syncer. */
module Binlogs {
  import opened Progress

  datatype Kind = Upsert | Ddl

  /** One binlog: its commit sequence number, its kind, and the partitions it changes. */
  datatype Entry = Entry(at: Seq, kind: Kind, touches: set<int>)

  ghost predicate Ordered(log: seq<Entry>) {
    forall i, j :: 0 <= i < j < |log| ==> log[i].at < log[j].at
  }

  /** `log[i]` is the first binlog after `c`, the one a fetch from `c` returns first. */
  predicate IsNext(log: seq<Entry>, c: Seq, i: nat) {
    i < |log| && c < log[i].at && (i > 0 ==> log[i - 1].at <= c)
  }

  lemma NothingBetween(log: seq<Entry>, c: Seq, i: nat)
    requires Ordered(log) && IsNext(log, c, i)
    ensures forall k :: 0 <= k < |log| ==> log[k].at <= c || log[i].at <= log[k].at
  {
  }
}
