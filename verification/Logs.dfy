/** Raft log entries and the comparison of logs by absolute index. */
module Logs {
  import opened Session

  // What a log entry carries: nothing (the sentinel and the head of a compacted
  // log) or an operation submitted through the replicated state machine layer.
  datatype Command = NoCommand | Op(req: Request, id: int)

  datatype Entry = Entry(term: nat, command: Command)

  const SENTINEL: Entry := Entry(0, NoCommand)

  // The first n entries of both logs exist and are equal.
  ghost predicate Same(a: seq<Entry>, b: seq<Entry>, n: int) {
    n <= |a| && n <= |b| && forall k :: 0 <= k < n ==> a[k] == b[k]
  }

  ghost predicate Sorted(log: seq<Entry>) {
    forall j, k :: 0 <= j <= k < |log| ==> log[j].term <= log[k].term
  }

  function Last(log: seq<Entry>): Entry
    requires |log| > 0
  {
    log[|log| - 1]
  }

  // The vote test of section 5.4.1 of the Raft paper: b is at least as up to date as a.
  predicate UpToDate(a: seq<Entry>, b: seq<Entry>)
    requires |a| > 0 && |b| > 0
  {
    Last(a).term < Last(b).term || (Last(a).term == Last(b).term && |a| <= |b|)
  }
}
