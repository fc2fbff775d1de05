/** The state a log of entries leads to. */
module Folds {
  import opened Session
  import opened Logs
  import opened Clusters

  // The state machine after the commands at 1..k.
  function Fold(log: seq<Entry>, k: nat): Sessions
    requires k < |log|
  {
    if k == 0 then map[] else Execute(Fold(log, k - 1), log[k].command)
  }

  lemma {:induction false} FoldSame(a: seq<Entry>, b: seq<Entry>, k: nat)
    requires Same(a, b, k + 1)
    ensures Fold(a, k) == Fold(b, k)
  {
    if k > 0 {
      FoldSame(a, b, k - 1);
    }
  }

  // The requests of the entries i + 1..j.
  function Requests(log: seq<Entry>, i: nat, j: nat): seq<Request>
    requires i <= j < |log|
  {
    if j == i then []
    else if log[j].command.Op? then Requests(log, i, j - 1) + [log[j].command.req]
    else Requests(log, i, j - 1)
  }

  lemma {:induction false} FoldReplays(log: seq<Entry>, i: nat, j: nat)
    requires i <= j < |log|
    ensures Fold(log, j) == Apply(Fold(log, i), Requests(log, i, j))
  {
    if j > i {
      FoldReplays(log, i, j - 1);
      if log[j].command.Op? {
        var requests := Requests(log, i, j);
        assert requests[..|requests| - 1] == Requests(log, i, j - 1);
      }
    }
  }
}
