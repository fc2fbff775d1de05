/** Log repair: the rounds between one leader and one follower end with equal logs. */
module Repair {
  import opened Logs
  import opened Protocol
  import opened Steps
  import opened Peers
  import opened Clusters
  import opened Refinement
  import opened RequestRefinement
  import opened ReplyRefinement
  import opened Replicas
  import opened Theorems

  // One round: the leader sends, the follower answers, the leader takes the answer.
  function RoundTrip(l: Peer, f: Peer, i: nat): (Peer, Peer, bool)
    requires l.Safe() && l.role == Leader && i < l.n && i != l.me
  {
    match Build(l, i)
    case SendInstall(a) =>
      var (g, r) := InstallSnapshot(f, a);
      (OnInstallReply(l, i, a, r), g, false)
    case SendAppend(a) =>
      var (g, r) := AppendEntries(f, a);
      (OnAppendReply(l, i, a, r), g, r.success)
  }

  ghost predicate MatchingAt(a: seq<Entry>, b: seq<Entry>, j: int, k: int) {
    0 <= j < |a| && 0 <= k < |b| && a[j].term == b[k].term ==> Same(a, b, Min(j, k) + 1)
  }

  // Two logs made from the same leaders' logs: where both have an entry of one
  // term, they agree up to the earlier of the two.
  ghost predicate Matching(a: seq<Entry>, b: seq<Entry>) {
    forall j, k :: MatchingAt(a, b, j, k)
  }

  // A leader with log wl and a follower with log wf that reached no later term:
  // the logs match, and the leader's log starts with the follower's snapshot.
  ghost predicate Repairable(l: Peer, f: Peer, i: nat, wl: seq<Entry>, wf: seq<Entry>) {
    && l.Safe() && l.role == Leader && i < l.n && i != l.me
    && f.currentTerm <= l.currentTerm
    && Window(l.log, l.lastIncludedIndex, wl) && l.lastIncludedTerm == l.log[0].term
    && Window(f.log, f.lastIncludedIndex, wf)
    && Sorted(wl) && Matching(wl, wf)
    && Same(wl, wf, f.lastIncludedIndex + 1)
  }

  // What every round that does not succeed makes smaller.
  function Rank(l: Peer, f: Peer, i: nat): nat
    requires i < |l.nextIndex|
  {
    var next := l.nextIndex[i];
    if next <= l.lastIncludedIndex then 2
    else if next == f.lastIncludedIndex + 1 then 0
    else if next <= f.lastIncludedIndex then 1
    else 3 + next
  }

  // The follower's log after a round.
  function After(l: Peer, i: nat, wl: seq<Entry>, wf: seq<Entry>, f: Peer): seq<Entry>
    requires i < |l.nextIndex|
  {
    var k := l.lastIncludedIndex;
    if l.nextIndex[i] <= k && f.lastIncludedIndex < k && k < |wl| && !(k < |wf| && wf[k].term == wl[k].term)
    then wl[..k + 1] else wf
  }

  // ------------------------------------------------------------ install rounds

  lemma InstallRound(l: Peer, f: Peer, i: nat, wl: seq<Entry>, wf: seq<Entry>)
    requires Repairable(l, f, i, wl, wf) && l.nextIndex[i] <= l.lastIncludedIndex
    ensures var (l', f', ok) := RoundTrip(l, f, i);
            Repairable(l', f', i, wl, After(l, i, wl, wf, f)) && Rank(l', f', i) < Rank(l, f, i) && !ok
  {
    var (l', f', ok) := RoundTrip(l, f, i);
    if f.lastIncludedIndex < l.lastIncludedIndex {
      AfterMatches(l, f, i, wl, wf);
      InstalledHere(l, f, i, wl, wf);
    }
  }

  lemma AfterMatches(l: Peer, f: Peer, i: nat, wl: seq<Entry>, wf: seq<Entry>)
    requires Repairable(l, f, i, wl, wf) && l.nextIndex[i] <= l.lastIncludedIndex
    requires f.lastIncludedIndex < l.lastIncludedIndex
    ensures Matching(wl, After(l, i, wl, wf, f)) && Same(wl, After(l, i, wl, wf, f), l.lastIncludedIndex + 1)
  {
    var k, w := l.lastIncludedIndex, After(l, i, wl, wf, f);
    assert MatchingAt(wl, wf, k, k);
    forall j, m
      ensures MatchingAt(wl, w, j, m)
    {
      assert MatchingAt(wl, wf, j, m);
    }
  }

  lemma InstalledHere(l: Peer, f: Peer, i: nat, wl: seq<Entry>, wf: seq<Entry>)
    requires Repairable(l, f, i, wl, wf) && l.nextIndex[i] <= l.lastIncludedIndex
    requires f.lastIncludedIndex < l.lastIncludedIndex
    ensures var f' := InstallSnapshot(f, Build(l, i).install).0;
            && f'.currentTerm == l.currentTerm && f'.lastIncludedIndex == l.lastIncludedIndex
            && Window(f'.log, f'.lastIncludedIndex, After(l, i, wl, wf, f))
  {
    var k := l.lastIncludedIndex;
    WindowTerms(l.log, k, wl);
    WindowTerms(f.log, f.lastIncludedIndex, wf);
    WindowInstalled(f.log, f.lastIncludedIndex, wf, k, wl);
    InstalledLog(f, Build(l, i).install);
  }

  // ------------------------------------------------------------- append rounds

  // The hint of a rejection is below nextIndex, unless the follower has compacted past it.
  lemma HintBelow(l: Peer, f: Peer, i: nat, wl: seq<Entry>, wf: seq<Entry>)
    requires Repairable(l, f, i, wl, wf) && l.nextIndex[i] > l.lastIncludedIndex
    requires !AppendEntries(f, Build(l, i).append).1.success
    ensures l.nextIndex[i] != f.lastIncludedIndex + 1
    ensures var next := BackOff(l, AppendEntries(f, Build(l, i).append).1);
            if l.nextIndex[i] <= f.lastIncludedIndex then next == f.lastIncludedIndex + 1 else next < l.nextIndex[i]
  {
    var a := Build(l, i).append;
    BuiltEntries(l, i, wl);
    RejectionHint(f, a);
    WindowTerms(f.log, f.lastIncludedIndex, wf);
    var r := AppendEntries(f, a).1;
    if f.lastIncludedIndex <= a.prevLogIndex <= f.LastLogIndex() && LastOf(l.log, r.xTerm) != -1 {
      LastOfTermBelow(l, f, wl, wf, a.prevLogIndex);
    }
  }

  // Where the follower has another term than the leader, the leader's last entry
  // of the follower's term is earlier.
  lemma LastOfTermBelow(l: Peer, f: Peer, wl: seq<Entry>, wf: seq<Entry>, prev: nat)
    requires Window(l.log, l.lastIncludedIndex, wl) && Window(f.log, f.lastIncludedIndex, wf)
    requires Sorted(wl) && Matching(wl, wf)
    requires f.lastIncludedIndex <= prev <= f.LastLogIndex() && l.lastIncludedIndex <= prev <= l.LastLogIndex()
    requires wl[prev].term != f.At(prev).term
    ensures LastOf(l.log, f.At(prev).term) + l.lastIncludedIndex < prev
  {
    var k := LastOf(l.log, f.At(prev).term);
    assert MatchingAt(wl, wf, k + l.lastIncludedIndex, prev);
    WindowTerms(l.log, l.lastIncludedIndex, wl);
    WindowTerms(f.log, f.lastIncludedIndex, wf);
  }

  // An append round succeeds, or comes closer.
  lemma AppendRound(l: Peer, f: Peer, i: nat, wl: seq<Entry>, wf: seq<Entry>)
    requires Repairable(l, f, i, wl, wf) && l.nextIndex[i] > l.lastIncludedIndex
    ensures var (l', f', ok) := RoundTrip(l, f, i);
            if ok then Window(f'.log, f'.lastIncludedIndex, wl) && f'.lastIncludedIndex == f.lastIncludedIndex
                       && l'.matchIndex[i] == l.LastLogIndex()
            else Repairable(l', f', i, wl, wf) && Rank(l', f', i) < Rank(l, f, i)
  {
    var a := Build(l, i).append;
    if AppendEntries(f, a).1.success {
      BuiltEntries(l, i, wl);
      AppendedHere(f, a, wl, wf);
    } else {
      HintBelow(l, f, i, wl, wf);
      RejectedPeer(f, a);
    }
  }

  lemma AppendedHere(f: Peer, a: AppendArgs, wl: seq<Entry>, wf: seq<Entry>)
    requires Window(f.log, f.lastIncludedIndex, wf) && Matching(wl, wf) && AppendEntries(f, a).1.success
    requires a.prevLogIndex + 1 + |a.entries| == |wl| && a.prevLogTerm == wl[a.prevLogIndex].term
    requires forall k {:trigger a.entries[k]} :: 0 <= k < |a.entries| ==> a.entries[k] == wl[a.prevLogIndex + 1 + k]
    ensures var f' := AppendEntries(f, a).0;
            Window(f'.log, f'.lastIncludedIndex, wl) && f'.lastIncludedIndex == f.lastIncludedIndex
  {
    WindowTerms(f.log, f.lastIncludedIndex, wf);
    AcceptedLog(f, a);
    assert MatchingAt(wl, wf, a.prevLogIndex, a.prevLogIndex);
    WindowReplace(f.log, f.lastIncludedIndex, wf, a.prevLogIndex, a.entries, wl);
    Accepted(f, a);
  }

  // The entries a leader sends are the rest of its log.
  lemma BuiltEntries(l: Peer, i: nat, wl: seq<Entry>)
    requires l.Safe() && l.role == Leader && i < l.n && i != l.me && Window(l.log, l.lastIncludedIndex, wl)
    requires l.nextIndex[i] > l.lastIncludedIndex
    ensures var a := Build(l, i).append;
            && a.prevLogIndex == l.nextIndex[i] - 1 && a.prevLogIndex + 1 + |a.entries| == |wl|
            && a.prevLogTerm == wl[a.prevLogIndex].term
            && forall k {:trigger a.entries[k]} :: 0 <= k < |a.entries| ==> a.entries[k] == wl[a.prevLogIndex + 1 + k]
  {
    WindowTerms(l.log, l.lastIncludedIndex, wl);
  }

  // ---------------------------------------------------------------- termination

  // The rounds that repair the follower's log, the last of which succeeds.
  ghost predicate Repairs(i: nat, leaders: seq<Peer>, followers: seq<Peer>) {
    && 2 <= |leaders| == |followers|
    && forall k {:trigger RepairsAt(i, leaders, followers, k)} :: RepairsAt(i, leaders, followers, k)
  }

  ghost predicate RepairsAt(i: nat, leaders: seq<Peer>, followers: seq<Peer>, k: int) {
    0 <= k < |leaders| - 1 && |leaders| == |followers| ==>
      && leaders[k].Safe() && leaders[k].role == Leader && i < leaders[k].n && i != leaders[k].me
      && RoundTrip(leaders[k], followers[k], i) == (leaders[k + 1], followers[k + 1], k == |leaders| - 2)
  }

  lemma OneMoreRound(l: Peer, f: Peer, i: nat, leaders: seq<Peer>, followers: seq<Peer>)
    requires l.Safe() && l.role == Leader && i < l.n && i != l.me && Repairs(i, leaders, followers)
    requires RoundTrip(l, f, i) == (leaders[0], followers[0], false)
    ensures Repairs(i, [l] + leaders, [f] + followers)
  {
    var ls, fs := [l] + leaders, [f] + followers;
    forall k
      ensures RepairsAt(i, ls, fs, k)
    {
      if 0 < k < |ls| - 1 {
        assert RepairsAt(i, leaders, followers, k - 1);
        assert ls[k] == leaders[k - 1] && fs[k] == followers[k - 1];
      }
    }
  }

  // A round succeeds, or leaves a repairable pair of smaller rank.
  lemma Round(l: Peer, f: Peer, i: nat, wl: seq<Entry>, wf: seq<Entry>) returns (w: seq<Entry>)
    requires Repairable(l, f, i, wl, wf)
    ensures var (l', f', ok) := RoundTrip(l, f, i);
            if ok then Window(f'.log, f'.lastIncludedIndex, wl) && f'.lastIncludedIndex == f.lastIncludedIndex
            else Repairable(l', f', i, wl, w) && Rank(l', f', i) < Rank(l, f, i)
  {
    if l.nextIndex[i] <= l.lastIncludedIndex {
      InstallRound(l, f, i, wl, wf);
      w := After(l, i, wl, wf, f);
    } else {
      AppendRound(l, f, i, wl, wf);
      w := wf;
    }
  }

  /** Log repair terminates: after at most Rank + 1 rounds one succeeds, and then
      the follower's window is the leader's log above the follower's snapshot. */
  lemma {:induction false} RepairTerminates(l: Peer, f: Peer, i: nat, wl: seq<Entry>, wf: seq<Entry>)
    returns (leaders: seq<Peer>, followers: seq<Peer>)
    requires Repairable(l, f, i, wl, wf)
    ensures Repairs(i, leaders, followers) && leaders[0] == l && followers[0] == f
    ensures |leaders| <= Rank(l, f, i) + 2
    ensures var g := followers[|followers| - 1]; Window(g.log, g.lastIncludedIndex, wl)
    decreases Rank(l, f, i)
  {
    var w := Round(l, f, i, wl, wf);
    var (l', f', ok) := RoundTrip(l, f, i);
    if ok {
      leaders, followers := [l, l'], [f, f'];
    } else {
      leaders, followers := RepairTerminates(l', f', i, wl, w);
      OneMoreRound(l, f, i, leaders, followers);
      leaders, followers := [l] + leaders, [f] + followers;
    }
  }

  // ------------------------------------------------------------ in every run

  lemma LogsMatch(s: State, a: seq<Entry>, b: seq<Entry>)
    requires Inv(s) && LogOk(s, a) && LogOk(s, b)
    ensures Matching(a, b)
  {
    forall j, k
      ensures MatchingAt(a, b, j, k)
    {
      if 0 <= j < |a| && 0 <= k < |b| && a[j].term == b[k].term {
        ThroughAny(s, a, j);
        ThroughAny(s, b, k);
      }
    }
  }

  lemma SnapshotInLeader(s: State, a: nat, b: nat)
    requires Inv(s) && s.ordered && a < |s.servers| && b < |s.servers|
    requires s.servers[a].role == Leader && s.servers[b].term <= s.servers[a].term
    ensures Same(s.servers[a].log, s.servers[b].log, s.servers[b].base + 1)
  {
    var l, x := s.servers[a], s.servers[b];
    assert ServerOk(s, a) && ServerOk(s, b) && ReignOk(s, l.term);
    if x.cterm < l.term {
      LeaderCompleteness(s, x.cterm, l.term);
    }
  }

  /** In every state of a run in order, every leader can repair the log of every
      peer that has reached no later term. */
  lemma LeaderCanRepair(n: nat, events: seq<Event>, states: seq<Cluster>, t: nat, a: nat, b: nat)
    returns (wl: seq<Entry>, wf: seq<Entry>)
    requires n > 0 && OrderedRun(n, events, states) && t < |states|
    requires a < |states[t].nodes| && b < |states[t].nodes| && a != b
    requires states[t].nodes[a].peer.role == Leader
    requires states[t].nodes[b].peer.currentTerm <= states[t].nodes[a].peer.currentTerm
    ensures Repairable(states[t].nodes[a].peer, states[t].nodes[b].peer, b, wl, wf)
  {
    var ss := RunSimulated(n, events, states);
    assert Simulates(states[t], ss[t]) && ss[t].ordered;
    wl, wf := ss[t].servers[a].log, ss[t].servers[b].log;
    RepairableIn(states[t], ss[t], a, b);
  }

  lemma RepairableIn(c: Cluster, s: State, a: nat, b: nat)
    requires Simulates(c, s) && s.ordered && a < |c.nodes| && b < |c.nodes| && a != b && c.nodes[a].peer.role == Leader
    requires c.nodes[b].peer.currentTerm <= c.nodes[a].peer.currentTerm
    ensures Repairable(c.nodes[a].peer, c.nodes[b].peer, b, s.servers[a].log, s.servers[b].log)
  {
    assert NodeOk(s, a, c.nodes[a]) && NodeOk(s, b, c.nodes[b]) && ServerOk(s, a) && ServerOk(s, b);
    WithinLog(s, a, c.nodes[a]);
    GoodLogSorted(s, s.servers[a].log);
    LogsMatch(s, s.servers[a].log, s.servers[b].log);
    SnapshotInLeader(s, a, b);
  }
}
