/** The cluster refines the protocol, second part: the handlers of requests.

  RequestVote, AppendEntries and InstallSnapshot, each as at most three protocol
  steps: the peer reaches the term of the request, steps down if it has to, and
  votes, takes over part of a leader's log, or replaces its log up to a snapshot.
  The lemmas about windows say what the index arithmetic of the implementation does
  to the whole log behind the window. A rejected AppendEntries moves only the term,
  and its hint is proved to point into the leader's log.
*/
module RequestRefinement {
  import opened Logs
  import opened Protocol
  import opened Steps
  import opened Peers
  import opened Clusters
  import opened Refinement

  // A server settles into term t as a follower, on disk or not.
  function Settled(o: Server, t: nat, onDisk: bool): Server {
    o.(term := t, role := Follower, pterm := if onDisk then t else o.pterm, voted := if onDisk then -1 else o.voted)
  }

  // Stepping down into a later term, or into the same one without forgetting a vote.
  lemma StepDownStep(s: State, v: nat, node: Node, t: nat) returns (z: State)
    requires Inv(s) && NodeOk(s, v, node)
    requires t > node.peer.currentTerm || (t == node.peer.currentTerm && node.peer.votedFor == -1)
    ensures Inv(z) && Grows(s, z) && OnlyServer(s, z, v) && z.acks == s.acks && z.reigns == s.reigns && z.ordered == s.ordered
    ensures NodeOk(z, v, node.(peer := node.peer.StepDown(t)))
    ensures z.servers[v].term == t
  {
    assert ServerOk(s, v);
    var x := Settled(s.servers[v], t, true);
    z := Settle(s, v, x);
    SettleKeeps(s, v, x);
  }

  // Following the leader of a term not before its own, without writing to disk
  // unless the term is new and the vote is reset with it.
  lemma FollowStep(s: State, v: nat, node: Node, t: nat, onDisk: bool) returns (z: State)
    requires Inv(s) && NodeOk(s, v, node) && node.peer.currentTerm <= t
    requires onDisk ==> node.peer.currentTerm < t
    ensures Inv(z) && Grows(s, z) && OnlyServer(s, z, v) && z.acks == s.acks && z.reigns == s.reigns && z.ordered == s.ordered
    ensures onDisk ==> NodeOk(z, v, node.(peer := node.peer.StepDown(t)))
    ensures !onDisk ==> NodeOk(z, v, node.(peer := node.peer.(currentTerm := t, role := Follower)))
  {
    assert ServerOk(s, v);
    var x := Settled(s.servers[v], t, onDisk);
    z := Settle(s, v, x);
    SettleKeeps(s, v, x);
  }

  // -------------------------------------------------------------------- windows

  // Replacing everything after prev in a window.
  lemma WindowReplace(log: seq<Entry>, base: nat, whole: seq<Entry>, prev: nat, entries: seq<Entry>, target: seq<Entry>)
    requires Window(log, base, whole) && base <= prev < |whole|
    requires Same(whole, target, prev + 1) && |target| == prev + 1 + |entries|
    requires forall k {:trigger entries[k]} :: 0 <= k < |entries| ==> entries[k] == target[prev + 1 + k]
    ensures Window(log[..prev - base + 1] + entries, base, target)
  {
  }

  // ---------------------------------------------------------------- RequestVote

  lemma VoteRefines(c: Cluster, s: State, v: nat, a: VoteArgs) returns (z: State)
    requires Simulates(c, s) && Possible(c, Receive(v, VoteRequest(v, a)))
    ensures Simulates(Step(c, Receive(v, VoteRequest(v, a))), z) && Grows(s, z) && z.ordered == s.ordered && z.reigns == s.reigns
  {
    var m := VoteRequest(v, a);
    var node := c.nodes[v];
    assert NodeOk(s, v, node) && MessageOk(s, m);
    var (p, r) := RequestVote(node.peer, a);
    z := VoteSteps(s, v, node, a);
    assert z.acks == s.acks && z.reigns == s.reigns;
    QuietUpdate(c, s, z, v, node.(peer := p), {VoteAnswer(v, a, r)});
  }

  lemma VoteSteps(s: State, v: nat, node: Node, a: VoteArgs) returns (z: State)
    requires Inv(s) && NodeOk(s, v, node) && MessageOk(s, VoteRequest(v, a))
    ensures Inv(z) && Grows(s, z) && OnlyServer(s, z, v) && z.acks == s.acks && z.reigns == s.reigns && z.ordered == s.ordered
    ensures NodeOk(z, v, node.(peer := RequestVote(node.peer, a).0))
    ensures MessageOk(z, VoteAnswer(v, a, RequestVote(node.peer, a).1))
  {
    var p, o := node.peer, s.servers[v];
    GrowsReflexive(s);
    if a.term < p.currentTerm {
      z := s;
    } else if a.term > p.currentTerm {
      var y := StepDownStep(s, v, node, a.term);
      MessageGrows(s, y, VoteRequest(v, a));
      var middle := node.(peer := p.StepDown(a.term));
      assert RequestVote(p, a) == RequestVote(middle.peer, a);
      z := GrantStep(y, v, middle, a);
      GrowsTransitive(s, y, z);
    } else {
      z := GrantStep(s, v, node, a);
    }
  }

  lemma GrantStep(s: State, v: nat, node: Node, a: VoteArgs) returns (z: State)
    requires Inv(s) && NodeOk(s, v, node) && MessageOk(s, VoteRequest(v, a))
    requires a.term == node.peer.currentTerm
    ensures Inv(z) && Grows(s, z) && OnlyServer(s, z, v) && z.acks == s.acks && z.reigns == s.reigns && z.ordered == s.ordered
    ensures NodeOk(z, v, node.(peer := RequestVote(node.peer, a).0))
    ensures MessageOk(z, VoteAnswer(v, a, RequestVote(node.peer, a).1))
  {
    if RequestVote(node.peer, a).1.voteGranted {
      z := CastStep(s, v, node, a);
    } else {
      z := s;
      GrowsReflexive(s);
    }
  }

  lemma CastStep(s: State, v: nat, node: Node, a: VoteArgs) returns (z: State)
    requires Inv(s) && NodeOk(s, v, node) && MessageOk(s, VoteRequest(v, a))
    requires a.term == node.peer.currentTerm && RequestVote(node.peer, a).1.voteGranted
    ensures Inv(z) && Grows(s, z) && OnlyServer(s, z, v) && z.acks == s.acks && z.reigns == s.reigns && z.ordered == s.ordered
    ensures NodeOk(z, v, node.(peer := RequestVote(node.peer, a).0))
    ensures MessageOk(z, VoteAnswer(v, a, RequestVote(node.peer, a).1))
  {
    var p, o := node.peer, s.servers[v];
    assert ServerOk(s, v) && VoteOk(s, Ballot(a.candidateId, a.term)) && VoteOk(s, Ballot(v, a.term));
    WindowTerms(p.log, o.base, o.log);
    z := Cast(s, v, a.candidateId, a.term);
    CastKeeps(s, v, a.candidateId, a.term);
    GrantedPeer(p, a);
  }

  lemma GrantedPeer(p: Peer, a: VoteArgs)
    requires 0 < |p.log| && a.term == p.currentTerm && RequestVote(p, a).1.voteGranted
    ensures RequestVote(p, a) == (p.(votedFor := a.candidateId).Persist(), VoteReply(a.term, true))
    ensures p.votedFor == -1 || p.votedFor == a.candidateId
  {
  }

  // -------------------------------------------------------------- AppendEntries

  lemma AppendRefines(c: Cluster, s: State, v: nat, a: AppendArgs) returns (z: State)
    requires Simulates(c, s)
    requires Possible(c, Receive(v, AppendRequest(v, a)))
    ensures Simulates(Step(c, Receive(v, AppendRequest(v, a))), z) && Grows(s, z) && z.reigns == s.reigns
    ensures s.ordered && Ordered(c, Receive(v, AppendRequest(v, a))) ==> z.ordered
  {
    var m := AppendRequest(v, a);
    var node := c.nodes[v];
    assert NodeOk(s, v, node) && MessageOk(s, m);
    var (p, r) := AppendEntries(node.peer, a);
    if r.success {
      if s.ordered && InOrder(c.net, v, a) {
        AcksInOrder(c, s, v, a);
      }
      z := AcceptStep(s, v, node, a);
      assert AppendAnswer(v, a, r) in c.net + {AppendAnswer(v, a, r)};
      SimulatesUpdate(c, s, z, v, node.(peer := p), {AppendAnswer(v, a, r)}, Ballot(v, a.term));
    } else {
      z := RejectStep(s, v, node, a);
      QuietUpdate(c, s, z, v, node.(peer := p), {AppendAnswer(v, a, r)});
    }
  }

  // In order means at least as far as everything acknowledged to that leader.
  lemma AcksInOrder(c: Cluster, s: State, v: nat, a: AppendArgs)
    requires Simulates(c, s) && s.ordered && AppendArgsOk(s, v, a) && InOrder(c.net, v, a)
    ensures AckOf(s, v, a.term) <= Reach(a)
  {
    var b := Ballot(v, a.term);
    assert AckSent(s, c.net, b) && AckOk(s, b) && ReignOk(s, a.term);
    if b in s.acks && a.term > 0 {
      var d, r :| AppendAnswer(v, d, r) in c.net && r.success && d.term == a.term && Reach(d) == s.acks[b];
    }
  }

  lemma RejectStep(s: State, v: nat, node: Node, a: AppendArgs) returns (z: State)
    requires Inv(s) && NodeOk(s, v, node) && MessageOk(s, AppendRequest(v, a))
    requires !AppendEntries(node.peer, a).1.success
    ensures Inv(z) && Grows(s, z) && OnlyServer(s, z, v) && z.acks == s.acks && z.reigns == s.reigns && z.ordered == s.ordered
    ensures NodeOk(z, v, node.(peer := AppendEntries(node.peer, a).0))
    ensures MessageOk(z, AppendAnswer(v, a, AppendEntries(node.peer, a).1))
  {
    var p, o := node.peer, s.servers[v];
    assert ServerOk(s, v);
    var (q, r) := AppendEntries(p, a);
    if a.term < p.currentTerm {
      z := s;
      GrowsReflexive(s);
    } else {
      z := FollowStep(s, v, node, a.term, a.term > p.currentTerm);
      RejectedPeer(p, a);
      AppendArgsGrow(s, z, v, a);
      RejectReply(s, v, node, a);
      AppendReplyGrows(s, z, v, a, r);
    }
  }

  lemma RejectedPeer(p: Peer, a: AppendArgs)
    requires !AppendEntries(p, a).1.success && p.currentTerm <= a.term
    ensures AppendEntries(p, a).0 ==
              if a.term > p.currentTerm then p.StepDown(a.term) else p.(currentTerm := a.term, role := Follower)
  {
  }

  // The three rejections, and the hint each gives.
  lemma RejectionHint(p: Peer, a: AppendArgs)
    requires !AppendEntries(p, a).1.success && p.currentTerm <= a.term
    ensures var r := AppendEntries(p, a).1;
            && r.term == a.term
            && if a.prevLogIndex > p.LastLogIndex() then r.xTerm == r.xIndex == -1 && r.xLen == p.LastLogIndex() + 1
               else if a.prevLogIndex < p.lastIncludedIndex then r.xTerm == r.xIndex == -1 && r.xLen == p.lastIncludedIndex + 1
               else
                 && r.xTerm == p.At(a.prevLogIndex).term != a.prevLogTerm && r.xLen == p.LastLogIndex() + 1
                 && p.lastIncludedIndex <= r.xIndex <= a.prevLogIndex && p.At(r.xIndex).term == r.xTerm
                 && forall k: nat :: p.lastIncludedIndex <= k < r.xIndex ==> p.At(k).term != r.xTerm
  {
  }

  // The hint a follower gives on a rejection points into the leader's log.
  lemma RejectReply(s: State, v: nat, node: Node, a: AppendArgs)
    requires Inv(s) && NodeOk(s, v, node) && AppendArgsOk(s, v, a)
    requires !AppendEntries(node.peer, a).1.success
    ensures AppendReplyOk(s, v, a, AppendEntries(node.peer, a).1)
  {
    var p, o := node.peer, s.servers[v];
    if a.term >= p.currentTerm {
      RejectionHint(p, a);
    }
    if a.term >= p.currentTerm && a.prevLogIndex <= p.LastLogIndex() && a.prevLogIndex < o.base && s.ordered {
      SnapshotWithin(s, v, a.term);
    }
  }

  // A follower that reached no later term has its snapshot within the leader's log.
  lemma SnapshotWithin(s: State, v: nat, t: nat)
    requires Inv(s) && s.ordered && v < |s.servers| && t in s.reigns && s.servers[v].term <= t
    ensures s.servers[v].base < |s.reigns[t].log|
  {
    var o := s.servers[v];
    assert ServerOk(s, v) && CommitOk(s, o.cterm) && ReignOk(s, t);
    if o.cterm < t {
      LeaderCompleteness(s, o.cterm, t);
    }
  }

  lemma AcceptStep(s: State, v: nat, node: Node, a: AppendArgs) returns (z: State)
    requires Inv(s) && NodeOk(s, v, node) && MessageOk(s, AppendRequest(v, a))
    requires AppendEntries(node.peer, a).1.success
    ensures Inv(z) && Grows(s, z) && OnlyServer(s, z, v) && OnlyAck(s, z, Ballot(v, a.term)) && z.reigns == s.reigns
    ensures AckOf(z, v, a.term) == Reach(a)
    ensures s.ordered && AckOf(s, v, a.term) <= Reach(a) ==> z.ordered
    ensures NodeOk(z, v, node.(peer := AppendEntries(node.peer, a).0))
    ensures MessageOk(z, AppendAnswer(v, a, AppendEntries(node.peer, a).1))
  {
    var ct := CanAccept(s, v, node, a);
    z := Replicate(s, v, a.term, Reach(a), Min(a.leaderCommit, Reach(a)), ct);
    ReplicateKeeps(s, v, a.term, a.prevLogIndex, Reach(a), Min(a.leaderCommit, Reach(a)), ct);
    AppendArgsGrow(s, z, v, a);
    AcceptedNode(s, v, node, a, ct);
  }

  lemma AcceptedNode(s: State, v: nat, node: Node, a: AppendArgs, ct: nat)
    requires Inv(s) && NodeOk(s, v, node) && AppendArgsOk(s, v, a)
    requires AppendEntries(node.peer, a).1.success
    ensures NodeOk(Replicate(s, v, a.term, Reach(a), Min(a.leaderCommit, Reach(a)), ct), v, node.(peer := AppendEntries(node.peer, a).0))
  {
    var z := Replicate(s, v, a.term, Reach(a), Min(a.leaderCommit, Reach(a)), ct);
    AcceptedWindow(s, v, node, a);
    Accepted(node.peer, a);
    AcceptedLog(node.peer, a);
    AcceptedPeer(s, z, v, node, a, ct, AppendEntries(node.peer, a).0);
  }

  lemma CanAccept(s: State, v: nat, node: Node, a: AppendArgs) returns (ct: nat)
    requires Inv(s) && NodeOk(s, v, node) && AppendArgsOk(s, v, a)
    requires AppendEntries(node.peer, a).1.success
    ensures CanReplicate(s, v, a.term, a.prevLogIndex, Reach(a), Min(a.leaderCommit, Reach(a)), ct)
  {
    var p, o := node.peer, s.servers[v];
    AcceptedLog(p, a);
    WindowTerms(p.log, o.base, o.log);
    ct := 0;
    if s.ordered {
      ct :| ct <= a.term && Backed(s, s.reigns[a.term].log, a.leaderCommit, ct);
    }
  }

  // What accepting does to the window.
  lemma AcceptedLog(p: Peer, a: AppendArgs)
    requires AppendEntries(p, a).1.success
    ensures p.lastIncludedIndex <= a.prevLogIndex <= p.LastLogIndex() && p.At(a.prevLogIndex).term == a.prevLogTerm
    ensures AppendEntries(p, a).0.log == p.log[..a.prevLogIndex - p.lastIncludedIndex + 1] + a.entries
    ensures p.currentTerm <= a.term
  {
  }

  // The logs agree up to the entry the follower checked.
  lemma AgreeUpToPrev(s: State, v: nat, t: nat, prev: nat)
    requires Inv(s) && v < |s.servers| && t in s.reigns
    requires prev < |s.servers[v].log| && prev < |s.reigns[t].log|
    requires s.servers[v].log[prev].term == s.reigns[t].log[prev].term
    ensures Same(s.servers[v].log, s.reigns[t].log, prev + 1)
  {
    assert ServerOk(s, v) && ReignOk(s, t);
    assert Through(s, s.reigns[t].log, prev);
    ThroughAny(s, s.servers[v].log, prev);
  }

  lemma AcceptedWindow(s: State, v: nat, node: Node, a: AppendArgs)
    requires Inv(s) && NodeOk(s, v, node) && AppendArgsOk(s, v, a)
    requires AppendEntries(node.peer, a).1.success
    ensures Window(AppendEntries(node.peer, a).0.log, s.servers[v].base, s.reigns[a.term].log[..Reach(a) + 1])
  {
    var p, o, r := node.peer, s.servers[v], s.reigns[a.term];
    AcceptedLog(p, a);
    WindowTerms(p.log, o.base, o.log);
    AgreeUpToPrev(s, v, a.term, a.prevLogIndex);
    WindowReplace(p.log, o.base, o.log, a.prevLogIndex, a.entries, r.log[..Reach(a) + 1]);
  }

  // The peer after accepting, field by field.
  ghost predicate AcceptedAs(p: Peer, q: Peer, a: AppendArgs) {
    && q == p.(currentTerm := a.term, votedFor := if a.term > p.currentTerm then -1 else p.votedFor, role := Follower,
               log := q.log, commitIndex := q.commitIndex, disk := q.disk)
    && Saved(q, a.term)
    && q.commitIndex == if a.leaderCommit > p.commitIndex then Min(a.leaderCommit, q.LastLogIndex()) else p.commitIndex
  }

  lemma Accepted(p: Peer, a: AppendArgs)
    requires AppendEntries(p, a).1.success
    ensures AcceptedAs(p, AppendEntries(p, a).0, a)
  {
  }

  lemma AcceptedPeer(s: State, z: State, v: nat, node: Node, a: AppendArgs, ct: nat, q: Peer)
    requires NodeOk(s, v, node) && AppendArgsOk(s, v, a) && AcceptedAs(node.peer, q, a) && node.peer.currentTerm <= a.term
    requires z == Replicate(s, v, a.term, Reach(a), Min(a.leaderCommit, Reach(a)), ct)
    requires Window(q.log, s.servers[v].base, s.reigns[a.term].log[..Reach(a) + 1])
    requires s.servers[v].base <= a.prevLogIndex
    requires q.lastIncludedTerm == q.log[0].term
    ensures NodeOk(z, v, node.(peer := q))
  {
    assert q.LastLogIndex() == Reach(a);
  }

  // ------------------------------------------------------------ InstallSnapshot

  lemma InstallRefines(c: Cluster, s: State, v: nat, a: InstallArgs) returns (z: State)
    requires Simulates(c, s) && Possible(c, Receive(v, InstallRequest(v, a)))
    ensures Simulates(Step(c, Receive(v, InstallRequest(v, a))), z) && Grows(s, z) && z.ordered == s.ordered && z.reigns == s.reigns
  {
    var m := InstallRequest(v, a);
    var node := c.nodes[v];
    assert NodeOk(s, v, node) && MessageOk(s, m);
    var (p, r) := InstallSnapshot(node.peer, a);
    z := InstallSteps(s, v, node, a);
    QuietUpdate(c, s, z, v, node.(peer := p), {InstallAnswer(v, a, r)});
  }

  lemma InstallSteps(s: State, v: nat, node: Node, a: InstallArgs) returns (z: State)
    requires Inv(s) && NodeOk(s, v, node) && MessageOk(s, InstallRequest(v, a))
    ensures Inv(z) && Grows(s, z) && OnlyServer(s, z, v) && z.acks == s.acks && z.reigns == s.reigns && z.ordered == s.ordered
    ensures NodeOk(z, v, node.(peer := InstallSnapshot(node.peer, a).0))
    ensures InstallArgsOk(z, v, a)
  {
    if a.term < node.peer.currentTerm {
      z := s;
      GrowsReflexive(s);
    } else if a.lastIncludedIndex <= node.peer.lastIncludedIndex {
      z := FollowStep(s, v, node, a.term, false);
      InstallArgsGrow(s, z, v, a);
    } else {
      var ct: nat := 0;
      if s.ordered {
        ct :| ct <= a.term && Backed(s, s.reigns[a.term].log, a.lastIncludedIndex, ct);
      }
      z := Install(s, v, a.term, a.lastIncludedIndex, ct);
      InstallKeeps(s, v, a.term, a.lastIncludedIndex, ct);
      InstallArgsGrow(s, z, v, a);
      InstalledWindow(s, v, node, a, ct);
      InstalledPeer(s, z, v, node, a, ct);
    }
  }

  // What a fresh snapshot does to the window.
  lemma InstalledLog(p: Peer, a: InstallArgs)
    requires a.term >= p.currentTerm && a.lastIncludedIndex > p.lastIncludedIndex
    ensures var head := [Entry(a.lastIncludedTerm, NoCommand)];
            InstallSnapshot(p, a).0.log ==
              if a.lastIncludedIndex <= p.LastLogIndex() && p.At(a.lastIncludedIndex).term == a.lastIncludedTerm
              then head + p.log[a.lastIncludedIndex - p.lastIncludedIndex + 1..] else head
  {
  }

  lemma InstalledWindow(s: State, v: nat, node: Node, a: InstallArgs, ct: nat)
    requires NodeOk(s, v, node) && InstallArgsOk(s, v, a)
    requires a.term >= node.peer.currentTerm && a.lastIncludedIndex > node.peer.lastIncludedIndex
    ensures Window(InstallSnapshot(node.peer, a).0.log, a.lastIncludedIndex,
                   Install(s, v, a.term, a.lastIncludedIndex, ct).servers[v].log)
  {
    var p, o, i := node.peer, s.servers[v], a.lastIncludedIndex;
    InstalledLog(p, a);
    WindowInstalled(p.log, o.base, o.log, i, s.reigns[a.term].log);
  }

  // A window with everything up to i replaced, and what follows a matching entry kept.
  lemma WindowInstalled(log: seq<Entry>, base: nat, whole: seq<Entry>, i: nat, target: seq<Entry>)
    requires Window(log, base, whole) && base < i < |target|
    ensures var head := [Entry(target[i].term, NoCommand)];
            Window(if i - base < |log| && log[i - base].term == target[i].term then head + log[i - base + 1..] else head,
                   i, if i < |whole| && whole[i].term == target[i].term then whole else target[..i + 1])
  {
    WindowTerms(log, base, whole);
    if i < |whole| {
      WindowCut(log, base, whole, i);
    }
  }

  lemma InstalledPeer(s: State, z: State, v: nat, node: Node, a: InstallArgs, ct: nat)
    requires NodeOk(s, v, node) && InstallArgsOk(s, v, a)
    requires a.term >= node.peer.currentTerm && a.lastIncludedIndex > node.peer.lastIncludedIndex
    requires z == Install(s, v, a.term, a.lastIncludedIndex, ct)
    requires Window(InstallSnapshot(node.peer, a).0.log, a.lastIncludedIndex, z.servers[v].log)
    ensures NodeOk(z, v, node.(peer := InstallSnapshot(node.peer, a).0))
  {
    var q := InstallSnapshot(node.peer, a).0;
    assert q.role == Follower;
    assert Coupled(q, z.servers[v], z.ordered);
  }
}
