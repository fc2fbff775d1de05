/** The cluster refines the protocol, third part: the handlers of replies, and all events.

  A vote reply is counted once and may make the peer a leader; the votes counted are
  the quorum the protocol step asks for. An AppendEntries reply moves nextIndex back
  within range, or raises matchIndex and perhaps the commit index; the peers the commit
  rule counts are the quorum that acknowledged the entry. An InstallSnapshot reply
  raises matchIndex to a committed index. EventRefines at the end is the refinement of
  every event of a cluster, given that the reply it takes, if any, is fresh.
*/
module ReplyRefinement {
  import opened Logs
  import opened Quorums
  import opened Protocol
  import opened Steps
  import opened Peers
  import opened Clusters
  import opened Refinement
  import opened RequestRefinement

  // ---------------------------------------------------------------- vote replies

  lemma VoteReplyRefines(c: Cluster, s: State, v: nat, from: nat, a: VoteArgs, r: VoteReply) returns (z: State)
    requires Simulates(c, s)
    requires Possible(c, TakeReply(v, VoteAnswer(from, a, r))) && Fresh(c, TakeReply(v, VoteAnswer(from, a, r)))
    ensures Simulates(Step(c, TakeReply(v, VoteAnswer(from, a, r))), z) && Grows(s, z) && z.ordered == s.ordered
    ensures NewEntries(s, z, TakeReply(v, VoteAnswer(from, a, r)))
  {
    var m := VoteAnswer(from, a, r);
    var node := c.nodes[v];
    assert NodeOk(s, v, node) && MessageOk(s, m);
    var x := Take(node, v, m);
    var p := node.peer;
    if r.term > a.term {
      z := StepDownStep(s, v, node, r.term);
      QuietUpdate(c, s, z, v, x, {});
    } else if p.currentTerm != a.term || p.role != Candidate {
      z := s;
      GrowsReflexive(s);
      QuietUpdate(c, s, z, v, x, {});
    } else {
      z := CountStep(c, s, v, from, a, r);
    }
  }

  lemma CountStep(c: Cluster, s: State, v: nat, from: nat, a: VoteArgs, r: VoteReply) returns (z: State)
    requires Simulates(c, s) && Possible(c, TakeReply(v, VoteAnswer(from, a, r)))
    requires r.term <= a.term == c.nodes[v].peer.currentTerm && c.nodes[v].peer.role == Candidate
    ensures Simulates(Step(c, TakeReply(v, VoteAnswer(from, a, r))), z) && Grows(s, z) && z.ordered == s.ordered
    ensures NewEntries(s, z, TakeReply(v, VoteAnswer(from, a, r)))
  {
    var m := VoteAnswer(from, a, r);
    var node := c.nodes[v];
    assert NodeOk(s, v, node) && MessageOk(s, m);
    var x := Take(node, v, m);
    if x.peer.role == Leader {
      z := WinStep(s, v, node, from, a, r);
      SimulatesUpdate(c, s, z, v, x, {}, Ballot(v, a.term));
    } else {
      z := s;
      GrowsReflexive(s);
      CountedNode(s, v, node, from, a, r);
      QuietUpdate(c, s, z, v, x, {});
    }
  }

  // A vote more or less that makes no leader.
  lemma CountedNode(s: State, v: nat, node: Node, from: nat, a: VoteArgs, r: VoteReply)
    requires Inv(s) && NodeOk(s, v, node) && MessageOk(s, VoteAnswer(from, a, r))
    requires node.peer.Formed() && CanTakeReply(node, v, VoteAnswer(from, a, r))
    requires r.term <= a.term == node.peer.currentTerm && node.peer.role == Candidate
    requires Take(node, v, VoteAnswer(from, a, r)).peer.role != Leader
    ensures NodeOk(s, v, Take(node, v, VoteAnswer(from, a, r)))
  {
    Tallied(s, v, node, from, a, r);
  }

  lemma WinStep(s: State, v: nat, node: Node, from: nat, a: VoteArgs, r: VoteReply) returns (z: State)
    requires Inv(s) && NodeOk(s, v, node) && MessageOk(s, VoteAnswer(from, a, r))
    requires node.peer.Formed() && CanTakeReply(node, v, VoteAnswer(from, a, r))
    requires r.term <= a.term == node.peer.currentTerm && node.peer.role == Candidate
    requires Take(node, v, VoteAnswer(from, a, r)).peer.role == Leader
    ensures Inv(z) && Grows(s, z) && OnlyServer(s, z, v) && OnlyAck(s, z, Ballot(v, a.term)) && z.ordered == s.ordered
    ensures AckSent(z, {}, Ballot(v, a.term))
    ensures NewEntries(s, z, TakeReply(v, VoteAnswer(from, a, r)))
    ensures NodeOk(z, v, Take(node, v, VoteAnswer(from, a, r)))
  {
    var x := Take(node, v, VoteAnswer(from, a, r));
    var q := x.counted + {v};
    Tallied(s, v, node, from, a, r);
    z := Win(s, v, q);
    Won(s, v, q, TakeReply(v, VoteAnswer(from, a, r)));
    Elected(s, v, node, from, a, r, q);
  }

  lemma Elected(s: State, v: nat, node: Node, from: nat, a: VoteArgs, r: VoteReply, q: set<nat>)
    requires Inv(s) && NodeOk(s, v, node) && node.peer.Formed() && CanTakeReply(node, v, VoteAnswer(from, a, r))
    requires r.term <= a.term == node.peer.currentTerm && node.peer.role == Candidate
    requires Take(node, v, VoteAnswer(from, a, r)).peer.role == Leader
    ensures NodeOk(Win(s, v, q), v, Take(node, v, VoteAnswer(from, a, r)))
  {
    NewLeader(s, Win(s, v, q), v, node, q, Take(node, v, VoteAnswer(from, a, r)));
  }

  lemma Won(s: State, v: nat, q: set<nat>, e: Event)
    requires Inv(s) && CanWin(s, v, q)
    ensures var (z, b) := (Win(s, v, q), Ballot(v, s.servers[v].term));
            && Inv(z) && Grows(s, z) && OnlyServer(s, z, v) && OnlyAck(s, z, b) && z.ordered == s.ordered
            && AckSent(z, {}, b) && NewEntries(s, z, e)
  {
    WinKeeps(s, v, q);
    FirstOfTerm(s, v, q);
  }

  // The votes counted after a reply are votes for this candidate, one per server.
  lemma Tallied(s: State, v: nat, node: Node, from: nat, a: VoteArgs, r: VoteReply)
    requires Inv(s) && NodeOk(s, v, node) && MessageOk(s, VoteAnswer(from, a, r))
    requires node.peer.Formed() && CanTakeReply(node, v, VoteAnswer(from, a, r))
    requires r.term <= a.term == node.peer.currentTerm && node.peer.role == Candidate
    ensures var x := Take(node, v, VoteAnswer(from, a, r));
            && TallyOk(s, v, x.peer, x.counted)
            && (x.peer.role == Leader ==> CanWin(s, v, x.counted + {v}))
  {
    var x := Take(node, v, VoteAnswer(from, a, r));
    assert ServerOk(s, v);
    assert |x.counted + {v}| == |x.counted| + 1;
  }

  lemma NewLeader(s: State, z: State, v: nat, node: Node, q: set<nat>, x: Node)
    requires Inv(s) && NodeOk(s, v, node) && node.peer.role == Candidate && v < |s.servers| && z == Win(s, v, q)
    requires x.peer.role == Leader && x.applier == node.applier && x.handled == node.handled && x.compactable == node.compactable
    requires 0 < |node.peer.log|
    requires x.peer == node.peer.(role := Leader, voteCount := x.peer.voteCount,
                                  nextIndex := Filled(node.peer.n, node.peer.LastLogIndex() + 1),
                                  matchIndex := Filled(node.peer.n, 0))
    ensures NodeOk(z, v, x)
  {
    var o := s.servers[v];
    assert ServerOk(s, v);
    if z.ordered {
      assert Backed(z, o.log, 0, o.cterm);
      assert LogOf(z, o.term) == o.log;
      assert BackedBy(z, LogOf(z, o.term), 0, o.term);
      assert forall i: nat {:trigger MatchOk(z, o.term, i, 0)} :: MatchOk(z, o.term, i, 0);
    }
  }

  // -------------------------------------------------------------- append replies

  lemma AppendReplyRefines(c: Cluster, s: State, v: nat, from: nat, a: AppendArgs, r: AppendReply) returns (z: State)
    requires Simulates(c, s)
    requires Possible(c, TakeReply(v, AppendAnswer(from, a, r))) && Fresh(c, TakeReply(v, AppendAnswer(from, a, r)))
    ensures Simulates(Step(c, TakeReply(v, AppendAnswer(from, a, r))), z) && Grows(s, z) && z.ordered == s.ordered && z.reigns == s.reigns
  {
    var m := AppendAnswer(from, a, r);
    var node := c.nodes[v];
    assert NodeOk(s, v, node) && MessageOk(s, m);
    var x := Take(node, v, m);
    var p := node.peer;
    if r.term > a.term {
      z := StepDownStep(s, v, node, r.term);
    } else if p.currentTerm == a.term && p.role == Leader && r.success {
      z := MatchedStep(s, v, node, from, a, r);
    } else {
      z := s;
      GrowsReflexive(s);
      if p.currentTerm == a.term && p.role == Leader {
        BackOffInRange(s, v, node, from, a, r);
      }
    }
    QuietUpdate(c, s, z, v, x, {});
  }

  /** Backing off never moves nextIndex past the end of the leader's log. */
  lemma BackOffInRange(s: State, v: nat, node: Node, from: nat, a: AppendArgs, r: AppendReply)
    requires Inv(s) && NodeOk(s, v, node) && MessageOk(s, AppendAnswer(from, a, r))
    requires node.peer.currentTerm == a.term && node.peer.role == Leader && !r.success && r.term <= a.term
    ensures s.ordered ==> BackOff(node.peer, r) <= node.peer.LastLogIndex() + 1
  {
    assert ServerOk(s, v);
  }

  lemma MatchedStep(s: State, v: nat, node: Node, from: nat, a: AppendArgs, r: AppendReply) returns (z: State)
    requires Inv(s) && NodeOk(s, v, node) && MessageOk(s, AppendAnswer(from, a, r))
    requires node.peer.Formed() && CanTakeReply(node, v, AppendAnswer(from, a, r))
    requires node.peer.currentTerm == a.term && node.peer.role == Leader && r.success && r.term <= a.term
    ensures Inv(z) && Grows(s, z) && OnlyServer(s, z, v) && z.acks == s.acks && z.reigns == s.reigns && z.ordered == s.ordered
    ensures NodeOk(z, v, Take(node, v, AppendAnswer(from, a, r)))
  {
    var p := node.peer;
    assert ServerOk(s, v);
    var q := MatchedUpTo(p, from, Reach(a));
    RecordedMatch(s, v, node, from, Reach(a) + 1, q);
    z := CommitStep(s, v, node.(peer := q), q.LastLogIndex());
    AcceptedReply(p, from, a, r);
  }

  // What an accepting reply does to a leader.
  lemma AcceptedReply(p: Peer, from: nat, a: AppendArgs, r: AppendReply)
    requires p.Formed() && p.role == Leader && from < p.n
    requires p.currentTerm == a.term && r.term <= a.term && r.success
    ensures var q := MatchedUpTo(p, from, Reach(a));
            OnAppendReply(p, from, a, r) == q.(commitIndex := CommitTarget(q, q.LastLogIndex()))
  {
  }

  lemma RecordedMatch(s: State, v: nat, node: Node, from: nat, next: nat, q: Peer)
    requires Inv(s) && NodeOk(s, v, node) && node.peer.role == Leader && from < node.peer.n
    requires 0 < next <= node.peer.LastLogIndex() + 1 && (s.ordered ==> MatchOk(s, node.peer.currentTerm, from, next - 1))
    requires q == node.peer.(nextIndex := node.peer.nextIndex[from := next], matchIndex := node.peer.matchIndex[from := next - 1])
    ensures NodeOk(s, v, node.(peer := q))
  {
    if s.ordered {
      forall i: nat | i < q.n && i != v
        ensures MatchOk(s, q.currentTerm, i, q.matchIndex[i])
      {
        assert MatchOk(s, q.currentTerm, i, node.peer.matchIndex[i]);
      }
    }
  }

  // The peers that make up the count of the commit rule.
  lemma {:induction false} MatchedSet(p: Peer, i: nat, k: nat) returns (q: set<nat>)
    requires k <= |p.matchIndex|
    ensures |q| == Matched(p, i, k)
    ensures forall u {:trigger u in q} :: u in q ==> u < k && u != p.me && p.matchIndex[u] >= i
  {
    if k == 0 {
      q := {};
    } else {
      q := MatchedSet(p, i, k - 1);
      if k - 1 != p.me && p.matchIndex[k - 1] >= i {
        q := q + {k - 1};
      }
    }
  }

  // The commit rule picks the highest index above the commit index that is of the
  // current term and that a majority has matched, if there is one in the window.
  lemma {:induction false} TargetMeaning(p: Peer, i: nat)
    requires i <= p.LastLogIndex()
    ensures var t := CommitTarget(p, i);
            && (t == p.commitIndex || (p.commitIndex < t <= i && p.lastIncludedIndex <= t && Committable(p, t)))
            && forall j: nat {:trigger Committable(p, j)} :: t < j <= i && p.lastIncludedIndex <= j ==> !Committable(p, j)
    decreases i
  {
    if i > p.commitIndex && i >= p.lastIncludedIndex {
      TargetMeaning(p, i - 1);
    }
  }

  lemma CommitStep(s: State, v: nat, node: Node, i: nat) returns (z: State)
    requires Inv(s) && NodeOk(s, v, node) && node.peer.role == Leader
    requires i <= node.peer.LastLogIndex()
    ensures Inv(z) && Grows(s, z) && OnlyServer(s, z, v) && z.acks == s.acks && z.reigns == s.reigns && z.ordered == s.ordered
    ensures NodeOk(z, v, node.(peer := node.peer.(commitIndex := CommitTarget(node.peer, i))))
  {
    var p, o := node.peer, s.servers[v];
    var t := CommitTarget(p, i);
    TargetMeaning(p, i);
    if t == p.commitIndex || !s.ordered {
      z := s;
      GrowsReflexive(s);
      assert t == p.commitIndex ==> p == p.(commitIndex := t);
    } else {
      var known, q, ct := QuorumFor(s, v, node, t);
      if known {
        z := Learn(s, v, t, ct);
        LearnKeeps(s, v, t, ct);
      } else {
        z := CommitAt(s, v, t, q);
        CommitAtKeeps(s, v, t, q);
      }
      CommittedPeer(s, z, v, node, t);
    }
  }

  // A majority that matched index t acknowledged it, or t was committed before.
  lemma QuorumFor(s: State, v: nat, node: Node, t: nat) returns (known: bool, q: set<nat>, ct: nat)
    requires Inv(s) && NodeOk(s, v, node) && node.peer.role == Leader
    requires s.ordered && node.peer.commitIndex < t <= node.peer.LastLogIndex()
    requires node.peer.At(t).term == node.peer.currentTerm
    requires 1 + Matched(node.peer, t, |node.peer.matchIndex|) >= Majority(node.peer.n)
    ensures if known then CanLearn(s, v, t, ct) else CanCommit(s, v, t, q)
  {
    var p, o := node.peer, s.servers[v];
    assert ServerOk(s, v);
    WindowTerms(p.log, o.base, o.log);
    var others := MatchedSet(p, t, |p.matchIndex|);
    q, ct := others + {v}, 0;
    assert |q| == |others| + 1;
    known := exists u: nat :: u in others && AckOf(s, u, o.term) < t;
    if known {
      var u: nat :| u in others && AckOf(s, u, o.term) < t;
      assert MatchOk(s, o.term, u, p.matchIndex[u]);
      ct :| ct <= o.term && Backed(s, o.log, p.matchIndex[u], ct);
    }
  }

  lemma CommittedPeer(s: State, z: State, v: nat, node: Node, t: nat)
    requires Inv(s) && NodeOk(s, v, node) && node.peer.role == Leader && Grows(s, z)
    requires node.peer.commitIndex <= t
    requires |z.servers| == |s.servers| && z.reigns == s.reigns && z.acks == s.acks
    requires v < |s.servers|
    requires z.servers[v] == s.servers[v].(commit := t, cterm := z.servers[v].cterm)
    ensures NodeOk(z, v, node.(peer := node.peer.(commitIndex := t)))
  {
    var p := node.peer;
    assert ServerOk(s, v);
    if z.ordered {
      forall i: nat | i < p.n && i != v
        ensures MatchOk(z, p.currentTerm, i, p.matchIndex[i])
      {
        assert MatchOk(s, p.currentTerm, i, p.matchIndex[i]);
        MatchGrows(s, z, p.currentTerm, i, p.matchIndex[i]);
      }
    }
  }

  // ------------------------------------------------------------- install replies

  lemma InstallReplyRefines(c: Cluster, s: State, v: nat, from: nat, a: InstallArgs, r: InstallReply) returns (z: State)
    requires Simulates(c, s)
    requires Possible(c, TakeReply(v, InstallAnswer(from, a, r))) && Fresh(c, TakeReply(v, InstallAnswer(from, a, r)))
    ensures Simulates(Step(c, TakeReply(v, InstallAnswer(from, a, r))), z) && Grows(s, z) && z.ordered == s.ordered && z.reigns == s.reigns
  {
    var m := InstallAnswer(from, a, r);
    var node := c.nodes[v];
    assert NodeOk(s, v, node) && MessageOk(s, m) && ServerOk(s, v);
    var x := Take(node, v, m);
    var p := node.peer;
    if r.term > a.term {
      z := StepDownStep(s, v, node, r.term);
    } else {
      z := s;
      GrowsReflexive(s);
      if p.currentTerm == a.term && p.role == Leader {
        RecordedMatch(s, v, node, from, a.lastIncludedIndex + 1, x.peer);
      }
    }
    QuietUpdate(c, s, z, v, x, {});
  }

  // ------------------------------------------------------------------ all events

  /** Every event is a few steps of the protocol. */
  lemma EventRefines(c: Cluster, s: State, e: Event) returns (z: State)
    requires Simulates(c, s) && Possible(c, e) && Fresh(c, e)
    ensures Simulates(Step(c, e), z) && Grows(s, z)
    ensures s.ordered && Ordered(c, e) ==> z.ordered
    ensures NewEntries(s, z, e)
  {
    z := s;
    GrowsReflexive(s);
    match e
    case Timeout(v) => z := TimeoutRefines(c, s, v);
    case Receive(v, m) =>
      match m {
        case VoteRequest(to, a) => z := VoteRefines(c, s, v, a);
        case AppendRequest(to, a) => z := AppendRefines(c, s, v, a);
        case InstallRequest(to, a) => z := InstallRefines(c, s, v, a);
      }
    case TakeReply(v, m) =>
      match m {
        case VoteAnswer(from, a, r) => z := VoteReplyRefines(c, s, v, from, a, r);
        case AppendAnswer(from, a, r) => z := AppendReplyRefines(c, s, v, from, a, r);
        case InstallAnswer(from, a, r) => z := InstallReplyRefines(c, s, v, from, a, r);
      }
    case Heartbeat(v) => HeartbeatRefines(c, s, v);
    case Submit(v, command, k) => z := SubmitRefines(c, s, v, command, k);
    case TakeCommitted(v, stale) => TakeCommittedRefines(c, s, v, stale);
    case Feed(v) => FeedRefines(c, s, v);
    case Snapshot(v) => z := SnapshotRefines(c, s, v);
    case Restart(v) => z := RestartRefines(c, s, v);
    case Load(v) => LoadRefines(c, s, v);
    case Hold(v) => HoldRefines(c, s, v);
    case Above(v, section) => AboveRefines(c, s, v, section);
  }
}
