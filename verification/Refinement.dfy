/** The cluster refines the protocol, first part.

  Simulates couples a cluster with a protocol state: every peer is a window on its
  server's whole log, and every message in the network says something true of the
  history. Here are the coupling, that it survives growing history, and the events
  of a single peer: timeouts, submissions, snapshots, restarts, heartbeats and the
  applier. RequestRefinement.dfy and ReplyRefinement.dfy take the handlers of
  requests and replies, case by case, and put all events together.
*/
module Refinement {
  import opened Session
  import opened Logs
  import opened Quorums
  import opened Protocol
  import opened Steps
  import opened Peers
  import opened Clusters

  // ------------------------------------------------------------------ coupling

  // log is the window above base of an absolute log.
  ghost predicate Window(log: seq<Entry>, base: nat, whole: seq<Entry>) {
    && base < |whole| && |log| == |whole| - base
    && log[0] == Entry(whole[base].term, NoCommand)
    && forall k {:trigger log[k]} :: 1 <= k < |log| ==> log[k] == whole[base + k]
  }

  ghost predicate Saved(p: Peer, pterm: nat) {
    p.disk == Disk(pterm, p.votedFor, p.log, p.lastIncludedIndex, p.lastIncludedTerm, p.snapshot)
  }

  ghost predicate Coupled(p: Peer, x: Server, ordered: bool) {
    && p.currentTerm == x.term && p.votedFor == x.voted && p.role == x.role
    && p.lastIncludedIndex == x.base
    && Window(p.log, x.base, x.log)
    && p.lastIncludedTerm == p.log[0].term
    && Saved(p, x.pterm)
    && (ordered ==> p.commitIndex == x.commit && p.lastApplied <= p.commitIndex && p.lastIncludedIndex <= p.commitIndex)
  }

  ghost predicate BackedBy(s: State, log: seq<Entry>, k: nat, t: nat) {
    exists ct: nat :: ct <= t && Backed(s, log, k, ct)
  }

  // What the leader believes server i has: acknowledged, or committed anyway.
  ghost predicate MatchOk(s: State, t: nat, i: nat, m: int) {
    m <= AckOf(s, i, t) || (m >= 0 && BackedBy(s, LogOf(s, t), m, t))
  }

  ghost predicate TallyOk(s: State, v: nat, p: Peer, counted: set<nat>) {
    && p.voteCount == |counted| + 1
    && forall u {:trigger u in counted} :: u in counted ==>
         u < p.n && u != v && Ballot(u, p.currentTerm) in s.votes && s.votes[Ballot(u, p.currentTerm)].cand == v
  }

  ghost predicate LeaderOk(s: State, v: nat, p: Peer) {
    && |p.nextIndex| == p.n && |p.matchIndex| == p.n
    && (s.ordered ==> forall i {:trigger p.nextIndex[i]} :: 0 <= i < p.n && i != v ==> p.nextIndex[i] <= p.LastLogIndex() + 1)
    && (s.ordered ==> forall i: nat {:trigger MatchOk(s, p.currentTerm, i, p.matchIndex[i])} :: i < p.n && i != v ==>
          MatchOk(s, p.currentTerm, i, p.matchIndex[i]))
  }

  ghost predicate PeerOk(s: State, v: nat, p: Peer, counted: set<nat>) {
    && v < |s.servers| && p.me == v && p.n == |s.servers|
    && Coupled(p, s.servers[v], s.ordered)
    && (p.role == Candidate ==> TallyOk(s, v, p, counted))
    && (p.role == Leader ==> LeaderOk(s, v, p))
  }

  ghost predicate VoteArgsOk(s: State, a: VoteArgs) {
    var b := Ballot(a.candidateId, a.term);
    && b in s.votes && s.votes[b].cand == a.candidateId
    && |s.votes[b].log| == a.lastLogIndex + 1
    && Last(s.votes[b].log).term == a.lastLogTerm
  }

  ghost predicate AppendArgsOk(s: State, to: nat, a: AppendArgs) {
    && a.term in s.reigns && to < |s.servers|
    && var r := s.reigns[a.term];
       && r.leader == a.leaderId && to != a.leaderId
       && r.start <= Reach(a) + 1 <= |r.log|
       && r.log[a.prevLogIndex].term == a.prevLogTerm
       && (forall k {:trigger a.entries[k]} :: 0 <= k < |a.entries| ==> a.entries[k] == r.log[a.prevLogIndex + 1 + k])
       && (s.ordered ==> a.leaderCommit <= Reach(a) && BackedBy(s, r.log, a.leaderCommit, a.term))
  }

  ghost predicate AppendReplyOk(s: State, from: nat, a: AppendArgs, r: AppendReply) {
    && a.term <= r.term
    && (r.success ==> r.term == a.term && (s.ordered ==> Reach(a) <= AckOf(s, from, a.term)))
    && (s.ordered && !r.success && r.term == a.term ==>
          if r.xTerm == -1 then r.xLen <= |LogOf(s, a.term)| else r.xIndex <= a.prevLogIndex)
  }

  ghost predicate InstallArgsOk(s: State, to: nat, a: InstallArgs) {
    && a.term in s.reigns && to < |s.servers|
    && var r := s.reigns[a.term];
       && r.leader == a.leaderId && to != a.leaderId
       && a.lastIncludedIndex < |r.log|
       && r.log[a.lastIncludedIndex].term == a.lastIncludedTerm
       && (s.ordered ==> BackedBy(s, r.log, a.lastIncludedIndex, a.term))
  }

  ghost predicate MessageOk(s: State, m: Message) {
    match m
    case VoteRequest(to, a) => to != a.candidateId && to < |s.servers| && VoteArgsOk(s, a)
    case VoteAnswer(from, a, r) =>
      && from != a.candidateId && from < |s.servers|
      && (r.voteGranted ==> Ballot(from, a.term) in s.votes && s.votes[Ballot(from, a.term)].cand == a.candidateId)
    case AppendRequest(to, a) => AppendArgsOk(s, to, a)
    case AppendAnswer(from, a, r) => AppendArgsOk(s, from, a) && AppendReplyOk(s, from, a, r)
    case InstallRequest(to, a) => InstallArgsOk(s, to, a)
    case InstallAnswer(from, a, r) => InstallArgsOk(s, from, a)
  }

  // The applier and the reader are never ahead of lastApplied.
  ghost predicate ApplierOk(node: Node) {
    && (node.applier.Batch? ==> 0 < |node.applier.entries|
                                && node.applier.start + |node.applier.entries| == node.peer.lastApplied + 1)
    && (node.compactable ==> node.handled <= node.peer.lastApplied)
  }

  ghost predicate NodeOk(s: State, v: nat, node: Node) {
    PeerOk(s, v, node.peer, node.counted) && ApplierOk(node)
  }

  // A follower's acknowledgement is the reach of an accepting reply it sent.
  ghost predicate AckSent(s: State, net: set<Message>, b: Ballot) {
    s.ordered && b in s.acks && b.term > 0 && b.term in s.reigns && s.reigns[b.term].leader != b.who ==>
      exists a, r {:trigger AppendAnswer(b.who, a, r)} ::
        AppendAnswer(b.who, a, r) in net && r.success && a.term == b.term && Reach(a) == s.acks[b]
  }

  ghost predicate Simulates(c: Cluster, s: State) {
    && Inv(s)
    && |c.nodes| == |s.servers|
    && (forall v: nat {:trigger NodeOk(s, v, c.nodes[v])} :: v < |c.nodes| ==> NodeOk(s, v, c.nodes[v]))
    && (forall m {:trigger MessageOk(s, m)} :: m in c.net ==> MessageOk(s, m))
    && (forall b {:trigger AckSent(s, c.net, b)} :: AckSent(s, c.net, b))
  }

  // ------------------------------------------------------------------- growth

  lemma BackedByGrows(s: State, z: State, log: seq<Entry>, log': seq<Entry>, k: nat, t: nat, t': nat)
    requires Grows(s, z) && BackedBy(s, log, k, t) && Same(log, log', |log|) && t <= t'
    ensures BackedBy(z, log', k, t')
  {
    var ct: nat :| ct <= t && Backed(s, log, k, ct);
    BackedGrows(s, z, log, k, ct);
    assert Backed(z, log', k, ct);
  }

  lemma MatchGrows(s: State, z: State, t: nat, i: nat, m: int)
    requires Grows(s, z) && z.ordered && t in s.reigns && MatchOk(s, t, i, m)
    ensures MatchOk(z, t, i, m)
  {
    assert ReignGrows(s, z, t);
    if m <= AckOf(s, i, t) {
      assert Ballot(i, t) in s.acks ==> s.acks[Ballot(i, t)] <= z.acks[Ballot(i, t)];
      if Ballot(i, t) !in s.acks && Ballot(i, t) in z.acks {
        assert m <= z.acks[Ballot(i, t)];
      }
    } else {
      BackedByGrows(s, z, LogOf(s, t), LogOf(z, t), m, t, t);
    }
  }

  lemma PeerGrows(s: State, z: State, v: nat, p: Peer, counted: set<nat>)
    requires Inv(s) && Grows(s, z) && PeerOk(s, v, p, counted) && z.servers[v] == s.servers[v]
    ensures PeerOk(z, v, p, counted)
  {
    if p.role == Leader && z.ordered {
      assert ServerOk(s, v);
      forall i: nat | i < p.n && i != v
        ensures MatchOk(z, p.currentTerm, i, p.matchIndex[i])
      {
        assert MatchOk(s, p.currentTerm, i, p.matchIndex[i]);
        MatchGrows(s, z, p.currentTerm, i, p.matchIndex[i]);
      }
    }
  }

  lemma AppendArgsGrow(s: State, z: State, to: nat, a: AppendArgs)
    requires Inv(s) && Grows(s, z) && AppendArgsOk(s, to, a)
    ensures AppendArgsOk(z, to, a)
  {
    assert ReignGrows(s, z, a.term);
    if z.ordered {
      BackedByGrows(s, z, s.reigns[a.term].log, z.reigns[a.term].log, a.leaderCommit, a.term, a.term);
    }
  }

  lemma InstallArgsGrow(s: State, z: State, to: nat, a: InstallArgs)
    requires Inv(s) && Grows(s, z) && InstallArgsOk(s, to, a)
    ensures InstallArgsOk(z, to, a)
  {
    assert ReignGrows(s, z, a.term);
    if z.ordered {
      BackedByGrows(s, z, s.reigns[a.term].log, z.reigns[a.term].log, a.lastIncludedIndex, a.term, a.term);
    }
  }

  lemma AppendReplyGrows(s: State, z: State, from: nat, a: AppendArgs, r: AppendReply)
    requires Grows(s, z) && AppendArgsOk(s, from, a) && AppendReplyOk(s, from, a, r)
    ensures AppendReplyOk(z, from, a, r)
  {
    assert ReignGrows(s, z, a.term);
    assert z.ordered && Ballot(from, a.term) in s.acks ==> s.acks[Ballot(from, a.term)] <= z.acks[Ballot(from, a.term)];
  }

  lemma MessageGrows(s: State, z: State, m: Message)
    requires Inv(s) && Grows(s, z) && MessageOk(s, m)
    ensures MessageOk(z, m)
  {
    match m
    case VoteRequest(_, a) =>
    case VoteAnswer(from, a, _) =>
    case AppendRequest(to, a) => AppendArgsGrow(s, z, to, a);
    case AppendAnswer(from, a, r) => AppendArgsGrow(s, z, from, a); AppendReplyGrows(s, z, from, a, r);
    case InstallRequest(to, a) => InstallArgsGrow(s, z, to, a);
    case InstallAnswer(from, a, _) => InstallArgsGrow(s, z, from, a);
  }

  ghost predicate OnlyServer(s: State, z: State, v: nat) {
    && |s.servers| == |z.servers|
    && forall u: nat {:trigger s.servers[u]} {:trigger z.servers[u]} :: u < |s.servers| && u != v ==> z.servers[u] == s.servers[u]
  }

  // Acknowledgements other than those of server v to term t are as they were.
  ghost predicate OnlyAck(s: State, z: State, b: Ballot) {
    && (forall d {:trigger d in z.acks} :: d in z.acks && d != b ==> d in s.acks && z.acks[d] == s.acks[d])
    && (forall t: nat {:trigger t in z.reigns} :: t in z.reigns && t !in s.reigns ==> b.term == t && z.reigns[t].leader == b.who)
  }

  lemma AcksStaySent(s: State, z: State, net: set<Message>, sent: set<Message>, b: Ballot, d: Ballot)
    requires Inv(s) && Grows(s, z) && OnlyAck(s, z, b) && AckSent(s, net, d)
    requires d == b ==> AckSent(z, net + sent, d)
    ensures AckSent(z, net + sent, d)
  {
    if z.ordered && d != b && d in z.acks && d.term > 0 && d.term in z.reigns && z.reigns[d.term].leader != d.who {
      assert AckOk(s, d);
      assert ReignGrows(s, z, d.term);
      var a, r :| AppendAnswer(d.who, a, r) in net && r.success && a.term == d.term && Reach(a) == s.acks[d];
      assert AppendAnswer(d.who, a, r) in net + sent;
    }
  }

  // After one node changed and sent something, only these need a look.
  lemma SimulatesUpdate(c: Cluster, s: State, z: State, v: nat, node: Node, sent: set<Message>, b: Ballot)
    requires Simulates(c, s) && Inv(z) && Grows(s, z) && OnlyServer(s, z, v) && OnlyAck(s, z, b)
    requires v < |c.nodes| && NodeOk(z, v, node)
    requires forall m {:trigger MessageOk(z, m)} :: m in sent ==> MessageOk(z, m)
    requires AckSent(z, c.net + sent, b)
    ensures Simulates(Update(c, v, node, sent), z)
  {
    var d := Update(c, v, node, sent);
    forall u: nat | u < |d.nodes|
      ensures NodeOk(z, u, d.nodes[u])
    {
      if u != v {
        assert NodeOk(s, u, c.nodes[u]);
        PeerGrows(s, z, u, c.nodes[u].peer, c.nodes[u].counted);
      }
    }
    forall m | m in d.net
      ensures MessageOk(z, m)
    {
      if m in c.net {
        assert MessageOk(s, m);
        MessageGrows(s, z, m);
      }
    }
    forall e
      ensures AckSent(z, d.net, e)
    {
      assert AckSent(s, c.net, e);
      AcksStaySent(s, z, c.net, sent, b, e);
    }
  }

  // The same for a step that acknowledges nothing and elects nobody.
  lemma QuietUpdate(c: Cluster, s: State, z: State, v: nat, node: Node, sent: set<Message>)
    requires Simulates(c, s) && Inv(z) && Grows(s, z) && OnlyServer(s, z, v)
    requires z.acks == s.acks && z.reigns == s.reigns
    requires v < |c.nodes| && NodeOk(z, v, node)
    requires forall m {:trigger MessageOk(z, m)} :: m in sent ==> MessageOk(z, m)
    ensures Simulates(Update(c, v, node, sent), z)
  {
    SimulatesUpdate(c, s, z, v, node, sent, Ballot(0, 0));
  }

  // Leaders' logs grow only by the command of a Submit, one entry of one log at a time.
  ghost predicate NewEntries(s: State, z: State, e: Event) {
    && (forall t: nat {:trigger t in z.reigns} :: t in z.reigns && t !in s.reigns ==> |z.reigns[t].log| == z.reigns[t].start)
    && (z.reigns == s.reigns
        || (forall t: nat {:trigger t in s.reigns} :: t in s.reigns ==> t in z.reigns && z.reigns[t].log == s.reigns[t].log)
        || (e.Submit? && exists u: nat {:trigger Appended(s, z, u, e.c)} :: Appended(s, z, u, e.c)))
  }

  ghost predicate Appended(s: State, z: State, u: nat, c: Command) {
    && u in s.reigns && z.reigns.Keys == s.reigns.Keys
    && z.reigns[u].log == s.reigns[u].log + [Entry(u, c)]
    && forall t: nat {:trigger t in s.reigns} :: t in s.reigns && t != u ==> z.reigns[t].log == s.reigns[t].log
  }

  lemma GrowsReflexive(s: State)
    ensures Grows(s, s)
  {
  }

  // A node changed, and nothing of the protocol.
  lemma StillSimulates(c: Cluster, s: State, v: nat, node: Node)
    requires Simulates(c, s) && v < |c.nodes| && NodeOk(s, v, node)
    ensures Simulates(Update(c, v, node, {}), s)
  {
    GrowsReflexive(s);
    QuietUpdate(c, s, s, v, node, {});
  }

  lemma WindowTerms(log: seq<Entry>, base: nat, whole: seq<Entry>)
    requires Window(log, base, whole)
    ensures 0 < |log| && |whole| == base + |log|
    ensures forall k {:trigger log[k]} :: 0 <= k < |log| ==> log[k].term == whole[base + k].term
    ensures Last(log).term == Last(whole).term
  {
  }

  // Compacting a window up to entry i.
  lemma WindowCut(log: seq<Entry>, base: nat, whole: seq<Entry>, i: nat)
    requires Window(log, base, whole) && base <= i < |whole|
    ensures Window([Entry(whole[i].term, NoCommand)] + log[i - base + 1..], i, whole)
  {
  }

  // ------------------------------------------------------------ local events

  lemma TimeoutRefines(c: Cluster, s: State, v: nat) returns (z: State)
    requires Simulates(c, s) && Possible(c, Timeout(v))
    ensures Simulates(Step(c, Timeout(v)), z) && Grows(s, z) && z.ordered == s.ordered && z.reigns == s.reigns
  {
    var node, o := c.nodes[v], s.servers[v];
    assert NodeOk(s, v, node) && ServerOk(s, v);
    var t := o.term + 1;
    z := Cast(s, v, v, t);
    CastKeeps(s, v, v, t);
    assert VoteOk(s, Ballot(v, t));
    WindowTerms(node.peer.log, o.base, o.log);
    var (q, a) := Campaign(node.peer);
    QuietUpdate(c, s, z, v, node.(peer := q, counted := {}), VoteRequests(v, node.peer.n, a));
  }

  lemma SubmitRefines(c: Cluster, s: State, v: nat, command: Command, k: nat) returns (z: State)
    requires Simulates(c, s) && Possible(c, Submit(v, command, k))
    ensures Simulates(Step(c, Submit(v, command, k)), z) && Grows(s, z) && z.ordered == s.ordered
    ensures NewEntries(s, z, Submit(v, command, k))
  {
    var node, x := c.nodes[v], Step(c, Submit(v, command, k)).nodes[v];
    assert NodeOk(s, v, node);
    if node.peer.role == Leader {
      z := LeaderExtends(c, s, v, command, x);
    } else {
      z := s;
      GrowsReflexive(s);
      QuietUpdate(c, s, z, v, x, {});
    }
  }

  lemma LeaderExtends(c: Cluster, s: State, v: nat, command: Command, x: Node) returns (z: State)
    requires Simulates(c, s) && v < |c.nodes| && c.nodes[v].peer.role == Leader
    requires x == c.nodes[v].(peer := Start(c.nodes[v].peer, command).0, table := x.table)
    ensures Simulates(Update(c, v, x, {}), z)
    ensures Grows(s, z) && z.ordered == s.ordered && Appended(s, z, s.servers[v].term, command)
  {
    var node, o := c.nodes[v], s.servers[v];
    assert NodeOk(s, v, node) && ServerOk(s, v);
    z := Extend(s, v, command);
    ExtendKeeps(s, v, command);
    ExtendedLeader(s, z, v, command, node);
    assert NodeOk(z, v, x);
    SimulatesUpdate(c, s, z, v, x, {}, Ballot(v, o.term));
  }

  lemma ExtendedLeader(s: State, z: State, v: nat, command: Command, node: Node)
    requires Inv(s) && NodeOk(s, v, node) && CanExtend(s, v) && z == Extend(s, v, command) && Grows(s, z)
    ensures NodeOk(z, v, node.(peer := Start(node.peer, command).0))
  {
    var p := node.peer;
    assert ServerOk(s, v);
    if z.ordered {
      forall i: nat | i < p.n && i != v
        ensures MatchOk(z, p.currentTerm, i, p.matchIndex[i])
      {
        assert MatchOk(s, p.currentTerm, i, p.matchIndex[i]);
        MatchGrows(s, z, p.currentTerm, i, p.matchIndex[i]);
      }
    }
  }

  lemma RestartRefines(c: Cluster, s: State, v: nat) returns (z: State)
    requires Simulates(c, s) && Possible(c, Restart(v))
    ensures Simulates(Step(c, Restart(v)), z) && Grows(s, z) && z.ordered == s.ordered && z.reigns == s.reigns
  {
    var node, o := c.nodes[v], s.servers[v];
    assert NodeOk(s, v, node) && ServerOk(s, v);
    var x := o.(term := o.pterm, role := Follower, commit := o.base);
    z := Settle(s, v, x);
    SettleKeeps(s, v, x);
    QuietUpdate(c, s, z, v, Boot(node.peer.me, node.peer.n, node.peer.disk), {});
  }

  lemma SnapshotRefines(c: Cluster, s: State, v: nat) returns (z: State)
    requires Simulates(c, s) && Possible(c, Snapshot(v))
    ensures Simulates(Step(c, Snapshot(v)), z) && Grows(s, z) && z.ordered == s.ordered && z.reigns == s.reigns
  {
    var node := c.nodes[v];
    assert NodeOk(s, v, node);
    z := CompactStep(s, v, node);
    QuietUpdate(c, s, z, v, node.(peer := Compact(node.peer, node.handled, Blob(node.sessions)), compactable := false), {});
  }

  lemma CompactStep(s: State, v: nat, node: Node) returns (z: State)
    requires Inv(s) && NodeOk(s, v, node) && node.compactable
    ensures Inv(z) && Grows(s, z) && OnlyServer(s, z, v) && z.acks == s.acks && z.ordered == s.ordered && z.reigns == s.reigns
    ensures NodeOk(z, v, node.(peer := Compact(node.peer, node.handled, Blob(node.sessions)), compactable := false))
  {
    var o := s.servers[v];
    assert ServerOk(s, v);
    WindowTerms(node.peer.log, o.base, o.log);
    if node.handled <= o.base || node.handled >= |o.log| {
      z := s;
      GrowsReflexive(s);
    } else {
      z := Settle(s, v, o.(pterm := o.term, base := node.handled));
      SettleKeeps(s, v, o.(pterm := o.term, base := node.handled));
      CompactedPeer(s, z, v, node);
    }
  }

  lemma CompactedPeer(s: State, z: State, v: nat, node: Node)
    requires Inv(s) && NodeOk(s, v, node) && node.compactable
    requires s.servers[v].base < node.handled < |s.servers[v].log|
    requires z == Settle(s, v, s.servers[v].(pterm := s.servers[v].term, base := node.handled)) && Grows(s, z)
    ensures NodeOk(z, v, node.(peer := Compact(node.peer, node.handled, Blob(node.sessions)), compactable := false))
  {
    var p, o := node.peer, s.servers[v];
    assert ServerOk(s, v);
    WindowTerms(p.log, o.base, o.log);
    WindowCut(p.log, o.base, o.log, node.handled);
    if p.role == Leader && z.ordered {
      forall i: nat | i < p.n && i != v
        ensures MatchOk(z, p.currentTerm, i, p.matchIndex[i])
      {
        assert MatchOk(s, p.currentTerm, i, p.matchIndex[i]);
        MatchGrows(s, z, p.currentTerm, i, p.matchIndex[i]);
      }
    }
  }

  lemma TakeCommittedRefines(c: Cluster, s: State, v: nat, stale: seq<Entry>)
    requires Simulates(c, s) && Possible(c, TakeCommitted(v, stale))
    ensures Simulates(Step(c, TakeCommitted(v, stale)), s)
  {
    var node := c.nodes[v];
    assert NodeOk(s, v, node);
    GrabbedNode(s, v, node, stale);
    StillSimulates(c, s, v, node.(peer := Grab(node.peer, stale).0, applier := Grab(node.peer, stale).1));
  }

  lemma GrabbedNode(s: State, v: nat, node: Node, stale: seq<Entry>)
    requires Inv(s) && NodeOk(s, v, node) && node.peer.Formed() && |stale| == Overreach(node.peer) && node.applier == Idle
    ensures var (q, a) := Grab(node.peer, stale); NodeOk(s, v, node.(peer := q, applier := a))
  {
    assert ServerOk(s, v);
  }

  lemma FeedRefines(c: Cluster, s: State, v: nat)
    requires Simulates(c, s) && Possible(c, Feed(v))
    ensures Simulates(Step(c, Feed(v)), s)
  {
    var node := c.nodes[v];
    assert NodeOk(s, v, node) && ServerOk(s, v);
    StillSimulates(c, s, v, Fed(node));
    var d := Update(c, v, Fed(node), {});
    var e := Step(c, Feed(v));
    assert e == d.(delivered := e.delivered);
  }

  lemma LoadRefines(c: Cluster, s: State, v: nat)
    requires Simulates(c, s) && Possible(c, Load(v))
    ensures Simulates(Step(c, Load(v)), s)
  {
    assert NodeOk(s, v, c.nodes[v]);
    StillSimulates(c, s, v, Loaded(c.nodes[v]));
  }

  lemma HoldRefines(c: Cluster, s: State, v: nat)
    requires Simulates(c, s) && Possible(c, Hold(v))
    ensures Simulates(Step(c, Hold(v)), s)
  {
    assert NodeOk(s, v, c.nodes[v]);
    StillSimulates(c, s, v, Held(c.nodes[v]));
  }

  lemma AboveRefines(c: Cluster, s: State, v: nat, section: Section)
    requires Simulates(c, s) && Possible(c, Above(v, section))
    ensures Simulates(Step(c, Above(v, section)), s)
  {
    assert NodeOk(s, v, c.nodes[v]);
    StillSimulates(c, s, v, AfterSection(c.nodes[v], section));
  }

  lemma HeartbeatRefines(c: Cluster, s: State, v: nat)
    requires Simulates(c, s) && Possible(c, Heartbeat(v))
    ensures Simulates(Step(c, Heartbeat(v)), s)
  {
    var node := c.nodes[v];
    assert NodeOk(s, v, node);
    GrowsReflexive(s);
    forall m | m in Heartbeats(node.peer)
      ensures MessageOk(s, m)
    {
      var i: nat :| i < node.peer.n && i != v && m == Address(i, Build(node.peer, i));
      BuiltOk(s, v, node, i);
    }
    QuietUpdate(c, s, s, v, node, Heartbeats(node.peer));
  }

  lemma BuiltOk(s: State, v: nat, node: Node, i: nat)
    requires Inv(s) && NodeOk(s, v, node) && node.peer.InRange() && node.peer.role == Leader
    requires i < node.peer.n && i != v
    ensures MessageOk(s, Address(i, Build(node.peer, i)))
  {
    var p, o := node.peer, s.servers[v];
    LeaderReign(s, v);
    if s.ordered {
      LeaderCommits(s, v);
    }
    match Build(p, i)
    case SendAppend(a) => BuiltAppend(p, i, a, o.log);
    case SendInstall(a) => BuiltInstall(p, i, a, o.log);
  }

  lemma LeaderReign(s: State, v: nat)
    requires Inv(s) && v < |s.servers| && s.servers[v].role == Leader
    ensures var o := s.servers[v];
            && o.pterm == o.term && o.term in s.reigns && s.reigns[o.term].leader == v
            && s.reigns[o.term].log == o.log && s.reigns[o.term].start <= |o.log|
  {
    assert ServerOk(s, v) && ReignOk(s, s.servers[v].term);
  }

  lemma LeaderCommits(s: State, v: nat)
    requires Inv(s) && s.ordered && v < |s.servers|
    ensures var o := s.servers[v]; BackedBy(s, o.log, o.commit, o.pterm) && BackedBy(s, o.log, o.base, o.pterm)
  {
    var o := s.servers[v];
    assert ServerOk(s, v);
    assert Backed(s, o.log, o.commit, o.cterm) && Backed(s, o.log, o.base, o.cterm);
  }

  // An AppendEntries carries the log from the entry it checks on.
  lemma BuiltAppend(p: Peer, i: nat, a: AppendArgs, whole: seq<Entry>)
    requires p.Formed() && p.InRange() && p.role == Leader && i < p.n && i != p.me && Build(p, i) == SendAppend(a)
    requires Window(p.log, p.lastIncludedIndex, whole)
    ensures Reach(a) + 1 == |whole| && a.prevLogIndex < |whole| && whole[a.prevLogIndex].term == a.prevLogTerm
    ensures a.term == p.currentTerm && a.leaderId == p.me && a.leaderCommit == p.commitIndex
    ensures forall k {:trigger a.entries[k]} :: 0 <= k < |a.entries| ==> a.entries[k] == whole[a.prevLogIndex + 1 + k]
  {
    WindowTerms(p.log, p.lastIncludedIndex, whole);
  }

  lemma BuiltInstall(p: Peer, i: nat, a: InstallArgs, whole: seq<Entry>)
    requires p.Formed() && p.InRange() && p.role == Leader && i < p.n && i != p.me && Build(p, i) == SendInstall(a)
    requires Window(p.log, p.lastIncludedIndex, whole) && p.lastIncludedTerm == p.log[0].term
    ensures a.term == p.currentTerm && a.leaderId == p.me && a.lastIncludedIndex == p.lastIncludedIndex < |whole|
    ensures whole[a.lastIncludedIndex].term == a.lastIncludedTerm
  {
  }
}
