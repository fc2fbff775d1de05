/** What a replica computes: every replica is a fold of the committed log.

  ReplicaOk says so of one node: its state machine holds the fold of its committed log
  up to the index it handled last, its snapshot the fold up to its index, the batch its
  applier still holds is the next stretch of that log, and its apply stream has no gap.
  DataOk says it of the snapshots on their way in InstallSnapshot messages, and
  DeliveryOk of every command ever put on an apply channel. Committed entries never
  change (CommittedStays), so all three survive as history grows; the lemmas below take
  the events one by one, each as a lemma about the node it happens to and one about the
  cluster, and EventReplicates puts them together. All of it is about states in order.
*/
module Replicas {
  import opened Session
  import opened Logs
  import opened Protocol
  import opened Steps
  import opened Peers
  import opened Clusters
  import opened Folds
  import opened Refinement
  import opened RequestRefinement
  import opened ReplyRefinement

  // What the state machine of a node holds. Before it is up, the peer handles no
  // requests, so its snapshot stays the one it was made with.
  ghost predicate SessionsOk(log: seq<Entry>, base: nat, node: Node) {
    && node.handled < |log|
    && if node.up then node.sessions == Fold(log, node.handled)
       else node.handled == base && !node.compactable
  }

  ghost predicate SnapshotOk(log: seq<Entry>, base: nat, b: Blob) {
    base < |log| && b == if base == 0 then NoBlob else Blob(Fold(log, base))
  }

  // Each command message carries the index after the message before it; a
  // snapshot message does not go back.
  ghost predicate Gapless(stream: seq<ApplyMsg>) {
    forall i {:trigger stream[i]} :: 0 < i < |stream| ==>
      match stream[i]
      case ApplyCommand(k, _) => k == stream[i - 1].index + 1
      case ApplySnapshot(k, _) => k >= stream[i - 1].index
  }

  // Where the applier is relative to the last message the reader took.
  ghost predicate PipelineOk(log: seq<Entry>, node: Node) {
    match node.applier
    case Idle => node.handled == node.peer.lastApplied || node.peer.lastApplied < node.handled <= node.peer.lastIncludedIndex
    case SnapshotDue => node.handled <= node.peer.lastIncludedIndex && node.peer.lastApplied <= node.peer.lastIncludedIndex
    case SnapshotHeld(index, data) =>
      node.handled <= index <= node.peer.lastIncludedIndex && node.peer.lastApplied <= index && SnapshotOk(log, index, data)
    case Batch(start, entries) =>
      && start == node.handled + 1 && start + |entries| <= |log|
      && forall k {:trigger entries[k]} :: 0 <= k < |entries| ==> entries[k] == log[start + k]
  }

  ghost predicate ReplicaOk(s: State, v: nat, node: Node) {
    && v < |s.servers|
    && var x := s.servers[v];
       && node.handled <= x.commit < |x.log|
       && SessionsOk(x.log, x.base, node)
       && SnapshotOk(x.log, x.base, node.peer.snapshot)
       && PipelineOk(x.log, node)
       && 0 < |node.stream| && Gapless(node.stream) && node.stream[|node.stream| - 1].index == node.handled
  }

  ghost predicate DataOk(s: State, m: Message) {
    m.InstallRequest? ==> SnapshotOk(LogOf(s, m.install.term), m.install.lastIncludedIndex, m.install.data)
  }

  ghost predicate Chosen(s: State, ct: nat, k: nat, c: Command) {
    k < |LogOf(s, ct)| && LogOf(s, ct)[k].command == c && Backed(s, LogOf(s, ct), k, ct)
  }

  ghost predicate DeliveryOk(s: State, d: Delivery) {
    exists ct: nat :: Chosen(s, ct, d.index, d.command)
  }

  ghost predicate Replicated(c: Cluster, s: State) {
    && (forall v: nat {:trigger ReplicaOk(s, v, c.nodes[v])} :: v < |c.nodes| ==> ReplicaOk(s, v, c.nodes[v]))
    && (forall m {:trigger DataOk(s, m)} :: m in c.net ==> DataOk(s, m))
    && (forall d {:trigger DeliveryOk(s, d)} :: d in c.delivered ==> DeliveryOk(s, d))
  }

  // What both states know to be committed at a server is the same.
  lemma CommittedStays(s: State, z: State, v: nat, k: nat)
    requires Inv(s) && Inv(z) && Grows(s, z) && z.ordered && v < |s.servers|
    requires k <= s.servers[v].commit && k <= z.servers[v].commit
    ensures Same(s.servers[v].log, z.servers[v].log, k + 1)
  {
    var x, y := s.servers[v], z.servers[v];
    assert ServerOk(s, v) && ServerOk(z, v);
    BackedGrows(s, z, x.log, x.commit, x.cterm);
    CommitsAgree(z, x.cterm, y.cterm, k);
  }

  // A server and the leader of a term agree on what both know to be committed.
  lemma CommittedWithLeader(z: State, v: nat, t: nat, k: nat)
    requires Inv(z) && z.ordered && v < |z.servers| && k <= z.servers[v].commit && BackedBy(z, LogOf(z, t), k, t)
    ensures Same(z.servers[v].log, LogOf(z, t), k + 1)
  {
    assert ServerOk(z, v);
    var ct: nat :| ct <= t && Backed(z, LogOf(z, t), k, ct);
    CommitsAgree(z, z.servers[v].cterm, ct, k);
  }

  // ------------------------------------------------------------------- growth

  // Of the replica itself, only the calls that wait for it may differ.
  ghost predicate SameReplica(node: Node, y: Node) {
    && y == node.(peer := y.peer, counted := y.counted, table := y.table, due := y.due, compactable := y.compactable)
    && (y.compactable ==> node.compactable)
  }

  // A replica whose peer moved on without undoing anything.
  lemma ReplicaGrows(s: State, z: State, v: nat, node: Node, y: Node)
    requires Inv(s) && Inv(z) && Grows(s, z) && z.ordered
    requires NodeOk(s, v, node) && NodeOk(z, v, y) && ReplicaOk(s, v, node) && SameReplica(node, y)
    requires y.peer.lastApplied == node.peer.lastApplied
    requires node.peer.lastIncludedIndex <= y.peer.lastIncludedIndex && node.peer.commitIndex <= y.peer.commitIndex
    requires !node.up ==> y.peer.lastIncludedIndex == node.peer.lastIncludedIndex
    requires SnapshotOk(z.servers[v].log, y.peer.lastIncludedIndex, y.peer.snapshot)
    ensures ReplicaOk(z, v, y)
  {
    var a, b := s.servers[v], z.servers[v];
    assert ServerOk(s, v) && ServerOk(z, v);
    CommittedStays(s, z, v, a.commit);
    FoldSame(a.log, b.log, node.handled);
    PipelineSame(a.log, b.log, a.commit, node, y);
  }

  lemma PipelineSame(a: seq<Entry>, b: seq<Entry>, commit: nat, node: Node, y: Node)
    requires PipelineOk(a, node) && Same(a, b, commit + 1)
    requires node.applier.Batch? ==> node.applier.start + |node.applier.entries| <= commit + 1
    requires node.peer.lastIncludedIndex <= commit
    requires y.applier == node.applier && y.handled == node.handled
    requires y.peer.lastApplied == node.peer.lastApplied && node.peer.lastIncludedIndex <= y.peer.lastIncludedIndex
    ensures PipelineOk(b, y)
  {
    if node.applier.SnapshotHeld? {
      FoldSame(a, b, node.applier.index);
    }
  }

  // The snapshot on a server stays right while it is not replaced.
  lemma SnapshotStays(s: State, z: State, v: nat)
    requires Inv(s) && Inv(z) && Grows(s, z) && z.ordered && v < |s.servers|
    requires s.servers[v].base <= z.servers[v].commit
    ensures forall b {:trigger SnapshotOk(s.servers[v].log, s.servers[v].base, b)} ::
              SnapshotOk(s.servers[v].log, s.servers[v].base, b) ==> SnapshotOk(z.servers[v].log, s.servers[v].base, b)
  {
    assert ServerOk(s, v);
    CommittedStays(s, z, v, s.servers[v].base);
    FoldSame(s.servers[v].log, z.servers[v].log, s.servers[v].base);
  }

  lemma DataGrows(s: State, z: State, m: Message)
    requires Grows(s, z) && MessageOk(s, m) && DataOk(s, m)
    ensures DataOk(z, m)
  {
    if m.InstallRequest? {
      var t, i := m.install.term, m.install.lastIncludedIndex;
      assert ReignGrows(s, z, t);
      FoldSame(LogOf(s, t), LogOf(z, t), i);
    }
  }

  lemma DeliveryGrows(s: State, z: State, d: Delivery)
    requires Grows(s, z) && DeliveryOk(s, d)
    ensures DeliveryOk(z, d)
  {
    var ct: nat :| Chosen(s, ct, d.index, d.command);
    assert ReignGrows(s, z, ct);
    assert Chosen(z, ct, d.index, d.command);
  }

  // After one node changed, sent and delivered something, only these need a look.
  lemma ReplicatedUpdate(c: Cluster, s: State, d: Cluster, z: State, v: nat)
    requires Simulates(c, s) && Simulates(d, z) && Grows(s, z) && z.ordered && Replicated(c, s)
    requires v < |c.nodes| == |d.nodes| && forall u {:trigger d.nodes[u]} :: 0 <= u < |c.nodes| && u != v ==> d.nodes[u] == c.nodes[u]
    requires ReplicaOk(z, v, d.nodes[v])
    requires forall m {:trigger DataOk(z, m)} :: m in d.net && m !in c.net ==> DataOk(z, m)
    requires forall x {:trigger DeliveryOk(z, x)} :: x in d.delivered && x !in c.delivered ==> DeliveryOk(z, x)
    ensures Replicated(d, z)
  {
    forall u: nat | u < |d.nodes|
      ensures ReplicaOk(z, u, d.nodes[u])
    {
      if u != v {
        OtherReplica(c, s, d, z, u);
      }
    }
    forall m | m in d.net
      ensures DataOk(z, m)
    {
      if m in c.net {
        assert MessageOk(s, m) && DataOk(s, m);
        DataGrows(s, z, m);
      }
    }
    forall x | x in d.delivered
      ensures DeliveryOk(z, x)
    {
      if x in c.delivered {
        assert DeliveryOk(s, x);
        DeliveryGrows(s, z, x);
      }
    }
  }

  lemma OtherReplica(c: Cluster, s: State, d: Cluster, z: State, u: nat)
    requires Simulates(c, s) && Simulates(d, z) && Grows(s, z) && z.ordered && Replicated(c, s)
    requires u < |c.nodes| == |d.nodes| && d.nodes[u] == c.nodes[u]
    ensures ReplicaOk(z, u, d.nodes[u])
  {
    var node := c.nodes[u];
    assert NodeOk(s, u, node) && NodeOk(z, u, node) && ReplicaOk(s, u, node);
    assert ServerOk(s, u);
    SnapshotStays(s, z, u);
    ReplicaGrows(s, z, u, node, node);
  }

  // ------------------------------------------------------------ peer events

  // The peer of a node kept its snapshot, and undid nothing.
  ghost predicate PeerMoved(node: Node, y: Node) {
    && SameReplica(node, y)
    && y.peer.lastApplied == node.peer.lastApplied
    && y.peer.lastIncludedIndex == node.peer.lastIncludedIndex && y.peer.snapshot == node.peer.snapshot
    && node.peer.commitIndex <= y.peer.commitIndex
  }

  lemma MovedReplica(s: State, z: State, v: nat, node: Node, y: Node)
    requires Inv(s) && Inv(z) && Grows(s, z) && z.ordered
    requires NodeOk(s, v, node) && NodeOk(z, v, y) && ReplicaOk(s, v, node) && PeerMoved(node, y)
    ensures ReplicaOk(z, v, y)
  {
    assert ServerOk(s, v);
    SnapshotStays(s, z, v);
    ReplicaGrows(s, z, v, node, y);
  }

  // Accepting entries in order leaves the commit index within the log.
  lemma AcceptKeepsCommit(c: Cluster, s: State, v: nat, a: AppendArgs)
    requires Simulates(c, s) && s.ordered && v < |c.nodes|
    requires AppendRequest(v, a) in c.net && InOrder(c.net, v, a)
    requires AppendEntries(c.nodes[v].peer, a).1.success
    ensures c.nodes[v].peer.commitIndex <= AppendEntries(c.nodes[v].peer, a).0.commitIndex
  {
    var node := c.nodes[v];
    assert NodeOk(s, v, node) && MessageOk(s, AppendRequest(v, a));
    AcksInOrder(c, s, v, a);
    var ct := CanAccept(s, v, node, a);
    CommittedSurvives(s, v, a.term, a.prevLogIndex, Reach(a), a.leaderCommit, ct);
    AcceptedLog(node.peer, a);
    AcceptedCommit(node.peer, a);
  }

  lemma AcceptedCommit(p: Peer, a: AppendArgs)
    requires AppendEntries(p, a).1.success && p.commitIndex <= Reach(a)
    ensures p.commitIndex <= AppendEntries(p, a).0.commitIndex
  {
  }

  lemma ReceiveMoves(c: Cluster, s: State, v: nat, m: Message)
    requires Simulates(c, s) && s.ordered && Possible(c, Receive(v, m)) && Ordered(c, Receive(v, m))
    requires !m.InstallRequest?
    ensures PeerMoved(c.nodes[v], Handle(c.nodes[v], v, m).0)
  {
    var node := c.nodes[v];
    if m.AppendRequest? && AppendEntries(node.peer, m.append).1.success {
      AcceptKeepsCommit(c, s, v, m.append);
    }
  }

  lemma ReplyMoves(node: Node, v: nat, m: Message)
    requires node.peer.Formed() && CanTakeReply(node, v, m)
    ensures PeerMoved(node, Take(node, v, m))
  {
    if m.AppendAnswer? && node.peer.role == Leader && m.appendReply.success {
      var q := MatchedUpTo(node.peer, m.from, Reach(m.append));
      TargetMeaning(q, q.LastLogIndex());
    }
  }

  // The node after an event that changes only its peer.
  lemma PeerEvent(c: Cluster, s: State, d: Cluster, z: State, v: nat, y: Node, sent: set<Message>)
    requires Simulates(c, s) && Simulates(d, z) && Grows(s, z) && z.ordered && Replicated(c, s)
    requires v < |c.nodes| && PeerMoved(c.nodes[v], y) && d == Update(c, v, y, sent)
    requires forall m :: m in sent ==> !m.InstallRequest?
    ensures Replicated(d, z)
  {
    var node := c.nodes[v];
    assert d.nodes[v] == y;
    assert NodeOk(s, v, node) && NodeOk(z, v, y) && ReplicaOk(s, v, node);
    MovedReplica(s, z, v, node, y);
    ReplicatedUpdate(c, s, d, z, v);
  }

  // A follower that installed a snapshot.
  lemma InstallReplicates(c: Cluster, s: State, d: Cluster, z: State, v: nat, a: InstallArgs)
    requires Simulates(c, s) && Possible(c, Receive(v, InstallRequest(v, a)))
    requires d == Step(c, Receive(v, InstallRequest(v, a)))
    requires Simulates(d, z) && Grows(s, z) && z.ordered && Replicated(c, s)
    ensures Replicated(d, z)
  {
    InstallNode(c, s, d, z, v, a);
    ReplicatedUpdate(c, s, d, z, v);
  }

  lemma InstallNode(c: Cluster, s: State, d: Cluster, z: State, v: nat, a: InstallArgs)
    requires Simulates(c, s) && Possible(c, Receive(v, InstallRequest(v, a)))
    requires d == Step(c, Receive(v, InstallRequest(v, a)))
    requires Simulates(d, z) && Grows(s, z) && z.ordered && Replicated(c, s)
    ensures ReplicaOk(z, v, d.nodes[v])
  {
    var node, y, m := c.nodes[v], d.nodes[v], InstallRequest(v, a);
    assert NodeOk(s, v, node) && NodeOk(z, v, y) && ReplicaOk(s, v, node);
    assert MessageOk(s, m) && DataOk(s, m);
    InstalledReplica(s, z, v, node, y, a);
  }

  lemma InstalledReplica(s: State, z: State, v: nat, node: Node, y: Node, a: InstallArgs)
    requires Inv(s) && Inv(z) && Grows(s, z) && z.ordered
    requires NodeOk(s, v, node) && NodeOk(z, v, y) && ReplicaOk(s, v, node) && node.up
    requires MessageOk(s, InstallRequest(v, a)) && DataOk(s, InstallRequest(v, a))
    requires y == node.(peer := InstallSnapshot(node.peer, a).0)
    ensures ReplicaOk(z, v, y)
  {
    if y.peer.lastIncludedIndex == node.peer.lastIncludedIndex {
      MovedReplica(s, z, v, node, y);
    } else {
      InstalledSnapshot(s, z, v, node, y, a);
      ReplicaGrows(s, z, v, node, y);
    }
  }

  lemma InstalledSnapshot(s: State, z: State, v: nat, node: Node, y: Node, a: InstallArgs)
    requires Inv(s) && Inv(z) && Grows(s, z) && z.ordered && NodeOk(z, v, y)
    requires MessageOk(s, InstallRequest(v, a)) && DataOk(s, InstallRequest(v, a))
    requires y.peer == InstallSnapshot(node.peer, a).0 && y.peer.lastIncludedIndex != node.peer.lastIncludedIndex
    ensures SnapshotOk(z.servers[v].log, y.peer.lastIncludedIndex, y.peer.snapshot)
  {
    var i := a.lastIncludedIndex;
    InstallArgsGrow(s, z, v, a);
    DataGrows(s, z, InstallRequest(v, a));
    assert DataOk(z, InstallRequest(v, a));
    CommittedWithLeader(z, v, a.term, i);
    FoldSame(z.servers[v].log, LogOf(z, a.term), i);
  }

  lemma HeartbeatReplicates(c: Cluster, s: State, d: Cluster, z: State, v: nat)
    requires Simulates(c, s) && Possible(c, Heartbeat(v)) && d == Step(c, Heartbeat(v))
    requires Simulates(d, z) && Grows(s, z) && z.ordered && Replicated(c, s)
    ensures Replicated(d, z)
  {
    HeartbeatNode(c, s, d, z, v);
    ReplicatedUpdate(c, s, d, z, v);
  }

  lemma HeartbeatNode(c: Cluster, s: State, d: Cluster, z: State, v: nat)
    requires Simulates(c, s) && Possible(c, Heartbeat(v)) && d == Step(c, Heartbeat(v))
    requires Simulates(d, z) && Grows(s, z) && z.ordered && Replicated(c, s)
    ensures ReplicaOk(z, v, d.nodes[v])
    ensures forall m {:trigger DataOk(z, m)} :: m in Heartbeats(c.nodes[v].peer) ==> DataOk(z, m)
  {
    var node := c.nodes[v];
    assert NodeOk(s, v, node) && NodeOk(z, v, d.nodes[v]) && ReplicaOk(s, v, node) && ServerOk(z, v);
    MovedReplica(s, z, v, node, node);
    forall m | m in Heartbeats(node.peer)
      ensures DataOk(z, m)
    {
      var i: nat :| i < node.peer.n && i != v && m == Address(i, Build(node.peer, i));
    }
  }

  // --------------------------------------------------------- replica events

  lemma TakeCommittedReplicates(c: Cluster, s: State, d: Cluster, z: State, v: nat, stale: seq<Entry>)
    requires Simulates(c, s) && Possible(c, TakeCommitted(v, stale)) && d == Step(c, TakeCommitted(v, stale))
    requires Simulates(d, z) && Grows(s, z) && z.ordered && Replicated(c, s)
    ensures Replicated(d, z)
  {
    TakeCommittedNode(c, s, d, z, v, stale);
    ReplicatedUpdate(c, s, d, z, v);
  }

  lemma TakeCommittedNode(c: Cluster, s: State, d: Cluster, z: State, v: nat, stale: seq<Entry>)
    requires Simulates(c, s) && Possible(c, TakeCommitted(v, stale)) && d == Step(c, TakeCommitted(v, stale))
    requires Simulates(d, z) && Grows(s, z) && z.ordered && Replicated(c, s)
    ensures ReplicaOk(z, v, d.nodes[v])
  {
    var node, y := c.nodes[v], d.nodes[v];
    assert NodeOk(s, v, node) && NodeOk(z, v, y) && ReplicaOk(s, v, node);
    WithinLog(s, v, node);
    TakenReplica(s, z, v, node, y);
  }

  // In order, the applier never reaches beyond the end of the log.
  lemma WithinLog(s: State, v: nat, node: Node)
    requires Inv(s) && s.ordered && NodeOk(s, v, node)
    ensures node.peer.Safe() && Overreach(node.peer) == 0
  {
    var p, x := node.peer, s.servers[v];
    assert ServerOk(s, v);
    WindowTerms(p.log, x.base, x.log);
  }

  lemma TakenReplica(s: State, z: State, v: nat, node: Node, y: Node)
    requires Inv(s) && Inv(z) && Grows(s, z) && z.ordered && node.peer.Safe() && node.applier == Idle
    requires NodeOk(s, v, node) && NodeOk(z, v, y) && ReplicaOk(s, v, node)
    requires y == node.(peer := Grab(node.peer, []).0, applier := Grab(node.peer, []).1)
    ensures ReplicaOk(z, v, y)
  {
    assert ServerOk(s, v);
    GrabbedReplica(s, v, node);
    assert NodeOk(s, v, y);
    MovedReplica(s, z, v, y, y);
  }

  lemma GrabbedReplica(s: State, v: nat, node: Node)
    requires Inv(s) && s.ordered && NodeOk(s, v, node) && ReplicaOk(s, v, node) && node.peer.Safe() && node.applier == Idle
    ensures var (q, a) := Grab(node.peer, []); ReplicaOk(s, v, node.(peer := q, applier := a))
  {
    var p, x := node.peer, s.servers[v];
    WindowTerms(p.log, x.base, x.log);
    assert p.log + [] == p.log;
    var (q, a) := Grab(p, []);
    if a.Batch? {
      forall k | 0 <= k < |a.entries|
        ensures a.entries[k] == x.log[a.start + k]
      {
        assert a.entries[k] == p.log[a.start + k - x.base];
      }
    }
  }

  lemma FeedReplicates(c: Cluster, s: State, d: Cluster, z: State, v: nat)
    requires Simulates(c, s) && Possible(c, Feed(v)) && d == Step(c, Feed(v))
    requires Simulates(d, z) && Grows(s, z) && z.ordered && Replicated(c, s)
    ensures Replicated(d, z)
  {
    FeedNode(c, s, d, z, v);
    ReplicatedUpdate(c, s, d, z, v);
  }

  lemma FeedNode(c: Cluster, s: State, d: Cluster, z: State, v: nat)
    requires Simulates(c, s) && Possible(c, Feed(v)) && d == Step(c, Feed(v))
    requires Simulates(d, z) && Grows(s, z) && z.ordered && Replicated(c, s)
    ensures ReplicaOk(z, v, d.nodes[v])
    ensures forall x {:trigger DeliveryOk(z, x)} :: x in Deliveries(v, c.nodes[v].applier) ==> DeliveryOk(z, x)
  {
    var node := c.nodes[v];
    assert NodeOk(s, v, node) && NodeOk(z, v, d.nodes[v]) && ReplicaOk(s, v, node);
    FedOn(s, z, v, node);
    FedDeliveries(s, z, v, node);
  }

  lemma FedDeliveries(s: State, z: State, v: nat, node: Node)
    requires Inv(s) && s.ordered && Grows(s, z) && NodeOk(s, v, node) && ReplicaOk(s, v, node)
    ensures forall x {:trigger DeliveryOk(z, x)} :: x in Deliveries(v, node.applier) ==> DeliveryOk(z, x)
  {
    forall x | x in Deliveries(v, node.applier)
      ensures DeliveryOk(z, x)
    {
      FedDelivery(s, v, node, x);
      DeliveryGrows(s, z, x);
    }
  }

  lemma FedOn(s: State, z: State, v: nat, node: Node)
    requires Inv(s) && Inv(z) && Grows(s, z) && z.ordered && NodeOk(s, v, node) && NodeOk(z, v, Fed(node))
    requires ReplicaOk(s, v, node) && node.applier != Idle && node.applier != SnapshotDue && node.up
    ensures ReplicaOk(z, v, Fed(node))
  {
    assert ServerOk(s, v);
    FedReplica(s, v, node);
    assert NodeOk(s, v, Fed(node));
    MovedReplica(s, z, v, Fed(node), Fed(node));
  }

  lemma FedReplica(s: State, v: nat, node: Node)
    requires Inv(s) && s.ordered && NodeOk(s, v, node) && ReplicaOk(s, v, node) && node.applier != Idle && node.applier != SnapshotDue && node.up
    ensures ReplicaOk(s, v, Fed(node))
  {
    if node.applier.Batch? {
      FedCommand(s, v, node);
    } else {
      FedSnapshot(s, v, node);
    }
  }

  lemma FedSnapshot(s: State, v: nat, node: Node)
    requires Inv(s) && s.ordered && NodeOk(s, v, node) && ReplicaOk(s, v, node) && node.applier.SnapshotHeld? && node.up
    ensures ReplicaOk(s, v, Fed(node))
  {
    assert ServerOk(s, v);
    var y := Fed(node);
    assert y.sessions == Fold(s.servers[v].log, y.handled);
  }

  lemma FedCommand(s: State, v: nat, node: Node)
    requires Inv(s) && s.ordered && NodeOk(s, v, node) && ReplicaOk(s, v, node) && node.applier.Batch? && node.up
    ensures ReplicaOk(s, v, Fed(node))
  {
    assert ServerOk(s, v);
    assert node.applier.entries[0] == s.servers[v].log[node.applier.start];
  }

  lemma FedDelivery(s: State, v: nat, node: Node, x: Delivery)
    requires Inv(s) && s.ordered && NodeOk(s, v, node) && ReplicaOk(s, v, node) && x in Deliveries(v, node.applier)
    ensures DeliveryOk(s, x)
  {
    var y := s.servers[v];
    assert ServerOk(s, v);
    assert node.applier.entries[0] == y.log[x.index];
    assert Chosen(s, y.cterm, x.index, x.command);
  }

  lemma SnapshotReplicates(c: Cluster, s: State, d: Cluster, z: State, v: nat)
    requires Simulates(c, s) && Possible(c, Event.Snapshot(v)) && d == Step(c, Event.Snapshot(v))
    requires Simulates(d, z) && Grows(s, z) && z.ordered && Replicated(c, s)
    ensures Replicated(d, z)
  {
    SnapshotNode(c, s, d, z, v);
    ReplicatedUpdate(c, s, d, z, v);
  }

  lemma SnapshotNode(c: Cluster, s: State, d: Cluster, z: State, v: nat)
    requires Simulates(c, s) && Possible(c, Event.Snapshot(v)) && d == Step(c, Event.Snapshot(v))
    requires Simulates(d, z) && Grows(s, z) && z.ordered && Replicated(c, s)
    ensures ReplicaOk(z, v, d.nodes[v])
  {
    var node, y := c.nodes[v], d.nodes[v];
    assert NodeOk(s, v, node) && NodeOk(z, v, y) && ReplicaOk(s, v, node);
    CompactedReplica(s, z, v, node, y);
  }

  lemma CompactedReplica(s: State, z: State, v: nat, node: Node, y: Node)
    requires Inv(s) && Inv(z) && Grows(s, z) && z.ordered
    requires NodeOk(s, v, node) && NodeOk(z, v, y) && ReplicaOk(s, v, node) && node.compactable
    requires y == node.(peer := Compact(node.peer, node.handled, Blob(node.sessions)), compactable := false)
    ensures ReplicaOk(z, v, y)
  {
    var x := node.(compactable := false);
    assert NodeOk(s, v, x) && ReplicaOk(s, v, x);
    if y.peer == node.peer {
      MovedReplica(s, z, v, x, y);
    } else {
      CompactedSnapshot(s, z, v, node);
      ReplicaGrows(s, z, v, x, y);
    }
  }

  lemma CompactedSnapshot(s: State, z: State, v: nat, node: Node)
    requires Inv(s) && Inv(z) && Grows(s, z) && z.ordered && ReplicaOk(s, v, node) && node.up
    requires 0 < node.handled <= z.servers[v].commit
    ensures SnapshotOk(z.servers[v].log, node.handled, Blob(node.sessions))
  {
    CommittedStays(s, z, v, node.handled);
    FoldSame(s.servers[v].log, z.servers[v].log, node.handled);
  }

  lemma RestartReplicates(c: Cluster, s: State, d: Cluster, z: State, v: nat)
    requires Simulates(c, s) && Possible(c, Restart(v)) && d == Step(c, Restart(v))
    requires Simulates(d, z) && Grows(s, z) && z.ordered && Replicated(c, s)
    ensures Replicated(d, z)
  {
    RestartNode(c, s, d, z, v);
    ReplicatedUpdate(c, s, d, z, v);
  }

  lemma RestartNode(c: Cluster, s: State, d: Cluster, z: State, v: nat)
    requires Simulates(c, s) && Possible(c, Restart(v)) && d == Step(c, Restart(v))
    requires Simulates(d, z) && Grows(s, z) && z.ordered && Replicated(c, s)
    ensures ReplicaOk(z, v, d.nodes[v])
  {
    assert NodeOk(s, v, c.nodes[v]) && NodeOk(z, v, d.nodes[v]) && ReplicaOk(s, v, c.nodes[v]);
    BootedReplica(s, z, v, c.nodes[v]);
  }

  // A replica made from a peer's disk.
  lemma BootedReplica(s: State, z: State, v: nat, node: Node)
    requires Inv(s) && Inv(z) && Grows(s, z) && z.ordered && NodeOk(s, v, node) && ReplicaOk(s, v, node)
    requires NodeOk(z, v, Boot(node.peer.me, node.peer.n, node.peer.disk))
    ensures ReplicaOk(z, v, Boot(node.peer.me, node.peer.n, node.peer.disk))
  {
    assert ServerOk(s, v) && ServerOk(z, v);
    SnapshotStays(s, z, v);
    assert SnapshotOk(s.servers[v].log, s.servers[v].base, node.peer.snapshot);
  }

  // A replica that starts its reader.
  lemma LoadReplicates(c: Cluster, s: State, d: Cluster, z: State, v: nat)
    requires Simulates(c, s) && Possible(c, Load(v)) && d == Step(c, Load(v))
    requires Simulates(d, z) && Grows(s, z) && z.ordered && Replicated(c, s)
    ensures Replicated(d, z)
  {
    LoadNode(c, s, d, z, v);
    ReplicatedUpdate(c, s, d, z, v);
  }

  lemma LoadNode(c: Cluster, s: State, d: Cluster, z: State, v: nat)
    requires Simulates(c, s) && Possible(c, Load(v)) && d == Step(c, Load(v))
    requires Simulates(d, z) && Grows(s, z) && z.ordered && Replicated(c, s)
    ensures ReplicaOk(z, v, d.nodes[v])
  {
    assert NodeOk(s, v, c.nodes[v]) && NodeOk(z, v, d.nodes[v]) && ReplicaOk(s, v, c.nodes[v]);
    StartedReplica(s, z, v, c.nodes[v]);
  }

  lemma StartedReplica(s: State, z: State, v: nat, node: Node)
    requires Inv(s) && Inv(z) && Grows(s, z) && z.ordered && NodeOk(s, v, node) && NodeOk(z, v, Loaded(node))
    requires ReplicaOk(s, v, node) && !node.up
    ensures ReplicaOk(z, v, Loaded(node))
  {
    assert ServerOk(s, v);
    LoadedReplica(s, v, node);
    assert NodeOk(s, v, Loaded(node));
    MovedReplica(s, z, v, Loaded(node), Loaded(node));
  }

  lemma LoadedReplica(s: State, v: nat, node: Node)
    requires Inv(s) && NodeOk(s, v, node) && ReplicaOk(s, v, node) && !node.up
    ensures ReplicaOk(s, v, Loaded(node))
  {
    var x := s.servers[v];
    assert RestoreFrom(map[], node.peer.disk.snapshot) == Fold(x.log, x.base);
  }

  // An applier that makes its snapshot message.
  lemma HoldReplicates(c: Cluster, s: State, d: Cluster, z: State, v: nat)
    requires Simulates(c, s) && Possible(c, Hold(v)) && d == Step(c, Hold(v))
    requires Simulates(d, z) && Grows(s, z) && z.ordered && Replicated(c, s)
    ensures Replicated(d, z)
  {
    HoldNode(c, s, d, z, v);
    ReplicatedUpdate(c, s, d, z, v);
  }

  lemma HoldNode(c: Cluster, s: State, d: Cluster, z: State, v: nat)
    requires Simulates(c, s) && Possible(c, Hold(v)) && d == Step(c, Hold(v))
    requires Simulates(d, z) && Grows(s, z) && z.ordered && Replicated(c, s)
    ensures ReplicaOk(z, v, d.nodes[v])
  {
    assert NodeOk(s, v, c.nodes[v]) && NodeOk(z, v, d.nodes[v]) && ReplicaOk(s, v, c.nodes[v]);
    HeldReplica(s, z, v, c.nodes[v]);
  }

  lemma HeldReplica(s: State, z: State, v: nat, node: Node)
    requires Inv(s) && Inv(z) && Grows(s, z) && z.ordered && NodeOk(s, v, node) && NodeOk(z, v, Held(node))
    requires ReplicaOk(s, v, node) && node.applier == SnapshotDue
    ensures ReplicaOk(z, v, Held(node))
  {
    assert ServerOk(s, v);
    assert NodeOk(s, v, Held(node)) && ReplicaOk(s, v, Held(node));
    MovedReplica(s, z, v, Held(node), Held(node));
  }

  // The events that change only a peer, or what waits above it.
  lemma PeerReplicates(c: Cluster, s: State, e: Event, z: State)
    requires Simulates(c, s) && Possible(c, e) && Ordered(c, e)
    requires e.Timeout? || e.Submit? || e.TakeReply? || e.Above? || (e.Receive? && !e.m.InstallRequest?)
    requires Simulates(Step(c, e), z) && Grows(s, z) && z.ordered && Replicated(c, s)
    ensures Replicated(Step(c, e), z)
  {
    var d := Step(c, e);
    var sent := PeerStep(c, s, e);
    PeerEvent(c, s, d, z, e.v, d.nodes[e.v], sent);
  }

  lemma PeerStep(c: Cluster, s: State, e: Event) returns (sent: set<Message>)
    requires Simulates(c, s) && s.ordered && Possible(c, e) && Ordered(c, e)
    requires e.Timeout? || e.Submit? || e.TakeReply? || e.Above? || (e.Receive? && !e.m.InstallRequest?)
    ensures var d := Step(c, e); PeerMoved(c.nodes[e.v], d.nodes[e.v]) && d == Update(c, e.v, d.nodes[e.v], sent)
    ensures forall m :: m in sent ==> !m.InstallRequest?
  {
    var node := c.nodes[e.v];
    sent := {};
    match e
    case Timeout(v) => sent := VoteRequests(v, node.peer.n, Campaign(node.peer).1);
    case Receive(v, m) =>
      ReceiveMoves(c, s, v, m);
      sent := {Handle(node, v, m).1};
    case TakeReply(v, m) => ReplyMoves(node, v, m);
    case _ =>
  }

  // The others.
  lemma NodeReplicates(c: Cluster, s: State, e: Event, z: State)
    requires Simulates(c, s) && Possible(c, e)
    requires !e.Timeout? && !e.Submit? && !e.TakeReply? && !e.Above? && (e.Receive? ==> e.m.InstallRequest?)
    requires Simulates(Step(c, e), z) && Grows(s, z) && z.ordered && Replicated(c, s)
    ensures Replicated(Step(c, e), z)
  {
    var d := Step(c, e);
    match e
    case Receive(v, m) => InstallReplicates(c, s, d, z, v, m.install);
    case Heartbeat(v) => HeartbeatReplicates(c, s, d, z, v);
    case TakeCommitted(v, stale) => TakeCommittedReplicates(c, s, d, z, v, stale);
    case Feed(v) => FeedReplicates(c, s, d, z, v);
    case Snapshot(v) => SnapshotReplicates(c, s, d, z, v);
    case Restart(v) => RestartReplicates(c, s, d, z, v);
    case Load(v) => LoadReplicates(c, s, d, z, v);
    case Hold(v) => HoldReplicates(c, s, d, z, v);
  }

  /** Every event leaves every replica a fold of what is committed. */
  lemma EventReplicates(c: Cluster, s: State, e: Event, z: State)
    requires Simulates(c, s) && Possible(c, e) && Ordered(c, e)
    requires Simulates(Step(c, e), z) && Grows(s, z) && z.ordered && Replicated(c, s)
    ensures Replicated(Step(c, e), z)
  {
    if e.Timeout? || e.Submit? || e.TakeReply? || e.Above? || (e.Receive? && !e.m.InstallRequest?) {
      PeerReplicates(c, s, e, z);
    } else {
      NodeReplicates(c, s, e, z);
    }
  }
}
