/** A cluster of Raft peers, each under a replicated state machine, and its runs.

  One event is one critical section of one peer or of the layer above it, or one
  message passing over its apply channel. Requests and replies stay in net once
  sent, so they may be delayed, reordered, lost or handled again; only the reply to
  a vote request is counted at most once, as its goroutine does. A restart drops
  volatile state. A peer that would index outside its log panics: its process is
  gone, and the only event left for it is the restart.
*/
module Clusters {
  import opened Session
  import opened Logs
  import opened Protocol
  import opened Peers
  import opened Waiters

  datatype Message =
    | VoteRequest(to: nat, vote: VoteArgs)
    | VoteAnswer(from: nat, vote: VoteArgs, voteReply: VoteReply)
    | AppendRequest(to: nat, append: AppendArgs)
    | AppendAnswer(from: nat, append: AppendArgs, appendReply: AppendReply)
    | InstallRequest(to: nat, install: InstallArgs)
    | InstallAnswer(from: nat, install: InstallArgs, installReply: InstallReply)

  // What a peer puts on its apply channel.
  datatype ApplyMsg = ApplyCommand(index: nat, command: Command) | ApplySnapshot(index: nat, snapshot: Blob)

  // What the reader still owes those who wait, after the message it took last.
  datatype Due = Nothing | AnswerDue(index: nat, id: int) | WakeDue

  // counted: the peers whose granted votes the current election has counted.
  // applier: what the applier goroutine holds. up: the replica has read the
  // persisted snapshot, its reader has started, and requests reach the peer.
  // sessions: its state machine, handled the index of the last message its reader
  // took, compactable whether the reader may still compact up to it. stream: what
  // it was fed in this incarnation, from the snapshot the peer was made with.
  datatype Node = Node(peer: Peer, counted: set<nat>, applier: Applier, sessions: Sessions, handled: nat,
                       compactable: bool, stream: seq<ApplyMsg>, up: bool, table: Table, due: Due)

  // delivered: every command message any server ever put on its apply channel.
  datatype Delivery = Delivery(server: nat, index: nat, command: Command)

  datatype Cluster = Cluster(nodes: seq<Node>, net: set<Message>, delivered: set<Delivery>)

  // The critical sections of the layer above a peer, except the call of Start.
  datatype Section =
    | Entering(req: Request)
    | Registering(call: nat)
    | Answering
    | Checking(term: nat)
    | Hearing(call: nat)
    | Finishing(call: nat)

  datatype Event =
    | Timeout(v: nat)
    | Receive(v: nat, m: Message)
    | TakeReply(v: nat, m: Message)
    | Heartbeat(v: nat)
    | Submit(v: nat, c: Command, call: nat)
    | TakeCommitted(v: nat, stale: seq<Entry>)
    | Feed(v: nat)
    | Snapshot(v: nat)
    | Restart(v: nat)
    | Load(v: nat)
    | Hold(v: nat)
    | Above(v: nat, section: Section)

  // ------------------------------------------------------------------ assumptions

  // The term of a reply that makes a peer step down.
  function ReplyTerm(m: Message): nat {
    match m
    case VoteAnswer(_, _, r) => r.term
    case AppendAnswer(_, _, r) => r.term
    case InstallAnswer(_, _, r) => r.term
    case _ => 0
  }

  function AskedTerm(m: Message): nat {
    match m
    case VoteRequest(_, a) => a.term
    case VoteAnswer(_, a, _) => a.term
    case AppendRequest(_, a) => a.term
    case AppendAnswer(_, a, _) => a.term
    case InstallRequest(_, a) => a.term
    case InstallAnswer(_, a, _) => a.term
  }

  // A reply with a later term than the peer captured when it sent the request
  // arrives before the peer itself has reached that term, or voted in it.
  predicate FreshReply(p: Peer, m: Message) {
    ReplyTerm(m) > AskedTerm(m) ==>
      ReplyTerm(m) > p.currentTerm || (ReplyTerm(m) == p.currentTerm && p.votedFor == -1)
  }

  function Reach(a: AppendArgs): nat {
    a.prevLogIndex + |a.entries|
  }

  // A follower does not take over less of a leader's log than it has already
  // acknowledged to that leader.
  ghost predicate InOrder(net: set<Message>, to: nat, a: AppendArgs) {
    forall b, r {:trigger AppendAnswer(to, b, r)} ::
      AppendAnswer(to, b, r) in net && r.success && b.term == a.term ==> Reach(b) <= Reach(a)
  }

  // ----------------------------------------------------------------------- steps

  function Execute(s: Sessions, c: Command): Sessions {
    match c
    case Op(req, _) => DoOp(s, req)
    case NoCommand => s
  }

  function RestoreFrom(s: Sessions, b: Blob): Sessions {
    match b
    case Blob(state) => state
    case NoBlob => s
  }

  // A peer made from its disk. Its replica follows later.
  function Boot(me: nat, n: nat, d: Disk): Node {
    Node(Make(me, n, d), {}, Idle, map[], d.lastIncludedIndex, false,
         [ApplySnapshot(d.lastIncludedIndex, d.snapshot)], false, EMPTY_TABLE, Nothing)
  }

  // The replica of a running peer reads the snapshot, its reader starts, and the
  // peer is registered for requests.
  function Loaded(node: Node): Node {
    node.(sessions := RestoreFrom(map[], node.peer.disk.snapshot), up := true)
  }

  const EMPTY_DISK: Disk := Disk(0, -1, [SENTINEL], 0, 0, NoBlob)

  ghost function Start0(n: nat): Cluster {
    Cluster(seq(n, v requires 0 <= v < n => Boot(v, n, EMPTY_DISK)), {}, {})
  }

  ghost function VoteRequests(v: nat, n: nat, a: VoteArgs): set<Message> {
    set i: nat | i < n && i != v :: VoteRequest(i, a)
  }

  function Address(i: nat, r: Round): Message {
    match r
    case SendAppend(a) => AppendRequest(i, a)
    case SendInstall(a) => InstallRequest(i, a)
  }

  ghost function Heartbeats(p: Peer): set<Message>
    requires p.Formed() && p.InRange() && p.role == Leader
  {
    set i: nat | i < p.n && i != p.me :: Address(i, Build(p, i))
  }

  ghost predicate CanReceive(c: Cluster, v: nat, m: Message)
    requires v < |c.nodes|
  {
    match m
    case VoteRequest(to, _) => to == v
    case AppendRequest(to, a) => to == v
    case InstallRequest(to, _) => to == v
    case _ => false
  }

  ghost predicate CanTakeReply(node: Node, v: nat, m: Message) {
    match m
    case VoteAnswer(from, a, _) =>
      v == a.candidateId && (a.term == node.peer.currentTerm ==> from !in node.counted)
    case AppendAnswer(from, a, _) => v == a.leaderId && from < node.peer.n
    case InstallAnswer(from, a, _) => v == a.leaderId && from < node.peer.n
    case _ => false
  }

  // The calls a section sends to can take what is sent: a send to a full channel
  // waits with the lock held, and the section is not over until it can go on.
  ghost predicate RoomAt(t: Table, indices: set<int>) {
    forall i {:trigger i in indices} :: i in indices && i in t.channels ==> Room(t, t.channels[i])
  }

  // The leader check goes by a term its peer was in when it asked, in this incarnation:
  // terms never go back (Theorems.TermNeverBack).
  ghost predicate CanEnter(node: Node, section: Section) {
    var t := node.table;
    match section
    case Entering(_) => node.up
    case Registering(k) => k < |t.calls| && t.calls[k].stage == Accepted
    case Answering =>
      (match node.due
       case Nothing => false
       case AnswerDue(index, _) => RoomAt(t, {index})
       case WakeDue => RoomAt(t, t.channels.Keys))
    case Checking(term) => node.up && term <= node.peer.currentTerm && RoomAt(t, Earlier(t, term))
    case Hearing(k) => k < |t.calls| && t.calls[k].stage == Waiting && |t.calls[k].sent| > 0
    case Finishing(k) => k < |t.calls| && t.calls[k].stage.Heard?
  }

  ghost function AfterSection(node: Node, section: Section): Node
    requires CanEnter(node, section)
  {
    var t := node.table;
    match section
    case Entering(req) => node.(table := Enter(t, node.peer.me, req))
    case Registering(k) => node.(table := Register(t, k))
    case Answering =>
      node.(table := match node.due
                     case AnswerDue(index, id) => Answer(t, index, id)
                     case _ => WakeAll(t),
            due := Nothing, compactable := false)
    case Checking(term) => node.(table := CheckLeader(t, term))
    case Hearing(k) => node.(table := Hear(t, k))
    case Finishing(k) => node.(table := Finish(t, k))
  }

  // The event indexes nothing outside the log of the peer.
  ghost predicate NoPanic(node: Node, e: Event)
    requires node.peer.Formed()
  {
    match e
    case Heartbeat(_) => node.peer.InRange()
    case TakeReply(_, m) => m.AppendAnswer? && m.from < node.peer.n ==> ReplyStays(node.peer, m.from, m.append, m.appendReply)
    case TakeCommitted(_, stale) => |stale| == Overreach(node.peer)
    case _ => true
  }

  // What the implementation can do next. Theorems.dfy proves that every peer is
  // always Formed, so that only panics are excluded.
  ghost predicate Possible(c: Cluster, e: Event) {
    && e.v < |c.nodes|
    && var node := c.nodes[e.v];
       && (e.Restart? || (node.peer.Formed() && NoPanic(node, e)))
       && match e
          case Timeout(v) => node.peer.role != Leader
          case Receive(v, m) => node.up && m in c.net && CanReceive(c, v, m)
          case TakeReply(v, m) => m in c.net && CanTakeReply(node, v, m)
          case Heartbeat(v) => node.peer.role == Leader
          case Submit(v, command, k) =>
            && k < |node.table.calls| && node.table.calls[k].stage == Named
            && command == Op(node.table.calls[k].req, node.table.calls[k].id)
          case TakeCommitted(v, _) => node.applier == Idle
          case Feed(v) => node.up && node.applier != Idle && node.applier != SnapshotDue && node.due == Nothing
          case Snapshot(v) => node.compactable
          case Restart(v) => true
          case Load(v) => !node.up
          case Hold(v) => node.applier == SnapshotDue
          case Above(v, section) => CanEnter(node, section)
  }

  // The event keeps the assumption on replies.
  ghost predicate Fresh(c: Cluster, e: Event)
    requires Possible(c, e)
  {
    e.TakeReply? ==> FreshReply(c.nodes[e.v].peer, e.m)
  }

  // The event keeps the assumption on AppendEntries.
  ghost predicate Ordered(c: Cluster, e: Event)
    requires Possible(c, e)
  {
    e.Receive? && e.m.AppendRequest? && AppendEntries(c.nodes[e.v].peer, e.m.append).1.success ==>
      InOrder(c.net, e.v, e.m.append)
  }

  // A node handles a request.
  ghost function Handle(node: Node, v: nat, m: Message): (Node, Message)
    requires node.peer.Formed()
  {
    match m
    case VoteRequest(_, a) =>
      var (p, r) := RequestVote(node.peer, a);
      (node.(peer := p), VoteAnswer(v, a, r))
    case AppendRequest(_, a) =>
      var (p, r) := AppendEntries(node.peer, a);
      (node.(peer := p), AppendAnswer(v, a, r))
    case InstallRequest(_, a) =>
      var (p, r) := InstallSnapshot(node.peer, a);
      (node.(peer := p), InstallAnswer(v, a, r))
    case _ => (node, m)
  }

  // A node handles a reply.
  ghost function Take(node: Node, v: nat, m: Message): Node
    requires node.peer.Formed() && CanTakeReply(node, v, m)
  {
    match m
    case VoteAnswer(from, a, r) =>
      node.(peer := OnVoteReply(node.peer, a, r),
            counted := if r.voteGranted && r.term <= a.term && node.peer.currentTerm == a.term && node.peer.role == Candidate
                       then node.counted + {from} else node.counted)
    case AppendAnswer(from, a, r) => node.(peer := OnAppendReply(node.peer, from, a, r))
    case InstallAnswer(from, a, r) => node.(peer := OnInstallReply(node.peer, from, a, r))
    case _ => node
  }

  // The applier makes its snapshot message, without the lock. A newer snapshot may be
  // installed before the message is taken.
  function Held(node: Node): Node {
    node.(applier := SnapshotHeld(node.peer.lastIncludedIndex, node.peer.snapshot))
  }

  // The applier sends its next message and the reader of the replica executes it.
  ghost function Fed(node: Node): Node {
    match node.applier
    case Idle => node
    case SnapshotDue => node
    case SnapshotHeld(index, data) =>
      node.(applier := Idle, sessions := RestoreFrom(node.sessions, data), handled := index,
            compactable := false, due := WakeDue, stream := node.stream + [ApplySnapshot(index, data)])
    case Batch(start, entries) =>
      if |entries| == 0 then node.(applier := Idle)
      else
        var command := entries[0].command;
        node.(applier := if |entries| == 1 then Idle else Batch(start + 1, entries[1..]),
              sessions := Execute(node.sessions, command), handled := start,
              compactable := command.Op?, due := if command.Op? then AnswerDue(start, command.id) else Nothing,
              stream := node.stream + [ApplyCommand(start, command)])
  }

  ghost function Deliveries(v: nat, a: Applier): set<Delivery> {
    match a
    case Batch(start, entries) => if |entries| == 0 then {} else {Delivery(v, start, entries[0].command)}
    case _ => {}
  }

  ghost function Update(c: Cluster, v: nat, node: Node, sent: set<Message>): Cluster
    requires v < |c.nodes|
  {
    c.(nodes := c.nodes[v := node], net := c.net + sent)
  }

  ghost function Step(c: Cluster, e: Event): Cluster
    requires Possible(c, e)
  {
    var node := c.nodes[e.v];
    var p := node.peer;
    match e
    case Timeout(v) =>
      var (q, a) := Campaign(p);
      Update(c, v, node.(peer := q, counted := {}), VoteRequests(v, p.n, a))
    case Receive(v, m) =>
      var (x, answer) := Handle(node, v, m);
      Update(c, v, x, {answer})
    case TakeReply(v, m) => Update(c, v, Take(node, v, m), {})
    case Heartbeat(v) => Update(c, v, node, Heartbeats(p))
    case Submit(v, command, k) =>
      var (q, index, term) := Start(p, command);
      Update(c, v, node.(peer := q, table := Started(node.table, k, index, term, p.role == Leader)), {})
    case TakeCommitted(v, stale) =>
      var (q, a) := Grab(p, stale);
      Update(c, v, node.(peer := q, applier := a), {})
    case Feed(v) => Update(c, v, Fed(node), {}).(delivered := c.delivered + Deliveries(v, node.applier))
    case Snapshot(v) =>
      Update(c, v, node.(peer := Compact(p, node.handled, Blob(node.sessions)), compactable := false), {})
    case Restart(v) => Update(c, v, Boot(p.me, p.n, p.disk), {})
    case Load(v) => Update(c, v, Loaded(node), {})
    case Hold(v) => Update(c, v, Held(node), {})
    case Above(v, section) => Update(c, v, AfterSection(node, section), {})
  }

  ghost predicate Leads(c: Cluster, v: nat, t: nat) {
    v < |c.nodes| && c.nodes[v].peer.role == Leader && c.nodes[v].peer.currentTerm == t
  }

  // What a cluster of n servers can go through at all.
  ghost predicate Walk(n: nat, events: seq<Event>, states: seq<Cluster>) {
    && |states| == |events| + 1
    && states[0] == Start0(n)
    && forall i {:trigger events[i]} :: 0 <= i < |events| ==>
         Possible(states[i], events[i]) && states[i + 1] == Step(states[i], events[i])
  }

  // A run: what it goes through when every reply is fresh.
  ghost predicate Run(n: nat, events: seq<Event>, states: seq<Cluster>) {
    && Walk(n, events, states)
    && forall i {:trigger events[i]} :: 0 <= i < |events| ==> Fresh(states[i], events[i])
  }

  // A run in which followers also handle AppendEntries in order.
  ghost predicate OrderedRun(n: nat, events: seq<Event>, states: seq<Cluster>) {
    && Run(n, events, states)
    && forall i {:trigger events[i]} :: 0 <= i < |events| ==> Ordered(states[i], events[i])
  }
}
