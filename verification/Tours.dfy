/** Concrete walks of a cluster, one event at a time. */
module Tours {
  import opened Session
  import opened Logs
  import opened Protocol
  import opened Peers
  import opened Waiters
  import opened Clusters

  // A walk of n servers that keeps the assumptions but for one late reply, at
  // position late, and one short AppendEntries, at position short.
  ghost predicate Tour(n: nat, es: seq<Event>, cs: seq<Cluster>, late: int, short: int) {
    && |cs| == |es| + 1 && cs[0] == Start0(n)
    && forall i {:trigger TourAt(es, cs, i, late, short)} :: TourAt(es, cs, i, late, short)
  }

  ghost predicate TourAt(es: seq<Event>, cs: seq<Cluster>, i: int, late: int, short: int) {
    0 <= i < |es| && |cs| == |es| + 1 ==>
      Moves(cs[i], es[i], i != late, i != short) && cs[i + 1] == Step(cs[i], es[i])
  }

  ghost predicate Moves(c: Cluster, e: Event, onTime: bool, inOrder: bool) {
    Possible(c, e) && (Fresh(c, e) <==> onTime) && (Ordered(c, e) <==> inOrder)
  }

  lemma Go(n: nat, es: seq<Event>, cs: seq<Cluster>, e: Event, late: int, short: int) returns (es': seq<Event>, cs': seq<Cluster>)
    requires Tour(n, es, cs, late, short) && Moves(cs[|es|], e, |es| != late, |es| != short)
    ensures Tour(n, es', cs', late, short) && |es'| == |es| + 1 && cs'[|es'|] == Step(cs[|es|], e)
  {
    es', cs' := es + [e], cs + [Step(cs[|es|], e)];
    forall i
      ensures TourAt(es', cs', i, late, short)
    {
      assert TourAt(es, cs, i, late, short);
    }
  }

  // A tour is a walk that keeps the assumptions everywhere else.
  lemma TourWalks(n: nat, es: seq<Event>, cs: seq<Cluster>, late: int, short: int)
    requires Tour(n, es, cs, late, short)
    ensures Walk(n, es, cs)
    ensures forall i {:trigger es[i]} :: 0 <= i < |es| ==>
              (Fresh(cs[i], es[i]) <==> i != late) && (Ordered(cs[i], es[i]) <==> i != short)
  {
    forall i | 0 <= i < |es|
      ensures Moves(cs[i], es[i], i != late, i != short) && cs[i + 1] == Step(cs[i], es[i])
    {
      assert TourAt(es, cs, i, late, short);
    }
  }

  // ------------------------------------------------------------------ what may change

  // Messages were only added, none of them the answer to an AppendEntries.
  ghost predicate NoAcks(c: Cluster, z: Cluster) {
    c.net <= z.net && forall m {:trigger m in z.net} :: m in z.net && m.AppendAnswer? ==> m in c.net
  }

  // Only node v changed.
  ghost predicate OnlyNode(c: Cluster, z: Cluster, v: nat) {
    && v < |c.nodes| && |z.nodes| == |c.nodes| && c.net <= z.net && c.delivered <= z.delivered
    && forall u {:trigger z.nodes[u]} {:trigger c.nodes[u]} :: 0 <= u < |c.nodes| && u != v ==> z.nodes[u] == c.nodes[u]
  }

  // Whatever this server acknowledged of this term reaches no further than i.
  ghost predicate AcksUpTo(c: Cluster, u: nat, t: nat, i: int) {
    forall m {:trigger m in c.net} :: m in c.net && m.AppendAnswer? && m.from == u && m.append.term == t && m.appendReply.success ==>
      Reach(m.append) <= i
  }

  // -------------------------------------------------------------------- the events

  lemma Starts(n: nat, es: seq<Event>, cs: seq<Cluster>, v: nat, late: int, short: int) returns (es': seq<Event>, cs': seq<Cluster>)
    requires Tour(n, es, cs, late, short) && |es| != late && |es| != short
    requires v < |cs[|es|].nodes| && !cs[|es|].nodes[v].up && cs[|es|].nodes[v].peer.Formed()
    ensures Tour(n, es', cs', late, short) && |es'| == |es| + 1
    ensures var c, z := cs[|es|], cs'[|es'|];
            OnlyNode(c, z, v) && NoAcks(c, z) && z.nodes[v] == Loaded(c.nodes[v]) && z.net == c.net
  {
    es', cs' := Go(n, es, cs, Load(v), late, short);
  }

  lemma Crashes(n: nat, es: seq<Event>, cs: seq<Cluster>, v: nat, late: int, short: int) returns (es': seq<Event>, cs': seq<Cluster>)
    requires Tour(n, es, cs, late, short) && |es| != late && |es| != short && v < |cs[|es|].nodes|
    ensures Tour(n, es', cs', late, short) && |es'| == |es| + 1
    ensures var c, z := cs[|es|], cs'[|es'|];
            && OnlyNode(c, z, v) && NoAcks(c, z)
            && z.nodes[v] == Boot(c.nodes[v].peer.me, c.nodes[v].peer.n, c.nodes[v].peer.disk)
  {
    es', cs' := Go(n, es, cs, Restart(v), late, short);
  }

  lemma Times(n: nat, es: seq<Event>, cs: seq<Cluster>, v: nat, late: int, short: int) returns (es': seq<Event>, cs': seq<Cluster>)
    requires Tour(n, es, cs, late, short) && |es| != late && |es| != short
    requires v < |cs[|es|].nodes| && cs[|es|].nodes[v].peer.role != Leader && cs[|es|].nodes[v].peer.Formed()
    ensures Tour(n, es', cs', late, short) && |es'| == |es| + 1
    ensures var c, z := cs[|es|], cs'[|es'|];
            && OnlyNode(c, z, v) && NoAcks(c, z)
            && z.nodes[v] == c.nodes[v].(peer := Campaign(c.nodes[v].peer).0, counted := {})
            && forall i: nat {:trigger VoteRequest(i, Campaign(c.nodes[v].peer).1)} ::
                 i < c.nodes[v].peer.n && i != v ==> VoteRequest(i, Campaign(c.nodes[v].peer).1) in z.net
  {
    es', cs' := Go(n, es, cs, Timeout(v), late, short);
  }

  lemma Votes(n: nat, es: seq<Event>, cs: seq<Cluster>, u: nat, a: VoteArgs, late: int, short: int)
    returns (es': seq<Event>, cs': seq<Cluster>)
    requires Tour(n, es, cs, late, short) && |es| != late && |es| != short
    requires u < |cs[|es|].nodes| && cs[|es|].nodes[u].up && cs[|es|].nodes[u].peer.Formed() && VoteRequest(u, a) in cs[|es|].net
    ensures Tour(n, es', cs', late, short) && |es'| == |es| + 1
    ensures var c, z := cs[|es|], cs'[|es'|];
            var (p, r) := RequestVote(c.nodes[u].peer, a);
            OnlyNode(c, z, u) && NoAcks(c, z) && z.nodes[u] == c.nodes[u].(peer := p) && VoteAnswer(u, a, r) in z.net
  {
    es', cs' := Go(n, es, cs, Receive(u, VoteRequest(u, a)), late, short);
  }

  // A vote that was granted is counted.
  lemma Counts(n: nat, es: seq<Event>, cs: seq<Cluster>, v: nat, u: nat, a: VoteArgs, late: int, short: int)
    returns (es': seq<Event>, cs': seq<Cluster>)
    requires Tour(n, es, cs, late, short) && |es| != late && |es| != short
    requires var c := cs[|es|];
             && v < |c.nodes| && a.candidateId == v && VoteAnswer(u, a, VoteReply(a.term, true)) in c.net
             && c.nodes[v].peer.Formed() && c.nodes[v].peer.role == Candidate && c.nodes[v].peer.currentTerm == a.term
             && u !in c.nodes[v].counted
    ensures Tour(n, es', cs', late, short) && |es'| == |es| + 1
    ensures var c, z := cs[|es|], cs'[|es'|];
            && OnlyNode(c, z, v) && NoAcks(c, z)
            && z.nodes[v] == c.nodes[v].(peer := OnVoteReply(c.nodes[v].peer, a, VoteReply(a.term, true)),
                                         counted := c.nodes[v].counted + {u})
  {
    es', cs' := Go(n, es, cs, TakeReply(v, VoteAnswer(u, a, VoteReply(a.term, true))), late, short);
  }

  lemma Beats(n: nat, es: seq<Event>, cs: seq<Cluster>, v: nat, late: int, short: int) returns (es': seq<Event>, cs': seq<Cluster>)
    requires Tour(n, es, cs, late, short) && |es| != late && |es| != short
    requires var c := cs[|es|];
             v < |c.nodes| && c.nodes[v].peer.Formed() && c.nodes[v].peer.role == Leader && c.nodes[v].peer.InRange()
    ensures Tour(n, es', cs', late, short) && |es'| == |es| + 1
    ensures var c, z := cs[|es|], cs'[|es'|];
            && OnlyNode(c, z, v) && NoAcks(c, z) && z.nodes == c.nodes
            && forall i: nat {:trigger Build(c.nodes[v].peer, i)} ::
                 i < c.nodes[v].peer.n && i != c.nodes[v].peer.me ==> Address(i, Build(c.nodes[v].peer, i)) in z.net
  {
    es', cs' := Go(n, es, cs, Heartbeat(v), late, short);
  }

  // A follower handles an AppendEntries, in order unless this is the short one.
  lemma Appends(n: nat, es: seq<Event>, cs: seq<Cluster>, u: nat, a: AppendArgs, late: int, short: int)
    returns (es': seq<Event>, cs': seq<Cluster>)
    requires Tour(n, es, cs, late, short) && |es| != late
    requires var c := cs[|es|];
             && u < |c.nodes| && c.nodes[u].up && c.nodes[u].peer.Formed() && AppendRequest(u, a) in c.net
             && (|es| != short <==> (AppendEntries(c.nodes[u].peer, a).1.success ==> AcksUpTo(c, u, a.term, Reach(a))))
    ensures Tour(n, es', cs', late, short) && |es'| == |es| + 1
    ensures var c, z := cs[|es|], cs'[|es'|];
            var (p, r) := AppendEntries(c.nodes[u].peer, a);
            && OnlyNode(c, z, u) && z.nodes[u] == c.nodes[u].(peer := p) && AppendAnswer(u, a, r) in z.net
            && forall m {:trigger m in z.net} :: m in z.net && m != AppendAnswer(u, a, r) ==> m in c.net
  {
    es', cs' := Go(n, es, cs, Receive(u, AppendRequest(u, a)), late, short);
  }

  lemma Hears(n: nat, es: seq<Event>, cs: seq<Cluster>, v: nat, u: nat, a: AppendArgs, r: AppendReply, late: int, short: int)
    returns (es': seq<Event>, cs': seq<Cluster>)
    requires Tour(n, es, cs, late, short) && |es| != late && |es| != short
    requires var c := cs[|es|];
             && v < |c.nodes| && a.leaderId == v && AppendAnswer(u, a, r) in c.net && r.term <= a.term
             && c.nodes[v].peer.Formed() && u < c.nodes[v].peer.n && ReplyStays(c.nodes[v].peer, u, a, r)
    ensures Tour(n, es', cs', late, short) && |es'| == |es| + 1
    ensures var c, z := cs[|es|], cs'[|es'|];
            OnlyNode(c, z, v) && NoAcks(c, z) && z.nodes[v] == c.nodes[v].(peer := OnAppendReply(c.nodes[v].peer, u, a, r))
  {
    es', cs' := Go(n, es, cs, TakeReply(v, AppendAnswer(u, a, r)), late, short);
  }

  lemma Acts(n: nat, es: seq<Event>, cs: seq<Cluster>, v: nat, section: Section, late: int, short: int)
    returns (es': seq<Event>, cs': seq<Cluster>)
    requires Tour(n, es, cs, late, short) && |es| != late && |es| != short
    requires v < |cs[|es|].nodes| && cs[|es|].nodes[v].peer.Formed() && CanEnter(cs[|es|].nodes[v], section)
    ensures Tour(n, es', cs', late, short) && |es'| == |es| + 1
    ensures var c, z := cs[|es|], cs'[|es'|];
            OnlyNode(c, z, v) && NoAcks(c, z) && z.nodes[v] == AfterSection(c.nodes[v], section)
  {
    es', cs' := Go(n, es, cs, Above(v, section), late, short);
  }

  lemma Submits(n: nat, es: seq<Event>, cs: seq<Cluster>, v: nat, k: nat, late: int, short: int)
    returns (es': seq<Event>, cs': seq<Cluster>)
    requires Tour(n, es, cs, late, short) && |es| != late && |es| != short
    requires var c := cs[|es|];
             && v < |c.nodes| && c.nodes[v].peer.Formed()
             && k < |c.nodes[v].table.calls| && c.nodes[v].table.calls[k].stage == Named
    ensures Tour(n, es', cs', late, short) && |es'| == |es| + 1
    ensures var c, z := cs[|es|], cs'[|es'|];
            var call := c.nodes[v].table.calls[k];
            var (q, index, term) := Start(c.nodes[v].peer, Op(call.req, call.id));
            && OnlyNode(c, z, v) && NoAcks(c, z)
            && z.nodes[v] == c.nodes[v].(peer := q, table := Started(c.nodes[v].table, k, index, term, c.nodes[v].peer.role == Leader))
  {
    var call := cs[|es|].nodes[v].table.calls[k];
    es', cs' := Go(n, es, cs, Submit(v, Op(call.req, call.id), k), late, short);
  }

  lemma Takes(n: nat, es: seq<Event>, cs: seq<Cluster>, v: nat, late: int, short: int) returns (es': seq<Event>, cs': seq<Cluster>)
    requires Tour(n, es, cs, late, short) && |es| != late && |es| != short
    requires var c := cs[|es|];
             v < |c.nodes| && c.nodes[v].peer.Formed() && c.nodes[v].applier == Idle && Overreach(c.nodes[v].peer) == 0
    ensures Tour(n, es', cs', late, short) && |es'| == |es| + 1
    ensures var c, z := cs[|es|], cs'[|es'|];
            && OnlyNode(c, z, v) && NoAcks(c, z)
            && z.nodes[v] == c.nodes[v].(peer := Grab(c.nodes[v].peer, []).0, applier := Grab(c.nodes[v].peer, []).1)
  {
    es', cs' := Go(n, es, cs, TakeCommitted(v, []), late, short);
  }

  lemma Feeds(n: nat, es: seq<Event>, cs: seq<Cluster>, v: nat, late: int, short: int) returns (es': seq<Event>, cs': seq<Cluster>)
    requires Tour(n, es, cs, late, short) && |es| != late && |es| != short
    requires var c := cs[|es|];
             && v < |c.nodes| && c.nodes[v].peer.Formed() && c.nodes[v].up && c.nodes[v].due == Nothing
             && c.nodes[v].applier.Batch? && |c.nodes[v].applier.entries| > 0
    ensures Tour(n, es', cs', late, short) && |es'| == |es| + 1
    ensures var c, z := cs[|es|], cs'[|es'|];
            && OnlyNode(c, z, v) && NoAcks(c, z) && z.nodes[v] == Fed(c.nodes[v])
            && Delivery(v, c.nodes[v].applier.start, c.nodes[v].applier.entries[0].command) in z.delivered
  {
    es', cs' := Go(n, es, cs, Feed(v), late, short);
  }

  // The reader, still in the message it took last, has the log compacted.
  lemma Compacts(n: nat, es: seq<Event>, cs: seq<Cluster>, v: nat, late: int, short: int) returns (es': seq<Event>, cs': seq<Cluster>)
    requires Tour(n, es, cs, late, short) && |es| != late && |es| != short
    requires var c := cs[|es|]; v < |c.nodes| && c.nodes[v].peer.Formed() && c.nodes[v].compactable
    ensures Tour(n, es', cs', late, short) && |es'| == |es| + 1
    ensures var c, z := cs[|es|], cs'[|es'|];
            && OnlyNode(c, z, v) && NoAcks(c, z)
            && z.nodes[v] == c.nodes[v].(peer := Compact(c.nodes[v].peer, c.nodes[v].handled, Blob(c.nodes[v].sessions)), compactable := false)
  {
    es', cs' := Go(n, es, cs, Event.Snapshot(v), late, short);
  }

  lemma Installs(n: nat, es: seq<Event>, cs: seq<Cluster>, u: nat, a: InstallArgs, late: int, short: int)
    returns (es': seq<Event>, cs': seq<Cluster>)
    requires Tour(n, es, cs, late, short) && |es| != late && |es| != short
    requires var c := cs[|es|]; u < |c.nodes| && c.nodes[u].up && c.nodes[u].peer.Formed() && InstallRequest(u, a) in c.net
    ensures Tour(n, es', cs', late, short) && |es'| == |es| + 1
    ensures var c, z := cs[|es|], cs'[|es'|];
            var (p, r) := InstallSnapshot(c.nodes[u].peer, a);
            OnlyNode(c, z, u) && NoAcks(c, z) && z.nodes[u] == c.nodes[u].(peer := p) && InstallAnswer(u, a, r) in z.net
  {
    es', cs' := Go(n, es, cs, Receive(u, InstallRequest(u, a)), late, short);
  }

  lemma HearsInstall(n: nat, es: seq<Event>, cs: seq<Cluster>, v: nat, u: nat, a: InstallArgs, r: InstallReply, late: int, short: int)
    returns (es': seq<Event>, cs': seq<Cluster>)
    requires Tour(n, es, cs, late, short) && |es| != late && |es| != short
    requires var c := cs[|es|];
             && v < |c.nodes| && a.leaderId == v && InstallAnswer(u, a, r) in c.net && r.term <= a.term
             && c.nodes[v].peer.Formed() && u < c.nodes[v].peer.n
    ensures Tour(n, es', cs', late, short) && |es'| == |es| + 1
    ensures var c, z := cs[|es|], cs'[|es'|];
            OnlyNode(c, z, v) && NoAcks(c, z) && z.nodes[v] == c.nodes[v].(peer := OnInstallReply(c.nodes[v].peer, u, a, r))
  {
    es', cs' := Go(n, es, cs, TakeReply(v, InstallAnswer(u, a, r)), late, short);
  }

  lemma Keeps(n: nat, es: seq<Event>, cs: seq<Cluster>, v: nat, late: int, short: int) returns (es': seq<Event>, cs': seq<Cluster>)
    requires Tour(n, es, cs, late, short) && |es| != late && |es| != short
    requires var c := cs[|es|]; v < |c.nodes| && c.nodes[v].peer.Formed() && c.nodes[v].applier == SnapshotDue
    ensures Tour(n, es', cs', late, short) && |es'| == |es| + 1
    ensures var c, z := cs[|es|], cs'[|es'|];
            && OnlyNode(c, z, v) && NoAcks(c, z)
            && z.nodes[v] == c.nodes[v].(applier := SnapshotHeld(c.nodes[v].peer.lastIncludedIndex, c.nodes[v].peer.snapshot))
  {
    es', cs' := Go(n, es, cs, Hold(v), late, short);
  }

  lemma FeedsSnapshot(n: nat, es: seq<Event>, cs: seq<Cluster>, v: nat, late: int, short: int) returns (es': seq<Event>, cs': seq<Cluster>)
    requires Tour(n, es, cs, late, short) && |es| != late && |es| != short
    requires var c := cs[|es|];
             v < |c.nodes| && c.nodes[v].peer.Formed() && c.nodes[v].up && c.nodes[v].due == Nothing && c.nodes[v].applier.SnapshotHeld?
    ensures Tour(n, es', cs', late, short) && |es'| == |es| + 1
    ensures var c, z := cs[|es|], cs'[|es'|]; OnlyNode(c, z, v) && NoAcks(c, z) && z.nodes[v] == Fed(c.nodes[v])
  {
    es', cs' := Go(n, es, cs, Feed(v), late, short);
  }

  // ---------------------------------------------------------------------- plain peers

  // A peer that has compacted and committed nothing, and has everything on disk.
  function Plain(n: nat, v: nat, t: nat, voted: int, role: Role, log: seq<Entry>, votes: nat): Peer {
    Peer(v, n, t, voted, role, log, 0, 0, [], [], 0, 0, NoBlob, votes, Disk(t, voted, log, 0, 0, NoBlob))
  }

  const NO_ENTRIES: seq<Entry> := [SENTINEL]

  function Ask(v: nat, t: nat, log: seq<Entry>): VoteArgs
    requires 0 < |log|
  {
    VoteArgs(t, v, |log| - 1, Last(log).term)
  }

  lemma PlainVote(n: nat, u: nat, t: nat, voted: int, role: Role, log: seq<Entry>, votes: nat, v: nat, t': nat, other: seq<Entry>)
    requires 0 < |log| && 0 < |other| && UpToDate(log, other) && (t < t' || (t == t' && voted == -1 && role == Follower))
    ensures RequestVote(Plain(n, u, t, voted, role, log, votes), Ask(v, t', other))
            == (Plain(n, u, t', v, Follower, log, votes), VoteReply(t', true))
  {
  }

  // A leader of this kind, with what it knows of its followers.
  function Chief(n: nat, v: nat, t: nat, log: seq<Entry>, votes: nat, next: seq<int>, match': seq<int>, commit: nat): Peer {
    Plain(n, v, t, v, Leader, log, votes).(nextIndex := next, matchIndex := match', commitIndex := commit)
  }

  // What it sends a follower whose next index is k.
  function Sent(t: nat, v: nat, log: seq<Entry>, k: nat, commit: nat): AppendArgs
    requires 0 < k <= |log|
  {
    AppendArgs(t, v, k - 1, log[k - 1].term, log[k..], commit)
  }

  function Accepts(t: nat): AppendReply { AppendReply(t, true, 0, 0, 0) }

  // A follower with a matching entry takes over the leader's log.
  lemma PlainAppend(n: nat, u: nat, t: nat, voted: int, role: Role, log: seq<Entry>, votes: nat, a: AppendArgs)
    requires t <= a.term && a.prevLogIndex < |log| && log[a.prevLogIndex].term == a.prevLogTerm && a.leaderCommit == 0
    ensures AppendEntries(Plain(n, u, t, voted, role, log, votes), a)
            == (Plain(n, u, a.term, if t < a.term then -1 else voted, Follower, log[..a.prevLogIndex + 1] + a.entries, votes), Accepts(a.term))
  {
  }

  // What server v calls its first operation, in every incarnation.
  function FirstOp(v: nat, req: Request): Command {
    Op(req, OpId(v, 1))
  }

  function Grown(log: seq<Entry>, t: nat, x: Command): seq<Entry> {
    log + [Entry(t, x)]
  }

  // A log with one entry.
  function Logged(t: nat, x: Command): seq<Entry> {
    Grown(NO_ENTRIES, t, x)
  }

  // The layer above the peer has nothing in hand.
  ghost predicate AtRest(node: Node, p: Peer) {
    node.peer == p && node.up && node.applier == Idle && node.due == Nothing
  }

  // The candidate has the votes of a majority.
  function Crowned(p: Peer, votes: nat): Peer {
    p.(voteCount := votes, role := Leader, nextIndex := Filled(p.n, p.LastLogIndex() + 1), matchIndex := Filled(p.n, 0))
  }

  // ------------------------------------------------------------------ starting and electing

  function Running(v: nat, n: nat): Node {
    Loaded(Boot(v, n, EMPTY_DISK))
  }

  // All replicas start, one after the other.
  lemma {:induction false} AllStart(n: nat, k: nat, late: int, short: int) returns (es: seq<Event>, cs: seq<Cluster>)
    requires k <= n && !(0 <= late < k) && !(0 <= short < k)
    ensures Tour(n, es, cs, late, short) && |es| == k
    ensures var c := cs[k];
            && |c.nodes| == n && c.net == {}
            && forall v: nat {:trigger c.nodes[v]} :: v < n ==> c.nodes[v] == if v < k then Running(v, n) else Boot(v, n, EMPTY_DISK)
  {
    if k == 0 {
      es, cs := [], [Start0(n)];
    } else {
      es, cs := AllStart(n, k - 1, late, short);
      es, cs := Starts(n, es, cs, k - 1, late, short);
    }
  }

  ghost predicate Stands(node: Node, v: nat, t: nat) {
    node.peer.Formed() && node.peer.role == Candidate && node.peer.currentTerm == t && node.peer.voteCount == 1 && node.counted == {}
  }

  ghost predicate WillVote(node: Node, a: VoteArgs) {
    node.up && node.peer.Formed() && RequestVote(node.peer, a).1 == VoteReply(a.term, true)
  }

  // With three servers, one vote more makes the leader.
  lemma Election3(es: seq<Event>, cs: seq<Cluster>, v: nat, u: nat, a: VoteArgs, late: int, short: int)
    returns (es': seq<Event>, cs': seq<Cluster>)
    requires Tour(3, es, cs, late, short) && late !in {|es|, |es| + 1} && short !in {|es|, |es| + 1}
    requires var c := cs[|es|];
             && |c.nodes| == 3 && v < 3 && u < 3 && u != v && a.candidateId == v && c.nodes[v].peer.n == 3
             && Stands(c.nodes[v], v, a.term) && WillVote(c.nodes[u], a) && VoteRequest(u, a) in c.net
    ensures Tour(3, es', cs', late, short) && |es'| == |es| + 2
    ensures var c, z := cs[|es|], cs'[|es'|];
            && |z.nodes| == 3 && NoAcks(c, z) && c.delivered <= z.delivered
            && z.nodes[u] == c.nodes[u].(peer := RequestVote(c.nodes[u].peer, a).0)
            && z.nodes[v] == c.nodes[v].(peer := Crowned(c.nodes[v].peer, 2), counted := {u})
            && forall w {:trigger z.nodes[w]} :: 0 <= w < 3 && w != u && w != v ==> z.nodes[w] == c.nodes[w]
  {
    es', cs' := Votes(3, es, cs, u, a, late, short);
    es', cs' := Counts(3, es', cs', v, u, a, late, short);
  }

  // With five, two more.
  lemma Election5(es: seq<Event>, cs: seq<Cluster>, v: nat, u: nat, w: nat, a: VoteArgs) returns (es': seq<Event>, cs': seq<Cluster>)
    requires Tour(5, es, cs, -1, -1)
    requires var c := cs[|es|];
             && |c.nodes| == 5 && v < 5 && u < 5 && w < 5 && u != v && w != v && u != w && a.candidateId == v && c.nodes[v].peer.n == 5
             && Stands(c.nodes[v], v, a.term) && WillVote(c.nodes[u], a) && VoteRequest(u, a) in c.net
             && WillVote(c.nodes[w], a) && VoteRequest(w, a) in c.net
    ensures Tour(5, es', cs', -1, -1)
    ensures var c, z := cs[|es|], cs'[|es'|];
            && |z.nodes| == 5 && NoAcks(c, z) && c.delivered <= z.delivered
            && z.nodes[u] == c.nodes[u].(peer := RequestVote(c.nodes[u].peer, a).0)
            && z.nodes[w] == c.nodes[w].(peer := RequestVote(c.nodes[w].peer, a).0)
            && z.nodes[v] == c.nodes[v].(peer := Crowned(c.nodes[v].peer, 3), counted := {u, w})
            && forall x {:trigger z.nodes[x]} :: 0 <= x < 5 && x != u && x != v && x != w ==> z.nodes[x] == c.nodes[x]
  {
    es', cs' := Votes5(es, cs, v, u, w, a);
    es', cs' := Counts(5, es', cs', v, u, a, -1, -1);
    es', cs' := Counts(5, es', cs', v, w, a, -1, -1);
    assert {u} + {w} == {u, w};
  }

  lemma Votes5(es: seq<Event>, cs: seq<Cluster>, v: nat, u: nat, w: nat, a: VoteArgs) returns (es': seq<Event>, cs': seq<Cluster>)
    requires Tour(5, es, cs, -1, -1)
    requires var c := cs[|es|];
             && |c.nodes| == 5 && u < 5 && w < 5 && v < 5 && u != w && v != u && v != w
             && WillVote(c.nodes[u], a) && VoteRequest(u, a) in c.net && WillVote(c.nodes[w], a) && VoteRequest(w, a) in c.net
    ensures Tour(5, es', cs', -1, -1)
    ensures var c, z := cs[|es|], cs'[|es'|];
            && |z.nodes| == 5 && NoAcks(c, z) && c.delivered <= z.delivered
            && z.nodes[u] == c.nodes[u].(peer := RequestVote(c.nodes[u].peer, a).0)
            && z.nodes[w] == c.nodes[w].(peer := RequestVote(c.nodes[w].peer, a).0)
            && (forall x {:trigger z.nodes[x]} :: 0 <= x < 5 && x != u && x != w ==> z.nodes[x] == c.nodes[x])
            && VoteAnswer(u, a, VoteReply(a.term, true)) in z.net && VoteAnswer(w, a, VoteReply(a.term, true)) in z.net
  {
    es', cs' := Votes(5, es, cs, u, a, -1, -1);
    es', cs' := Votes(5, es', cs', w, a, -1, -1);
  }
}
