/** Why runs need their two assumptions: what the implementation can do without them. */
module Witnesses {
  import opened Session
  import opened Logs
  import opened Protocol
  import opened Peers
  import opened Waiters
  import opened Clusters
  import opened Tours

  // -------------------------------------------------------- the assumptions, locally

  /** Stepping down for the term of a reply keeps a peer's term and vote exactly if
      the reply is fresh; the implementation compares the reply's term with the one
      captured when the request was sent. */
  lemma FreshRepliesKeepPromises(node: Node, v: nat, m: Message)
    requires node.peer.Formed() && CanTakeReply(node, v, m)
    ensures KeepsPromise(node.peer, Take(node, v, m).peer) <==> FreshReply(node.peer, m)
  {
  }

  /** A follower that accepts entries keeps those a leader knows it has, up to index
      i, exactly if the message reaches that far: the log ends where the message does. */
  lemma AcceptedReach(p: Peer, a: AppendArgs, i: nat)
    requires p.Formed() && AppendEntries(p, a).1.success
    ensures i <= AppendEntries(p, a).0.LastLogIndex() <==> i <= Reach(a)
  {
  }

  // ---------------------------------------------------------------------- three servers

  // A server that has only ever campaigned.
  function Campaigner(v: nat, t: nat): Node {
    Running(v, 3).(peer := Plain(3, v, t, v, Candidate, NO_ENTRIES, 1))
  }

  // One that has voted in this term, having campaigned before or not.
  function Voter(u: nat, t: nat, v: int, log: seq<Entry>, votes: nat): Node {
    Running(u, 3).(peer := Plain(3, u, t, v, Follower, log, votes))
  }

  // A leader elected with nothing in its log.
  function Winner(v: nat, t: nat): Peer {
    Chief(3, v, t, NO_ENTRIES, 2, Filled(3, 1), Filled(3, 0), 0)
  }

  // A server times out once more, or for the first time.
  lemma Campaigns(es: seq<Event>, cs: seq<Cluster>, v: nat, t: nat, late: int, short: int) returns (es': seq<Event>, cs': seq<Cluster>)
    requires Tour(3, es, cs, late, short) && |es| != late && |es| != short
    requires var c := cs[|es|]; |c.nodes| == 3 && v < 3 && c.nodes[v] == if t == 0 then Running(v, 3) else Campaigner(v, t)
    ensures Tour(3, es', cs', late, short) && |es'| == |es| + 1
    ensures var c, z := cs[|es|], cs'[|es'|];
            && OnlyNode(c, z, v) && NoAcks(c, z) && z.nodes[v] == Campaigner(v, t + 1)
            && forall i: nat {:trigger VoteRequest(i, Ask(v, t + 1, NO_ENTRIES))} ::
                 i < 3 && i != v ==> VoteRequest(i, Ask(v, t + 1, NO_ENTRIES)) in z.net
  {
    es', cs' := Times(3, es, cs, v, late, short);
  }

  // -------------------------------------------------------------------- a late reply

  // The reply of term 2 to the request of term 1.
  const LATE: Message := VoteAnswer(1, Ask(0, 1, NO_ENTRIES), VoteReply(2, false))

  // Peer 0 campaigns in term 1, then peer 1 does, twice, and turns peer 0 down.
  lemma FirstCampaigns() returns (es: seq<Event>, cs: seq<Cluster>)
    ensures Tour(3, es, cs, 11, -1) && |es| == 7
    ensures var c := cs[7];
            && |c.nodes| == 3 && c.nodes[0] == Campaigner(0, 1) && c.nodes[1] == Campaigner(1, 2) && c.nodes[2] == Running(2, 3)
            && VoteRequest(0, Ask(1, 2, NO_ENTRIES)) in c.net && LATE in c.net
  {
    es, cs := AllStart(3, 3, 11, -1);
    es, cs := Campaigns(es, cs, 0, 0, 11, -1);
    assert VoteRequest(1, Ask(0, 1, NO_ENTRIES)) in cs[4].net;
    es, cs := Campaigns(es, cs, 1, 0, 11, -1);
    es, cs := Campaigns(es, cs, 1, 1, 11, -1);
    assert VoteRequest(0, Ask(1, 2, NO_ENTRIES)) in cs[6].net;
    es, cs := Votes(3, es, cs, 1, Ask(0, 1, NO_ENTRIES), 11, -1);
  }

  // Peer 1 leads term 2, and peer 2 campaigns for it too.
  lemma SecondCampaign() returns (es: seq<Event>, cs: seq<Cluster>)
    ensures Tour(3, es, cs, 11, -1) && |es| == 11
    ensures var c := cs[11];
            && |c.nodes| == 3 && c.nodes[0] == Voter(0, 2, 1, NO_ENTRIES, 1) && c.nodes[1].peer == Winner(1, 2)
            && c.nodes[2] == Campaigner(2, 2) && VoteRequest(0, Ask(2, 2, NO_ENTRIES)) in c.net && LATE in c.net
  {
    es, cs := FirstCampaigns();
    PlainVote(3, 0, 1, 0, Candidate, NO_ENTRIES, 1, 1, 2, NO_ENTRIES);
    es, cs := Election3(es, cs, 1, 0, Ask(1, 2, NO_ENTRIES), 11, -1);
    es, cs := Campaigns(es, cs, 2, 0, 11, -1);
    es, cs := Campaigns(es, cs, 2, 1, 11, -1);
    assert VoteRequest(0, Ask(2, 2, NO_ENTRIES)) in cs[11].net;
  }

  // Peer 0 takes the late reply in term 2, after it has voted in that term.
  lemma Forgets(c: Cluster)
    requires |c.nodes| == 3 && c.nodes[0] == Voter(0, 2, 1, NO_ENTRIES, 1) && LATE in c.net
    ensures var e := TakeReply(0, LATE);
            && Moves(c, e, false, true) && OnlyNode(c, Step(c, e), 0) && Step(c, e).net == c.net
            && Step(c, e).nodes[0] == Voter(0, 2, -1, NO_ENTRIES, 1)
  {
  }

  /** Two leaders of one term: a walk in which every reply but one is fresh. */
  lemma TwoLeaders() returns (es: seq<Event>, cs: seq<Cluster>)
    ensures Walk(3, es, cs) && Leads(cs[|es|], 1, 2) && Leads(cs[|es|], 2, 2)
    ensures forall i {:trigger es[i]} :: 0 <= i < |es| ==> (Fresh(cs[i], es[i]) <==> i != 11) && Ordered(cs[i], es[i])
  {
    es, cs := SecondCampaign();
    Forgets(cs[11]);
    es, cs := Go(3, es, cs, TakeReply(0, LATE), 11, -1);
    PlainVote(3, 0, 2, -1, Follower, NO_ENTRIES, 1, 2, 2, NO_ENTRIES);
    es, cs := Election3(es, cs, 2, 0, Ask(2, 2, NO_ENTRIES), 11, -1);
    TourWalks(3, es, cs, 11, -1);
  }

  // ------------------------------------------------------------ a short AppendEntries

  // A user of server v asks for x, and the server, which leads, sends it on.
  lemma Proposes(es: seq<Event>, cs: seq<Cluster>, v: nat, t: nat, x: Request, short: int) returns (es': seq<Event>, cs': seq<Cluster>)
    requires Tour(3, es, cs, -1, short) && short !in {|es|, |es| + 1, |es| + 2}
    requires var c := cs[|es|]; |c.nodes| == 3 && v < 3 && v != 1 && AtRest(c.nodes[v], Winner(v, t)) && c.nodes[v].table == EMPTY_TABLE
    ensures Tour(3, es', cs', -1, short) && |es'| == |es| + 3
    ensures var c, z := cs[|es|], cs'[|es'|];
            && OnlyNode(c, z, v) && NoAcks(c, z)
            && AtRest(z.nodes[v], Chief(3, v, t, Logged(t, FirstOp(v, x)), 2, Filled(3, 1), Filled(3, 0), 0))
            && AppendRequest(1, Sent(t, v, Logged(t, FirstOp(v, x)), 1, 0)) in z.net
            && z.nodes[v].sessions == c.nodes[v].sessions
  {
    es', cs' := Acts(3, es, cs, v, Entering(x), -1, short);
    es', cs' := Submits(3, es', cs', v, 0, -1, short);
    assert Address(1, Build(cs'[|es'|].nodes[v].peer, 1)) == AppendRequest(1, Sent(t, v, Logged(t, FirstOp(v, x)), 1, 0));
    es', cs' := Beats(3, es', cs', v, -1, short);
  }

  lemma OneMatches(v: nat, t: nat, x: Command)
    requires v < 3 && v != 1
    ensures CommitTarget(Chief(3, v, t, Logged(t, x), 2, Filled(3, 1)[1 := 2], Filled(3, 0)[1 := 1], 0), 1) == 1
    ensures SearchStays(Chief(3, v, t, Logged(t, x), 2, Filled(3, 1)[1 := 2], Filled(3, 0)[1 := 1], 0), 1)
  {
    var q := Chief(3, v, t, Logged(t, x), 2, Filled(3, 1)[1 := 2], Filled(3, 0)[1 := 1], 0);
    assert Matched(q, 1, 3) == Matched(q, 1, 2);
    assert Matched(q, 1, 2) == Matched(q, 1, 1) + 1;
  }

  function Committing(v: nat, t: nat, x: Command): Peer {
    Chief(3, v, t, Logged(t, x), 2, Filled(3, 1)[1 := 2], Filled(3, 0)[1 := 1], 1)
  }

  // Peer 1 accepts it, and hears that it is committed no sooner than the leader.
  lemma Commits(es: seq<Event>, cs: seq<Cluster>, v: nat, t: nat, x: Command, short: int) returns (es': seq<Event>, cs': seq<Cluster>)
    requires Tour(3, es, cs, -1, short) && short !in {|es|, |es| + 1}
    requires var c := cs[|es|];
             && |c.nodes| == 3 && v < 3 && v != 1
             && AtRest(c.nodes[v], Chief(3, v, t, Logged(t, x), 2, Filled(3, 1), Filled(3, 0), 0))
             && c.nodes[1] == Voter(1, t, v, NO_ENTRIES, 0) && AcksUpTo(c, 1, t, 0)
             && AppendRequest(1, Sent(t, v, Logged(t, x), 1, 0)) in c.net
    ensures Tour(3, es', cs', -1, short) && |es'| == |es| + 2
    ensures var c, z := cs[|es|], cs'[|es'|];
            && |z.nodes| == 3 && c.net <= z.net && c.delivered <= z.delivered
            && AtRest(z.nodes[v], Committing(v, t, x)) && z.nodes[1] == Voter(1, t, v, Logged(t, x), 0)
            && z.nodes[v].sessions == c.nodes[v].sessions
            && (forall u {:trigger z.nodes[u]} :: 0 <= u < 3 && u != 1 && u != v ==> z.nodes[u] == c.nodes[u])
            && AppendAnswer(1, Sent(t, v, Logged(t, x), 1, 0), Accepts(t)) in z.net
            && forall m {:trigger m in z.net} :: m in z.net && m.AppendAnswer? && m !in c.net ==> m.append.term == t
  {
    var a := Sent(t, v, Logged(t, x), 1, 0);
    PlainAppend(3, 1, t, v, Follower, NO_ENTRIES, 0, a);
    assert NO_ENTRIES[..1] + a.entries == Logged(t, x);
    es', cs' := Appends(3, es, cs, 1, a, -1, short);
    OneMatches(v, t, x);
    es', cs' := Hears(3, es', cs', v, 1, a, Accepts(t), -1, short);
  }

  // The leader's replica takes the committed command from the apply channel.
  lemma Delivers(es: seq<Event>, cs: seq<Cluster>, v: nat, t: nat, x: Command, short: int) returns (es': seq<Event>, cs': seq<Cluster>)
    requires Tour(3, es, cs, -1, short) && short !in {|es|, |es| + 1}
    requires var c := cs[|es|]; |c.nodes| == 3 && v < 3 && AtRest(c.nodes[v], Committing(v, t, x))
    ensures Tour(3, es', cs', -1, short) && |es'| == |es| + 2
    ensures var c, z := cs[|es|], cs'[|es'|]; OnlyNode(c, z, v) && NoAcks(c, z) && Delivery(v, 1, x) in z.delivered
  {
    assert Logged(t, x)[1..2] == [Entry(t, x)];
    es', cs' := Takes(3, es, cs, v, -1, short);
    es', cs' := Feeds(3, es', cs', v, -1, short);
  }

  // Peer 0 leads term 1.
  lemma FirstElection() returns (es: seq<Event>, cs: seq<Cluster>)
    ensures Tour(3, es, cs, -1, 14) && |es| == 6
    ensures var c := cs[6];
            && |c.nodes| == 3 && AtRest(c.nodes[0], Winner(0, 1)) && c.nodes[0].table == EMPTY_TABLE
            && c.nodes[1] == Voter(1, 1, 0, NO_ENTRIES, 0) && c.nodes[2] == Running(2, 3)
            && AcksUpTo(c, 1, 1, 0) && AcksUpTo(c, 1, 2, 0)
  {
    es, cs := AllStart(3, 3, -1, 14);
    es, cs := Campaigns(es, cs, 0, 0, -1, 14);
    assert VoteRequest(1, Ask(0, 1, NO_ENTRIES)) in cs[4].net;
    PlainVote(3, 1, 0, -1, Follower, NO_ENTRIES, 0, 0, 1, NO_ENTRIES);
    es, cs := Election3(es, cs, 0, 1, Ask(0, 1, NO_ENTRIES), -1, 14);
  }

  // What it first builds for peer 1.
  lemma FirstBuild()
    ensures Winner(0, 1).Formed() && Winner(0, 1).InRange()
    ensures Address(1, Build(Winner(0, 1), 1)) == AppendRequest(1, Sent(1, 0, NO_ENTRIES, 1, 0))
  {
  }

  // It first sends peer 1 nothing, as it has nothing.
  lemma FirstLeader() returns (es: seq<Event>, cs: seq<Cluster>)
    ensures Tour(3, es, cs, -1, 14) && |es| == 7
    ensures var c := cs[7];
            && |c.nodes| == 3 && AtRest(c.nodes[0], Winner(0, 1)) && c.nodes[0].table == EMPTY_TABLE
            && c.nodes[1] == Voter(1, 1, 0, NO_ENTRIES, 0) && c.nodes[2] == Running(2, 3)
            && AcksUpTo(c, 1, 1, 0) && AcksUpTo(c, 1, 2, 0) && AppendRequest(1, Sent(1, 0, NO_ENTRIES, 1, 0)) in c.net
  {
    es, cs := FirstElection();
    FirstBuild();
    assert cs[6].nodes[0].peer == Winner(0, 1);
    es, cs := Beats(3, es, cs, 0, -1, 14);
  }

  // That message is delayed, and x is committed and delivered.
  lemma Delayed(x: Request) returns (es: seq<Event>, cs: seq<Cluster>)
    ensures Tour(3, es, cs, -1, 14) && |es| == 14
    ensures var c := cs[14];
            && |c.nodes| == 3 && c.nodes[1] == Voter(1, 1, 0, Logged(1, FirstOp(0, x)), 0) && c.nodes[2] == Running(2, 3)
            && AppendRequest(1, Sent(1, 0, NO_ENTRIES, 1, 0)) in c.net
            && AppendAnswer(1, Sent(1, 0, Logged(1, FirstOp(0, x)), 1, 0), Accepts(1)) in c.net
            && AcksUpTo(c, 1, 2, 0) && Delivery(0, 1, FirstOp(0, x)) in c.delivered
  {
    es, cs := FirstLeader();
    es, cs := Proposes(es, cs, 0, 1, x, 14);
    es, cs := Commits(es, cs, 0, 1, FirstOp(0, x), 14);
    es, cs := Delivers(es, cs, 0, 1, FirstOp(0, x), 14);
  }

  // Peer 1 handles the delayed message and loses what it had acknowledged.
  lemma Loses(x: Request) returns (es: seq<Event>, cs: seq<Cluster>)
    ensures Tour(3, es, cs, -1, 14) && |es| == 15
    ensures var c := cs[15];
            && |c.nodes| == 3 && c.nodes[1] == Voter(1, 1, 0, NO_ENTRIES, 0) && c.nodes[2] == Running(2, 3)
            && AcksUpTo(c, 1, 2, 0) && Delivery(0, 1, FirstOp(0, x)) in c.delivered
  {
    es, cs := Delayed(x);
    var a, b := Sent(1, 0, NO_ENTRIES, 1, 0), Sent(1, 0, Logged(1, FirstOp(0, x)), 1, 0);
    assert AppendAnswer(1, b, Accepts(1)) in cs[14].net && Reach(b) == 1 && Reach(a) == 0;
    PlainAppend(3, 1, 1, 0, Follower, Logged(1, FirstOp(0, x)), 0, a);
    assert Logged(1, FirstOp(0, x))[..1] + a.entries == NO_ENTRIES;
    es, cs := Appends(3, es, cs, 1, a, -1, 14);
  }

  // Peer 2 is elected in term 2 without the committed entry.
  lemma Usurps(x: Request) returns (es: seq<Event>, cs: seq<Cluster>)
    ensures Tour(3, es, cs, -1, 14) && |es| == 19
    ensures var c := cs[19];
            && |c.nodes| == 3 && AtRest(c.nodes[2], Winner(2, 2)) && c.nodes[2].table == EMPTY_TABLE
            && c.nodes[1] == Voter(1, 2, 2, NO_ENTRIES, 0) && AcksUpTo(c, 1, 2, 0) && Delivery(0, 1, FirstOp(0, x)) in c.delivered
  {
    es, cs := Loses(x);
    es, cs := Campaigns(es, cs, 2, 0, -1, 14);
    es, cs := Campaigns(es, cs, 2, 1, -1, 14);
    assert VoteRequest(1, Ask(2, 2, NO_ENTRIES)) in cs[17].net;
    PlainVote(3, 1, 1, 0, Follower, NO_ENTRIES, 0, 2, 2, NO_ENTRIES);
    es, cs := Election3(es, cs, 2, 1, Ask(2, 2, NO_ENTRIES), -1, 14);
  }

  /** Two commands at one index: a run in which every AppendEntries but one is handled
      in order, and two servers deliver different commands at index 1, whatever the two
      requests they were asked for. */
  lemma CommittedEntryLost(x: Request, y: Request) returns (es: seq<Event>, cs: seq<Cluster>)
    ensures Run(3, es, cs) && forall i {:trigger es[i]} :: 0 <= i < |es| ==> (Ordered(cs[i], es[i]) <==> i != 14)
    ensures Delivery(0, 1, FirstOp(0, x)) in cs[|es|].delivered && Delivery(2, 1, FirstOp(2, y)) in cs[|es|].delivered
    ensures FirstOp(0, x) != FirstOp(2, y)
  {
    es, cs := Usurps(x);
    es, cs := Proposes(es, cs, 2, 2, y, 14);
    es, cs := Commits(es, cs, 2, 2, FirstOp(2, y), 14);
    es, cs := Delivers(es, cs, 2, 2, FirstOp(2, y), 14);
    TourWalks(3, es, cs, -1, 14);
    OpIdsCoincide(0, 1, 2, 1);
  }
}
