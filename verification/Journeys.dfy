/** Two ordinary runs from beginning to end: how a snapshot travels, and how a call gives up. */
module Journeys {
  import opened Session
  import opened Logs
  import opened Protocol
  import opened Peers
  import opened Waiters
  import opened Clusters
  import opened Tours
  import opened Witnesses

  // --------------------------------------------------------------- how a snapshot travels

  // The leader of term 1, and two followers, one of which hears nothing for now.
  lemma Elected() returns (es: seq<Event>, cs: seq<Cluster>)
    ensures Tour(3, es, cs, -1, -1)
    ensures var c := cs[|es|];
            && |c.nodes| == 3 && AtRest(c.nodes[0], Winner(0, 1)) && c.nodes[0] == Running(0, 3).(peer := Winner(0, 1), counted := {1})
            && c.nodes[1] == Voter(1, 1, 0, NO_ENTRIES, 0) && c.nodes[2] == Running(2, 3)
            && AcksUpTo(c, 1, 1, 0) && AcksUpTo(c, 0, 2, -1)
  {
    es, cs := AllStart(3, 3, -1, -1);
    es, cs := Campaigns(es, cs, 0, 0, -1, -1);
    assert VoteRequest(1, Ask(0, 1, NO_ENTRIES)) in cs[|es|].net;
    PlainVote(3, 1, 0, -1, Follower, NO_ENTRIES, 0, 0, 1, NO_ENTRIES);
    es, cs := Election3(es, cs, 0, 1, Ask(0, 1, NO_ENTRIES), -1, -1);
  }

  // What x leads to from nothing.
  function First(x: Request): Sessions {
    DoOp(map[], x)
  }

  // The leader, having executed its first operation and compacted it.
  function Compacted(x: Request): Peer {
    var head, data := [Entry(1, NoCommand)], Blob(First(x));
    Peer(0, 3, 1, 0, Leader, head, 1, 1, Filled(3, 1)[1 := 2], Filled(3, 0)[1 := 1], 1, 1, data, 2, Disk(1, 0, head, 1, 1, data))
  }

  // The operation is committed with the help of server 1 and executed by the leader,
  // whose reader then has it compacted.
  lemma Compacting(x: Request) returns (es: seq<Event>, cs: seq<Cluster>)
    ensures Tour(3, es, cs, -1, -1)
    ensures var c := cs[|es|];
            |c.nodes| == 3 && c.nodes[0].peer == Compacted(x) && c.nodes[0].sessions == First(x) && c.nodes[2] == Running(2, 3)
  {
    es, cs := Executing(x);
    var p := Committing(0, 1, FirstOp(0, x)).(lastApplied := 1);
    assert p.log[2..] == [];
    es, cs := Compacts(3, es, cs, 0, -1, -1);
  }

  lemma Executing(x: Request) returns (es: seq<Event>, cs: seq<Cluster>)
    ensures Tour(3, es, cs, -1, -1)
    ensures var c := cs[|es|];
            && |c.nodes| == 3 && c.nodes[0].peer == Committing(0, 1, FirstOp(0, x)).(lastApplied := 1)
            && c.nodes[0].sessions == First(x) && c.nodes[0].handled == 1 && c.nodes[0].compactable && c.nodes[2] == Running(2, 3)
  {
    es, cs := Elected();
    es, cs := Proposes(es, cs, 0, 1, x, -1);
    es, cs := Commits(es, cs, 0, 1, FirstOp(0, x), -1);
    assert Logged(1, FirstOp(0, x))[1..2] == [Entry(1, FirstOp(0, x))];
    es, cs := Takes(3, es, cs, 0, -1, -1);
    es, cs := Feeds(3, es, cs, 0, -1, -1);
  }

  // What the leader sends server 2, which has nothing.
  function Newer(x: Request): InstallArgs {
    InstallArgs(1, 0, 1, 1, Blob(First(x)))
  }

  // Server 2 after installing it.
  function Receiver(x: Request): Peer {
    var head, data := [Entry(1, NoCommand)], Blob(First(x));
    Peer(2, 3, 1, -1, Follower, head, 1, 0, [], [], 1, 1, data, 0, Disk(1, -1, head, 1, 1, data))
  }

  lemma SendsSnapshot(x: Request) returns (es: seq<Event>, cs: seq<Cluster>)
    ensures Tour(3, es, cs, -1, -1)
    ensures var c := cs[|es|];
            && |c.nodes| == 3 && c.nodes[0].sessions == First(x)
            && c.nodes[0].peer == Compacted(x).(nextIndex := [1, 2, 2], matchIndex := [0, 1, 1])
            && c.nodes[2] == Running(2, 3).(peer := Receiver(x))
  {
    es, cs := Compacting(x);
    assert Address(2, Build(cs[|es|].nodes[0].peer, 2)) == InstallRequest(2, Newer(x));
    es, cs := Beats(3, es, cs, 0, -1, -1);
    es, cs := Installs(3, es, cs, 2, Newer(x), -1, -1);
    es, cs := HearsInstall(3, es, cs, 0, 2, Newer(x), InstallReply(1), -1, -1);
    assert Filled(3, 1)[1 := 2][2 := 2] == [1, 2, 2] && Filled(3, 0)[1 := 1][2 := 1] == [0, 1, 1];
  }

  /** A snapshot travels: the leader's replica executes an operation and has it compacted, the
      leader sends the snapshot to a server that has nothing, and that server's replica then
      holds the leader's sessions, without having executed anything. */
  lemma SnapshotTravels(x: Request) returns (es: seq<Event>, cs: seq<Cluster>)
    ensures OrderedRun(3, es, cs)
    ensures var c := cs[|es|];
            && |c.nodes| == 3 && c.nodes[0].sessions == c.nodes[2].sessions == DoOp(map[], x)
            && c.nodes[0].peer.matchIndex == [0, 1, 1] && c.nodes[2].peer.commitIndex == c.nodes[2].handled == 1
            && c.nodes[2].applier == Idle && c.nodes[2].due == Nothing
            && c.nodes[2].stream == [ApplySnapshot(0, NoBlob), ApplySnapshot(1, Blob(DoOp(map[], x)))]
  {
    es, cs := SendsSnapshot(x);
    es, cs := Takes(3, es, cs, 2, -1, -1);
    es, cs := Keeps(3, es, cs, 2, -1, -1);
    es, cs := FeedsSnapshot(3, es, cs, 2, -1, -1);
    es, cs := Acts(3, es, cs, 2, Answering, -1, -1);
    TourWalks(3, es, cs, -1, -1);
  }

  // ------------------------------------------------------------------ how a call gives up

  // Server 0 leads term 1; its first call waits at index 1.
  lemma WaitsInVain(x: Request) returns (es: seq<Event>, cs: seq<Cluster>)
    ensures Tour(3, es, cs, -1, -1)
    ensures var c := cs[|es|];
            && |c.nodes| == 3 && AtRest(c.nodes[0], Chief(3, 0, 1, Logged(1, FirstOp(0, x)), 2, Filled(3, 1), Filled(3, 0), 0))
            && c.nodes[0].table == Table(1, [Call(x, OpId(0, 1), 1, 1, Waiting, [])], map[1 := 0], map[1 := OpId(0, 1)], map[1 := 1])
            && c.nodes[1] == Voter(1, 1, 0, NO_ENTRIES, 0) && c.nodes[2] == Running(2, 3) && AcksUpTo(c, 0, 2, -1)
  {
    es, cs := Elected();
    es, cs := Acts(3, es, cs, 0, Entering(x), -1, -1);
    es, cs := Submits(3, es, cs, 0, 0, -1, -1);
    es, cs := Acts(3, es, cs, 0, Registering(0), -1, -1);
  }

  // Server 2 leads term 2, and has nothing for server 0.
  lemma Replaced(x: Request) returns (es: seq<Event>, cs: seq<Cluster>)
    ensures Tour(3, es, cs, -1, -1)
    ensures var c := cs[|es|];
            && |c.nodes| == 3 && AtRest(c.nodes[0], Chief(3, 0, 1, Logged(1, FirstOp(0, x)), 2, Filled(3, 1), Filled(3, 0), 0))
            && c.nodes[0].table == Table(1, [Call(x, OpId(0, 1), 1, 1, Waiting, [])], map[1 := 0], map[1 := OpId(0, 1)], map[1 := 1])
            && AppendRequest(0, Sent(2, 2, NO_ENTRIES, 1, 0)) in c.net && AcksUpTo(c, 0, 2, -1)
  {
    es, cs := WaitsInVain(x);
    es, cs := Campaigns(es, cs, 2, 0, -1, -1);
    es, cs := Campaigns(es, cs, 2, 1, -1, -1);
    assert VoteRequest(1, Ask(2, 2, NO_ENTRIES)) in cs[|es|].net;
    PlainVote(3, 1, 1, 0, Follower, NO_ENTRIES, 0, 2, 2, NO_ENTRIES);
    es, cs := Election3(es, cs, 2, 1, Ask(2, 2, NO_ENTRIES), -1, -1);
    assert cs[|es|].nodes[2].peer == Winner(2, 2);
    assert Address(0, Build(Winner(2, 2), 0)) == AppendRequest(0, Sent(2, 2, NO_ENTRIES, 1, 0));
    es, cs := Beats(3, es, cs, 2, -1, -1);
  }

  // Server 0 hears of the new leader.
  lemma Learns(x: Request) returns (es: seq<Event>, cs: seq<Cluster>)
    ensures Tour(3, es, cs, -1, -1)
    ensures var c := cs[|es|];
            && |c.nodes| == 3 && c.nodes[0].up && c.nodes[0].peer.Formed()
            && c.nodes[0].peer.currentTerm == 2 && c.nodes[0].peer.role == Follower && c.nodes[0].peer.me == 0
            && c.nodes[0].table == Table(1, [Call(x, OpId(0, 1), 1, 1, Waiting, [])], map[1 := 0], map[1 := OpId(0, 1)], map[1 := 1])
  {
    es, cs := Replaced(x);
    es, cs := Appends(3, es, cs, 0, Sent(2, 2, NO_ENTRIES, 1, 0), -1, -1);
  }

  // The leader check of term 2, and what the call makes of it.
  lemma Checks(x: Request)
    ensures var t := Table(1, [Call(x, OpId(0, 1), 1, 1, Waiting, [])], map[1 := 0], map[1 := OpId(0, 1)], map[1 := 1]);
            && RoomAt(t, Earlier(t, 2))
            && CheckLeader(t, 2) == t.(calls := [Call(x, OpId(0, 1), 1, 1, Waiting, [ErrWrongLeader])])
            && Finish(Hear(CheckLeader(t, 2), 0), 0)
               == Table(1, [Call(x, OpId(0, 1), 1, 1, Returned(ErrWrongLeader), [ErrWrongLeader])], map[], map[], map[])
  {
    var t := Table(1, [Call(x, OpId(0, 1), 1, 1, Waiting, [])], map[1 := 0], map[1 := OpId(0, 1)], map[1 := 1]);
    assert Earlier(t, 2) == {1};
    assert WaitsAt(t, {1}, 0);
    assert [] + [ErrWrongLeader] == [ErrWrongLeader];
    assert t.channels - {1} == map[] && t.chanIds - {1} == map[] && t.chanTerms - {1} == map[];
  }

  /** A call gives up: it waits at a leader that is replaced before it has sent the operation to
      anyone; the leader check fails it, and the next call meets no leader at all. */
  lemma CallGivesUp(x: Request, y: Request) returns (es: seq<Event>, cs: seq<Cluster>)
    ensures OrderedRun(3, es, cs)
    ensures var t := cs[|es|].nodes;
            |t| == 3 && t[0].table == Table(2, [Call(x, OpId(0, 1), 1, 1, Returned(ErrWrongLeader), [ErrWrongLeader]),
                                                Call(y, OpId(0, 2), -1, 2, Returned(ErrWrongLeader), [])], map[], map[], map[])
  {
    es, cs := Learns(x);
    Checks(x);
    es, cs := Acts(3, es, cs, 0, Checking(2), -1, -1);
    es, cs := Acts(3, es, cs, 0, Hearing(0), -1, -1);
    es, cs := Acts(3, es, cs, 0, Finishing(0), -1, -1);
    es, cs := Acts(3, es, cs, 0, Entering(y), -1, -1);
    es, cs := Submits(3, es, cs, 0, 1, -1, -1);
    TourWalks(3, es, cs, -1, -1);
  }
}
