/** Why Submit's Ok needs a server that has not restarted: a restarted server counts its
    calls from 1 again, so that an operation it submitted before has the id of another
    one, and may be committed where that one was appended. */
module Reincarnations {
  import opened Session
  import opened Logs
  import opened Protocol
  import opened Peers
  import opened Waiters
  import opened Clusters
  import opened Tours
  import opened Theorems

  // ----------------------------------------------------------------------- five servers

  // A follower with nothing above it, at rest.
  function Follows(u: nat, t: nat, voted: int, log: seq<Entry>): Node {
    Running(u, 5).(peer := Plain(5, u, t, voted, Follower, log, 0))
  }

  function Stood(v: nat, t: nat, log: seq<Entry>): Node {
    Running(v, 5).(peer := Plain(5, v, t, v, Candidate, log, 1))
  }

  // Elected by three of five.
  function Winner(v: nat, t: nat, log: seq<Entry>): Peer {
    Chief(5, v, t, log, 3, Filled(5, |log|), Filled(5, 0), 0)
  }

  // At rest with these calls.
  ghost predicate Holds(node: Node, p: Peer, t: Table) {
    AtRest(node, p) && node.table == t
  }

  // Servers 0 and 2 have acknowledged nothing in term 4.
  ghost predicate Silent(c: Cluster) {
    AcksUpTo(c, 0, 4, -1) && AcksUpTo(c, 2, 4, -1)
  }

  // A server times out.
  lemma Campaigns(es: seq<Event>, cs: seq<Cluster>, v: nat, t: nat, voted: int, log: seq<Entry>)
    returns (es': seq<Event>, cs': seq<Cluster>)
    requires Tour(5, es, cs, -1, -1) && 0 < |log|
    requires var c := cs[|es|]; |c.nodes| == 5 && v < 5 && c.nodes[v] in {Follows(v, t, voted, log), Stood(v, t, log)}
    ensures Tour(5, es', cs', -1, -1)
    ensures var c, z := cs[|es|], cs'[|es'|];
            && OnlyNode(c, z, v) && NoAcks(c, z) && z.nodes[v] == Stood(v, t + 1, log)
            && forall i: nat {:trigger VoteRequest(i, Ask(v, t + 1, log))} :: i < 5 && i != v ==> VoteRequest(i, Ask(v, t + 1, log)) in z.net
  {
    es', cs' := Times(5, es, cs, v, -1, -1);
  }

  // It wins with two more votes.
  lemma Wins(es: seq<Event>, cs: seq<Cluster>, v: nat, u: nat, w: nat, t: nat, log: seq<Entry>,
             ut: nat, uv: int, ul: seq<Entry>, wt: nat, wv: int, wl: seq<Entry>)
    returns (es': seq<Event>, cs': seq<Cluster>)
    requires Tour(5, es, cs, -1, -1) && 0 < |log| && 0 < |ul| && 0 < |wl| && UpToDate(ul, log) && UpToDate(wl, log)
    requires v < 5 && u < 5 && w < 5 && u != v && w != v && u != w && ut < t && wt < t
    requires var c := cs[|es|];
             && |c.nodes| == 5 && c.nodes[v] == Stood(v, t, log)
             && c.nodes[u] == Follows(u, ut, uv, ul) && c.nodes[w] == Follows(w, wt, wv, wl)
             && VoteRequest(u, Ask(v, t, log)) in c.net && VoteRequest(w, Ask(v, t, log)) in c.net
    ensures Tour(5, es', cs', -1, -1)
    ensures var c, z := cs[|es|], cs'[|es'|];
            && |z.nodes| == 5 && NoAcks(c, z) && c.delivered <= z.delivered
            && Holds(z.nodes[v], Winner(v, t, log), EMPTY_TABLE)
            && z.nodes[u] == Follows(u, t, v, ul) && z.nodes[w] == Follows(w, t, v, wl)
            && forall x {:trigger z.nodes[x]} :: 0 <= x < 5 && x != u && x != v && x != w ==> z.nodes[x] == c.nodes[x]
  {
    PlainVote(5, u, ut, uv, Follower, ul, 0, v, t, log);
    PlainVote(5, w, wt, wv, Follower, wl, 0, v, t, log);
    es', cs' := Election5(es, cs, v, u, w, Ask(v, t, log));
  }

  // The table after the first call of an incarnation met the leader it runs beside.
  function OneCall(v: nat, req: Request, index: int, term: nat): Table {
    Table(1, [Call(req, OpId(v, 1), index, term, Accepted, [])], map[], map[], map[])
  }

  // A new leader takes on its first operation.
  lemma Proposes(es: seq<Event>, cs: seq<Cluster>, v: nat, t: nat, log: seq<Entry>, x: Request)
    returns (es': seq<Event>, cs': seq<Cluster>)
    requires Tour(5, es, cs, -1, -1) && 0 < |log|
    requires var c := cs[|es|]; |c.nodes| == 5 && v < 5 && Holds(c.nodes[v], Winner(v, t, log), EMPTY_TABLE)
    ensures Tour(5, es', cs', -1, -1)
    ensures var c, z := cs[|es|], cs'[|es'|];
            && OnlyNode(c, z, v) && NoAcks(c, z)
            && Holds(z.nodes[v], Chief(5, v, t, Grown(log, t, FirstOp(v, x)), 3, Filled(5, |log|), Filled(5, 0), 0), OneCall(v, x, |log|, t))
  {
    es', cs' := Acts(5, es, cs, v, Entering(x), -1, -1);
    es', cs' := Submits(5, es', cs', v, 0, -1, -1);
  }

  // A leader sends everyone what it thinks they need.
  lemma Sends(es: seq<Event>, cs: seq<Cluster>, v: nat, t: nat, log: seq<Entry>, next: seq<int>, match': seq<int>, commit: nat)
    returns (es': seq<Event>, cs': seq<Cluster>)
    requires Tour(5, es, cs, -1, -1) && 0 < |log| && |next| == 5 && |match'| == 5 && forall i {:trigger next[i]} :: 0 <= i < 5 ==> 0 < next[i] <= |log|
    requires var c := cs[|es|]; |c.nodes| == 5 && v < 5 && c.nodes[v].peer == Chief(5, v, t, log, 3, next, match', commit)
    ensures Tour(5, es', cs', -1, -1)
    ensures var c, z := cs[|es|], cs'[|es'|];
            && |z.nodes| == 5 && z.nodes == c.nodes && NoAcks(c, z) && c.delivered <= z.delivered
            && forall i: nat {:trigger next[i]} :: i < 5 && i != v ==> AppendRequest(i, Sent(t, v, log, next[i], commit)) in z.net
  {
    es', cs' := Beats(5, es, cs, v, -1, -1);
    forall i: nat | i < 5 && i != v
      ensures AppendRequest(i, Sent(t, v, log, next[i], commit)) in cs'[|es'|].net
    {
      assert Address(i, Build(cs[|es|].nodes[v].peer, i)) == AppendRequest(i, Sent(t, v, log, next[i], commit));
    }
  }

  // ------------------------------------------------------ what is left of operation A

  // Server 0 leads term 1 and appends A at index 1, which reaches only server 4.
  lemma Writes(a: Request) returns (es: seq<Event>, cs: seq<Cluster>)
    ensures Tour(5, es, cs, -1, -1)
    ensures var c := cs[|es|];
            && |c.nodes| == 5 && c.nodes[0].peer == Chief(5, 0, 1, Logged(1, FirstOp(0, a)), 3, Filled(5, 1), Filled(5, 0), 0)
            && c.nodes[1] == Follows(1, 1, 0, NO_ENTRIES) && c.nodes[2] == Follows(2, 1, 0, NO_ENTRIES)
            && c.nodes[3] == Running(3, 5) && c.nodes[4] == Running(4, 5)
            && Silent(c) && AcksUpTo(c, 0, 2, -1) && AcksUpTo(c, 4, 1, -1)
            && AppendRequest(4, Sent(1, 0, Logged(1, FirstOp(0, a)), 1, 0)) in c.net
  {
    es, cs := AllStart(5, 5, -1, -1);
    es, cs := Campaigns(es, cs, 0, 0, -1, NO_ENTRIES);
    assert VoteRequest(1, Ask(0, 1, NO_ENTRIES)) in cs[|es|].net && VoteRequest(2, Ask(0, 1, NO_ENTRIES)) in cs[|es|].net;
    es, cs := Wins(es, cs, 0, 1, 2, 1, NO_ENTRIES, 0, -1, NO_ENTRIES, 0, -1, NO_ENTRIES);
    es, cs := Proposes(es, cs, 0, 1, NO_ENTRIES, a);
    es, cs := Sends(es, cs, 0, 1, Logged(1, FirstOp(0, a)), Filled(5, 1), Filled(5, 0), 0);
    assert Filled(5, 1)[4] == 1;
  }

  ghost predicate Left(c: Cluster, a: Request) {
    && |c.nodes| == 5 && c.nodes[0] == Follows(0, 1, 0, Logged(1, FirstOp(0, a)))
    && c.nodes[1] == Follows(1, 1, 0, NO_ENTRIES) && c.nodes[2] == Follows(2, 1, 0, NO_ENTRIES)
    && c.nodes[3] == Running(3, 5) && c.nodes[4] == Follows(4, 1, -1, Logged(1, FirstOp(0, a)))
    && Silent(c) && AcksUpTo(c, 0, 2, -1)
  }

  // Then it restarts.
  lemma Restarts(a: Request) returns (es: seq<Event>, cs: seq<Cluster>)
    ensures Tour(5, es, cs, -1, -1) && Left(cs[|es|], a)
  {
    es, cs := Writes(a);
    var m := Sent(1, 0, Logged(1, FirstOp(0, a)), 1, 0);
    PlainAppend(5, 4, 0, -1, Follower, NO_ENTRIES, 0, m);
    assert NO_ENTRIES[..1] + m.entries == Logged(1, FirstOp(0, a));
    es, cs := Appends(5, es, cs, 4, m, -1, -1);
    es, cs := Crashes(5, es, cs, 0, -1, -1);
    es, cs := Starts(5, es, cs, 0, -1, -1);
  }

  // The leader of term 2 has nothing, and server 0 loses A.
  lemma Cuts(a: Request) returns (es: seq<Event>, cs: seq<Cluster>)
    ensures Tour(5, es, cs, -1, -1)
    ensures var c := cs[|es|];
            && |c.nodes| == 5 && c.nodes[0] == Follows(0, 2, -1, NO_ENTRIES)
            && c.nodes[2] == Follows(2, 2, 1, NO_ENTRIES) && c.nodes[3] == Follows(3, 2, 1, NO_ENTRIES)
            && c.nodes[4] == Follows(4, 1, -1, Logged(1, FirstOp(0, a))) && Silent(c)
  {
    es, cs := Restarts(a);
    es, cs := Campaigns(es, cs, 1, 1, 0, NO_ENTRIES);
    assert VoteRequest(2, Ask(1, 2, NO_ENTRIES)) in cs[|es|].net && VoteRequest(3, Ask(1, 2, NO_ENTRIES)) in cs[|es|].net;
    es, cs := Wins(es, cs, 1, 2, 3, 2, NO_ENTRIES, 1, 0, NO_ENTRIES, 0, -1, NO_ENTRIES);
    es, cs := Sends(es, cs, 1, 2, NO_ENTRIES, Filled(5, 1), Filled(5, 0), 0);
    assert Filled(5, 1)[0] == 1;
    var m := Sent(2, 1, NO_ENTRIES, 1, 0);
    PlainAppend(5, 0, 1, 0, Follower, Logged(1, FirstOp(0, a)), 0, m);
    assert Logged(1, FirstOp(0, a))[..1] + m.entries == NO_ENTRIES;
    es, cs := Appends(5, es, cs, 0, m, -1, -1);
  }

  // ------------------------------------------------------------- operation C waits there

  // The call of C waits at index 1.
  function Waits(req: Request): Table {
    var id := OpId(0, 1);
    Table(1, [Call(req, id, 1, 3, Waiting, [])], map[1 := 0], map[1 := id], map[1 := 3])
  }

  // Server 0 leads term 3 and appends C at index 1, which reaches nobody.
  lemma WritesAgain(a: Request, x: Request) returns (es: seq<Event>, cs: seq<Cluster>)
    ensures Tour(5, es, cs, -1, -1)
    ensures var c := cs[|es|];
            && |c.nodes| == 5
            && Holds(c.nodes[0], Chief(5, 0, 3, Logged(3, FirstOp(0, x)), 3, Filled(5, 1), Filled(5, 0), 0), Waits(x))
            && c.nodes[2] == Follows(2, 3, 0, NO_ENTRIES) && c.nodes[3] == Follows(3, 3, 0, NO_ENTRIES)
            && c.nodes[4] == Follows(4, 1, -1, Logged(1, FirstOp(0, a))) && Silent(c)
  {
    es, cs := Cuts(a);
    es, cs := Campaigns(es, cs, 0, 2, -1, NO_ENTRIES);
    assert VoteRequest(2, Ask(0, 3, NO_ENTRIES)) in cs[|es|].net && VoteRequest(3, Ask(0, 3, NO_ENTRIES)) in cs[|es|].net;
    es, cs := Wins(es, cs, 0, 2, 3, 3, NO_ENTRIES, 2, 1, NO_ENTRIES, 2, 1, NO_ENTRIES);
    es, cs := Proposes(es, cs, 0, 3, NO_ENTRIES, x);
    es, cs := Acts(5, es, cs, 0, Registering(0), -1, -1);
  }

  // --------------------------------------------------------------- server 4 commits A

  // The log of the leader of term 4.
  function Final(a: Request, b: Request): seq<Entry> {
    Grown(Logged(1, FirstOp(0, a)), 4, FirstOp(4, b))
  }

  function Leader4(a: Request, b: Request, next: seq<int>, match': seq<int>, commit: nat): Peer {
    Chief(5, 4, 4, Final(a, b), 3, next, match', commit)
  }

  // Server 4 leads term 4 and appends B after A.
  lemma Returns(a: Request, b: Request, x: Request) returns (es: seq<Event>, cs: seq<Cluster>)
    ensures Tour(5, es, cs, -1, -1)
    ensures var c := cs[|es|];
            && |c.nodes| == 5
            && Holds(c.nodes[0], Chief(5, 0, 3, Logged(3, FirstOp(0, x)), 3, Filled(5, 1), Filled(5, 0), 0), Waits(x))
            && c.nodes[2] == Follows(2, 4, 4, NO_ENTRIES)
            && c.nodes[4].peer == Leader4(a, b, Filled(5, 2), Filled(5, 0), 0) && Silent(c)
  {
    es, cs := WritesAgain(a, x);
    var log := Logged(1, FirstOp(0, a));
    es, cs := Campaigns(es, cs, 4, 1, -1, log);
    es, cs := Campaigns(es, cs, 4, 2, 4, log);
    es, cs := Campaigns(es, cs, 4, 3, 4, log);
    assert VoteRequest(2, Ask(4, 4, log)) in cs[|es|].net && VoteRequest(3, Ask(4, 4, log)) in cs[|es|].net;
    es, cs := Wins(es, cs, 4, 2, 3, 4, log, 3, 0, NO_ENTRIES, 3, 0, NO_ENTRIES);
    es, cs := Proposes(es, cs, 4, 4, log, b);
  }

  // Server 0 as a follower of term 4.
  function Deposed(log: seq<Entry>, commit: nat): Peer {
    Plain(5, 0, 4, -1, Follower, log, 3).(nextIndex := Filled(5, 1), matchIndex := Filled(5, 0), commitIndex := commit)
  }

  // What servers 0 and 2 are sent after that: the entries from index k on.
  function Sent4(a: Request, b: Request, k: nat, commit: nat): AppendArgs
    requires 0 < k <= 3
  {
    Sent(4, 4, Final(a, b), k, commit)
  }

  lemma Mismatch(a: Request, b: Request, x: Request)
    ensures AppendEntries(Chief(5, 0, 3, Logged(3, FirstOp(0, x)), 3, Filled(5, 1), Filled(5, 0), 0), Sent4(a, b, 2, 0))
            == (Deposed(Logged(3, FirstOp(0, x)), 0), AppendReply(4, false, 3, 1, 2))
    ensures AppendEntries(Follows(2, 4, 4, NO_ENTRIES).peer, Sent4(a, b, 2, 0))
            == (Follows(2, 4, 4, NO_ENTRIES).peer, AppendReply(4, false, -1, -1, 1))
  {
    var log := Logged(3, FirstOp(0, x));
    assert log[1].term == 3;
    assert FirstOf(log, 3) == 1;
  }

  // Both turn down what it sends first.
  lemma TurnDown(a: Request, b: Request, x: Request) returns (es: seq<Event>, cs: seq<Cluster>)
    ensures Tour(5, es, cs, -1, -1)
    ensures var c := cs[|es|];
            && |c.nodes| == 5 && Holds(c.nodes[0], Deposed(Logged(3, FirstOp(0, x)), 0), Waits(x))
            && c.nodes[2] == Follows(2, 4, 4, NO_ENTRIES)
            && c.nodes[4].peer == Leader4(a, b, Filled(5, 2), Filled(5, 0), 0) && Silent(c)
            && AppendAnswer(0, Sent4(a, b, 2, 0), AppendReply(4, false, 3, 1, 2)) in c.net
            && AppendAnswer(2, Sent4(a, b, 2, 0), AppendReply(4, false, -1, -1, 1)) in c.net
  {
    es, cs := Returns(a, b, x);
    es, cs := Sends(es, cs, 4, 4, Final(a, b), Filled(5, 2), Filled(5, 0), 0);
    assert Filled(5, 2)[0] == 2 && Filled(5, 2)[2] == 2;
    Mismatch(a, b, x);
    es, cs := Appends(5, es, cs, 0, Sent4(a, b, 2, 0), -1, -1);
    es, cs := Appends(5, es, cs, 2, Sent4(a, b, 2, 0), -1, -1);
  }

  // The next index of servers 0 and 2.
  function Next(k: nat): seq<int> {
    Filled(5, 2)[0 := k][2 := k]
  }

  function Known(k: nat): seq<int> {
    Filled(5, 0)[0 := k][2 := k]
  }

  lemma Hints(a: Request, b: Request)
    ensures BackOff(Leader4(a, b, Filled(5, 2), Filled(5, 0), 0), AppendReply(4, false, 3, 1, 2)) == 1
    ensures BackOff(Leader4(a, b, Filled(5, 2)[0 := 1], Filled(5, 0), 0), AppendReply(4, false, -1, -1, 1)) == 1
  {
    var log := Final(a, b);
    assert LastOf(log, 3) == LastOf(log[..2], 3) == LastOf(log[..2][..1], 3) == LastOf([], 3);
  }

  // It backs off and sends both its whole log.
  lemma BacksOff(a: Request, b: Request, x: Request) returns (es: seq<Event>, cs: seq<Cluster>)
    ensures Tour(5, es, cs, -1, -1)
    ensures var c := cs[|es|];
            && |c.nodes| == 5 && Holds(c.nodes[0], Deposed(Logged(3, FirstOp(0, x)), 0), Waits(x))
            && c.nodes[2] == Follows(2, 4, 4, NO_ENTRIES)
            && c.nodes[4].peer == Leader4(a, b, Next(1), Filled(5, 0), 0) && Silent(c)
            && AppendRequest(0, Sent4(a, b, 1, 0)) in c.net && AppendRequest(2, Sent4(a, b, 1, 0)) in c.net
  {
    es, cs := TurnDown(a, b, x);
    Hints(a, b);
    es, cs := Hears(5, es, cs, 4, 0, Sent4(a, b, 2, 0), AppendReply(4, false, 3, 1, 2), -1, -1);
    es, cs := Hears(5, es, cs, 4, 2, Sent4(a, b, 2, 0), AppendReply(4, false, -1, -1, 1), -1, -1);
    es, cs := Sends(es, cs, 4, 4, Final(a, b), Next(1), Filled(5, 0), 0);
    assert Next(1)[0] == 1 && Next(1)[2] == 1;
  }

  lemma TakesOver(a: Request, b: Request, x: Request)
    ensures AppendEntries(Deposed(Logged(3, FirstOp(0, x)), 0), Sent4(a, b, 1, 0)) == (Deposed(Final(a, b), 0), Accepts(4))
    ensures AppendEntries(Follows(2, 4, 4, NO_ENTRIES).peer, Sent4(a, b, 1, 0)) == (Follows(2, 4, 4, Final(a, b)).peer, Accepts(4))
    ensures AppendEntries(Deposed(Final(a, b), 0), Sent4(a, b, 3, 2)) == (Deposed(Final(a, b), 2), Accepts(4))
  {
    var log, m := Final(a, b), Sent4(a, b, 1, 0);
    assert Logged(3, FirstOp(0, x))[..1] + m.entries == log;
    assert NO_ENTRIES[..1] + m.entries == log;
    assert log[..3] + Sent4(a, b, 3, 2).entries == log;
  }

  // Both accept, A and B among the rest.
  lemma Accept(a: Request, b: Request, x: Request) returns (es: seq<Event>, cs: seq<Cluster>)
    ensures Tour(5, es, cs, -1, -1)
    ensures var c := cs[|es|];
            && |c.nodes| == 5 && Holds(c.nodes[0], Deposed(Final(a, b), 0), Waits(x))
            && c.nodes[4].peer == Leader4(a, b, Next(1), Filled(5, 0), 0) && AcksUpTo(c, 0, 4, 2)
            && AppendAnswer(0, Sent4(a, b, 1, 0), Accepts(4)) in c.net
            && AppendAnswer(2, Sent4(a, b, 1, 0), Accepts(4)) in c.net
  {
    es, cs := BacksOff(a, b, x);
    TakesOver(a, b, x);
    es, cs := Appends(5, es, cs, 0, Sent4(a, b, 1, 0), -1, -1);
    es, cs := Appends(5, es, cs, 2, Sent4(a, b, 1, 0), -1, -1);
  }

  // Two matches are not enough, three are, for B and with it for A.
  lemma Counting(a: Request, b: Request)
    ensures var q := Leader4(a, b, Next(1)[0 := 3], Filled(5, 0)[0 := 2], 0); CommitTarget(q, 2) == 0 && SearchStays(q, 2)
    ensures var q := Leader4(a, b, Next(3), Known(2), 0); CommitTarget(q, 2) == 2 && SearchStays(q, 2)
  {
    var q := Leader4(a, b, Next(1)[0 := 3], Filled(5, 0)[0 := 2], 0);
    assert Matched(q, 2, 5) == Matched(q, 2, 4) == Matched(q, 2, 3) == Matched(q, 2, 2) == Matched(q, 2, 1) == 1;
    assert !Committable(q, 2) && !Committable(q, 1);
    assert CommitTarget(q, 1) == 0 && SearchStays(q, 1);
    var z := Leader4(a, b, Next(3), Known(2), 0);
    assert Matched(z, 2, 5) == Matched(z, 2, 4) == Matched(z, 2, 3) == Matched(z, 2, 2) + 1 && Matched(z, 2, 2) == Matched(z, 2, 1) == 1;
    assert Committable(z, 2);
  }

  // Server 4 commits both, and tells server 0.
  lemma Commits(a: Request, b: Request, x: Request) returns (es: seq<Event>, cs: seq<Cluster>)
    ensures Tour(5, es, cs, -1, -1)
    ensures var c := cs[|es|];
            && |c.nodes| == 5 && Holds(c.nodes[0], Deposed(Final(a, b), 2), Waits(x))
  {
    es, cs := Accept(a, b, x);
    Counting(a, b);
    es, cs := Hears(5, es, cs, 4, 0, Sent4(a, b, 1, 0), Accepts(4), -1, -1);
    assert Next(1)[0 := 3][2 := 3] == Next(3);
    es, cs := Hears(5, es, cs, 4, 2, Sent4(a, b, 1, 0), Accepts(4), -1, -1);
    es, cs := Sends(es, cs, 4, 4, Final(a, b), Next(3), Known(2), 2);
    assert Next(3)[0] == 3;
    TakesOver(a, b, x);
    es, cs := Appends(5, es, cs, 0, Sent4(a, b, 3, 2), -1, -1);
  }

  // ---------------------------------------------------------------- C is told that A is done

  // Server 0 executes A at index 1.
  lemma Executes(a: Request, b: Request, x: Request) returns (es: seq<Event>, cs: seq<Cluster>)
    ensures Tour(5, es, cs, -1, -1)
    ensures var c := cs[|es|];
            && |c.nodes| == 5 && c.nodes[0].peer.Formed() && c.nodes[0].table == Waits(x) && c.nodes[0].due == AnswerDue(1, OpId(0, 1))
            && Delivery(0, 1, FirstOp(0, a)) in c.delivered
  {
    es, cs := Commits(a, b, x);
    assert Final(a, b)[1..3][0] == Entry(1, FirstOp(0, a));
    es, cs := Takes(5, es, cs, 0, -1, -1);
    es, cs := Feeds(5, es, cs, 0, -1, -1);
  }

  // The call of C hears that the operation with its id is done.
  lemma Told(x: Request)
    ensures var t := Answer(Waits(x), 1, OpId(0, 1));
            && t.calls == [Call(x, OpId(0, 1), 1, 3, Waiting, [Ok])]
            && Finish(Hear(t, 0), 0).calls == [Call(x, OpId(0, 1), 1, 3, Returned(Ok), [Ok])]
  {
    assert [] + [Ok] == [Ok];
  }

  /** An Ok for another operation: an ordered run in which server 0 restarts, its call
      submits x, waits at index 1 and returns Ok, while the operation committed and
      executed at index 1 is a, which it had submitted before under the same id. Any
      a and x are possible, and b is what a later leader commits a with. */
  lemma OkForAnother(a: Request, b: Request, x: Request) returns (es: seq<Event>, cs: seq<Cluster>)
    ensures OrderedRun(5, es, cs)
    ensures var c, id := cs[|es|], OpId(0, 1);
            && |c.nodes| == 5 && c.nodes[0].table.calls == [Call(x, id, 1, 3, Returned(Ok), [Ok])]
            && Delivery(0, 1, Op(a, id)) in c.delivered
            && forall d {:trigger d in c.delivered} :: d in c.delivered && d.index == 1 ==> d.command == Op(a, id)
  {
    es, cs := Executes(a, b, x);
    Told(x);
    es, cs := Acts(5, es, cs, 0, Answering, -1, -1);
    es, cs := Acts(5, es, cs, 0, Hearing(0), -1, -1);
    es, cs := Acts(5, es, cs, 0, Finishing(0), -1, -1);
    TourWalks(5, es, cs, -1, -1);
    var c := cs[|es|];
    forall d | d in c.delivered && d.index == 1
      ensures d.command == FirstOp(0, a)
    {
      StateMachineSafety(5, es, cs, |es|, |es|, d, Delivery(0, 1, FirstOp(0, a)));
    }
  }
}
