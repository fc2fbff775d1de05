/** What holds in every run of the cluster. */
module Theorems {
  import opened Session
  import opened Logs
  import opened Protocol
  import opened Steps
  import opened Peers
  import opened Clusters
  import opened Folds
  import opened Refinement
  import opened RequestRefinement
  import opened ReplyRefinement
  import opened Replicas

  // ----------------------------------------------------------- runs as protocol runs

  lemma StartSimulates(n: nat)
    requires n > 0
    ensures Simulates(Start0(n), Init(n)) && Replicated(Start0(n), Init(n))
  {
    var c, s := Start0(n), Init(n);
    InitHolds(n);
    forall v: nat | v < n
      ensures NodeOk(s, v, c.nodes[v]) && ReplicaOk(s, v, c.nodes[v])
    {
      assert c.nodes[v] == Boot(v, n, EMPTY_DISK);
      assert s.servers[v].log == [SENTINEL];
    }
  }

  // The protocol states behind a run: every one simulates, and history only grows.
  ghost predicate Behind(states: seq<Cluster>, ss: seq<State>) {
    && |ss| == |states|
    && (forall i {:trigger ss[i]} :: 0 <= i < |ss| ==> Simulates(states[i], ss[i]))
    && (forall i, j {:trigger ss[i], ss[j]} :: 0 <= i <= j < |ss| ==> Grows(ss[i], ss[j]))
  }

  // In a run in order, every state is also replicated.
  ghost predicate InOrderBehind(states: seq<Cluster>, ss: seq<State>) {
    && Behind(states, ss)
    && forall i {:trigger ss[i]} :: 0 <= i < |ss| ==> ss[i].ordered && Replicated(states[i], ss[i])
  }

  // Each event adds at most its own command to the leaders' logs.
  ghost predicate Linked(events: seq<Event>, ss: seq<State>) {
    && |ss| == |events| + 1
    && ss[0].reigns == map[0 := Reign(|ss[0].servers|, 0, [SENTINEL], {})]
    && forall i :: LinkedAt(events, ss, i)
  }

  ghost predicate LinkedAt(events: seq<Event>, ss: seq<State>, i: int) {
    0 <= i < |events| && |ss| == |events| + 1 ==> NewEntries(ss[i], ss[i + 1], events[i])
  }

  /** Every run of the cluster is a run of the protocol. */
  lemma RunSimulated(n: nat, events: seq<Event>, states: seq<Cluster>) returns (ss: seq<State>)
    requires n > 0 && Run(n, events, states)
    ensures Behind(states, ss)
    ensures OrderedRun(n, events, states) ==> InOrderBehind(states, ss)
  {
    ss := RunLinked(n, events, states);
  }

  lemma {:induction false} RunLinked(n: nat, events: seq<Event>, states: seq<Cluster>) returns (ss: seq<State>)
    requires n > 0 && Run(n, events, states)
    ensures Behind(states, ss) && Linked(events, ss)
    ensures OrderedRun(n, events, states) ==> InOrderBehind(states, ss)
    decreases |events|
  {
    if |events| == 0 {
      ss := [Init(n)];
      StartSimulates(n);
      GrowsReflexive(Init(n));
    } else {
      var k := |events| - 1;
      ShorterRun(n, events, states);
      var before := RunLinked(n, events[..k], states[..k + 1]);
      ss := OneMoreEvent(n, events, states, before);
    }
  }

  lemma OneMoreEvent(n: nat, events: seq<Event>, states: seq<Cluster>, before: seq<State>) returns (ss: seq<State>)
    requires Run(n, events, states) && |events| > 0
    requires var k := |events| - 1;
             && Behind(states[..k + 1], before) && Linked(events[..k], before)
             && (OrderedRun(n, events, states) ==> Ordered(states[k], events[k]) && InOrderBehind(states[..k + 1], before))
    ensures Behind(states, ss) && Linked(events, ss)
    ensures OrderedRun(n, events, states) ==> InOrderBehind(states, ss)
  {
    var z := LastEvent(n, events, states, before);
    ss := before + [z];
    LongerBehind(states, before, z);
    LongerLinked(events, before, z);
    if OrderedRun(n, events, states) {
      LongerInOrder(states, before, z);
    }
  }

  lemma LastEvent(n: nat, events: seq<Event>, states: seq<Cluster>, before: seq<State>) returns (z: State)
    requires Run(n, events, states) && |events| > 0
    requires var k := |events| - 1;
             Behind(states[..k + 1], before) &&
             (OrderedRun(n, events, states) ==> Ordered(states[k], events[k]) && InOrderBehind(states[..k + 1], before))
    ensures var k := |events| - 1;
            && Simulates(states[k + 1], z) && Grows(before[k], z) && NewEntries(before[k], z, events[k])
            && (OrderedRun(n, events, states) ==> z.ordered && Replicated(states[k + 1], z))
  {
    var k := |events| - 1;
    assert states[k] == states[..k + 1][k] && Simulates(states[k], before[k]);
    z := EventRefines(states[k], before[k], events[k]);
    if OrderedRun(n, events, states) {
      assert before[k].ordered && Replicated(states[k], before[k]);
      EventReplicates(states[k], before[k], events[k], z);
    }
  }

  lemma LongerLinked(events: seq<Event>, before: seq<State>, z: State)
    requires |events| > 0 && Linked(events[..|events| - 1], before)
    requires NewEntries(before[|before| - 1], z, events[|events| - 1])
    ensures Linked(events, before + [z])
  {
    var ss, es := before + [z], events[..|events| - 1];
    forall i
      ensures LinkedAt(events, ss, i)
    {
      assert LinkedAt(es, before, i);
      if 0 <= i < |es| {
        assert es[i] == events[i] && ss[i] == before[i] && ss[i + 1] == before[i + 1];
      }
    }
  }

  lemma ShorterRun(n: nat, events: seq<Event>, states: seq<Cluster>)
    requires Run(n, events, states) && |events| > 0
    ensures var k := |events| - 1;
            Run(n, events[..k], states[..k + 1]) &&
            (OrderedRun(n, events, states) ==> OrderedRun(n, events[..k], states[..k + 1]) && Ordered(states[k], events[k]))
  {
    var k := |events| - 1;
    var es, cs := events[..k], states[..k + 1];
    forall i | 0 <= i < |es|
      ensures Possible(cs[i], es[i]) && Fresh(cs[i], es[i]) && cs[i + 1] == Step(cs[i], es[i])
      ensures OrderedRun(n, events, states) ==> Ordered(cs[i], es[i])
    {
      assert es[i] == events[i] && cs[i] == states[i] && cs[i + 1] == states[i + 1];
    }
  }

  lemma LongerBehind(states: seq<Cluster>, before: seq<State>, z: State)
    requires |states| > 1 && Behind(states[..|states| - 1], before)
    requires Simulates(states[|states| - 1], z) && Grows(before[|before| - 1], z)
    ensures Behind(states, before + [z])
  {
    var ss := before + [z];
    GrowsReflexive(z);
    forall i | 0 <= i < |ss|
      ensures Simulates(states[i], ss[i]) && Grows(ss[i], z)
    {
      if i < |before| {
        assert states[..|states| - 1][i] == states[i];
        assert ss[i] == before[i];
        assert Grows(before[i], before[|before| - 1]);
        GrowsTransitive(before[i], before[|before| - 1], z);
      }
    }
    forall i, j | 0 <= i <= j < |ss|
      ensures Grows(ss[i], ss[j])
    {
      if j < |before| {
        assert Grows(before[i], before[j]);
      }
    }
  }

  lemma LongerInOrder(states: seq<Cluster>, before: seq<State>, z: State)
    requires |states| > 1 && InOrderBehind(states[..|states| - 1], before) && Behind(states, before + [z])
    requires z.ordered && Replicated(states[|states| - 1], z)
    ensures InOrderBehind(states, before + [z])
  {
    var ss := before + [z];
    forall i | 0 <= i < |ss|
      ensures ss[i].ordered && Replicated(states[i], ss[i])
    {
      if i < |before| {
        assert states[..|states| - 1][i] == states[i];
        assert before[i].ordered;
      }
    }
  }

  // ------------------------------------------------------------ election safety

  /** Election Safety: in any run, at any times, one term has one leader. */
  lemma ElectionSafety(n: nat, events: seq<Event>, states: seq<Cluster>, i: nat, j: nat, a: nat, b: nat, t: nat)
    requires n > 0 && Run(n, events, states) && i <= j < |states|
    requires Leads(states[i], a, t) && Leads(states[j], b, t)
    ensures a == b
  {
    var ss := RunSimulated(n, events, states);
    assert Simulates(states[i], ss[i]) && Simulates(states[j], ss[j]) && Grows(ss[i], ss[j]);
    assert NodeOk(ss[i], a, states[i].nodes[a]) && NodeOk(ss[j], b, states[j].nodes[b]);
    OneLeader(ss[i], ss[j], a, b, t);
  }

  lemma OneLeader(x: State, y: State, a: nat, b: nat, t: nat)
    requires Inv(x) && Inv(y) && Grows(x, y) && a < |x.servers| && b < |y.servers|
    requires x.servers[a].role == Leader && x.servers[a].term == t && y.servers[b].role == Leader && y.servers[b].term == t
    ensures a == b
  {
    assert ServerOk(x, a) && ServerOk(y, b);
    assert ReignGrows(x, y, t);
  }

  // --------------------------------------------------------------- log matching

  // The peer still has the entry at index k, or at least its term.
  predicate Retains(p: Peer, k: nat) {
    p.lastIncludedIndex <= k <= p.LastLogIndex()
  }

  // Two windows say the same about index k.
  predicate AgreeAt(p: Peer, q: Peer, k: nat) {
    Retains(p, k) && Retains(q, k) ==>
      && p.At(k).term == q.At(k).term
      && (p.lastIncludedIndex < k && q.lastIncludedIndex < k ==> p.At(k) == q.At(k))
  }

  /** Log Matching across compaction: if two windows, of any servers at any times,
      have the same term at an index, they agree at every index up to it. */
  lemma LogMatchingAcrossCompaction(n: nat, events: seq<Event>, states: seq<Cluster>,
                                    i: nat, j: nat, a: nat, b: nat, k: nat, m: nat)
    requires n > 0 && Run(n, events, states) && i <= j < |states| && a < |states[i].nodes| && b < |states[j].nodes|
    requires m <= k && Retains(states[i].nodes[a].peer, k) && Retains(states[j].nodes[b].peer, k)
    requires states[i].nodes[a].peer.At(k).term == states[j].nodes[b].peer.At(k).term
    ensures AgreeAt(states[i].nodes[a].peer, states[j].nodes[b].peer, m)
  {
    var ss := RunSimulated(n, events, states);
    var x, y := ss[i], ss[j];
    assert Simulates(states[i], x) && Simulates(states[j], y) && Grows(x, y);
    assert NodeOk(x, a, states[i].nodes[a]) && NodeOk(y, b, states[j].nodes[b]);
    assert ServerOk(x, a) && ServerOk(y, b);
    WindowsMatch(x, y, states[i].nodes[a].peer, x.servers[a].log, states[j].nodes[b].peer, y.servers[b].log, k, m);
  }

  lemma WindowsMatch(x: State, y: State, p: Peer, a: seq<Entry>, q: Peer, b: seq<Entry>, k: nat, m: nat)
    requires Grows(x, y) && Inv(y) && LogOk(x, a) && LogOk(y, b)
    requires Window(p.log, p.lastIncludedIndex, a) && Window(q.log, q.lastIncludedIndex, b)
    requires m <= k && Retains(p, k) && Retains(q, k) && p.At(k).term == q.At(k).term
    ensures AgreeAt(p, q, m)
  {
    ThroughGrows(x, y, a, |a| - 1);
    WindowAt(p, a, k);
    WindowAt(q, b, k);
    LogMatching(y, a, b, k);
    WindowAt(p, a, m);
    WindowAt(q, b, m);
  }

  lemma WindowAt(p: Peer, log: seq<Entry>, k: nat)
    requires Window(p.log, p.lastIncludedIndex, log)
    ensures Retains(p, k) ==> k < |log| && p.At(k).term == log[k].term
    ensures Retains(p, k) && p.lastIncludedIndex < k ==> p.At(k) == log[k]
  {
  }

  /** A peer's window is always the rest of one whole log after its snapshot: the head
      carries the snapshot's term, terms never fall, and none is later than the peer's. */
  lemma WindowOfWholeLog(n: nat, events: seq<Event>, states: seq<Cluster>, i: nat, v: nat) returns (whole: seq<Entry>)
    requires n > 0 && Run(n, events, states) && i < |states| && v < |states[i].nodes|
    ensures var p := states[i].nodes[v].peer;
            && Window(p.log, p.lastIncludedIndex, whole) && whole[0] == SENTINEL && Sorted(whole)
            && p.log[0].term == p.lastIncludedTerm && Last(p.log).term <= p.currentTerm
  {
    var ss := RunSimulated(n, events, states);
    var s := ss[i];
    assert Simulates(states[i], s) && NodeOk(s, v, states[i].nodes[v]) && ServerOk(s, v);
    whole := s.servers[v].log;
    GoodLogSorted(s, whole);
    ThroughAny(s, whole, 0);
    HeadIsSentinel(s, whole[0].term);
    var p := states[i].nodes[v].peer;
    WindowTerms(p.log, p.lastIncludedIndex, whole);
  }

  // Every leader's log begins with the sentinel.
  lemma {:induction false} HeadIsSentinel(s: State, t: nat)
    requires Inv(s) && t in s.reigns
    ensures 0 < |LogOf(s, t)| && LogOf(s, t)[0] == SENTINEL
    decreases t
  {
    assert ReignOk(s, t);
    if t > 0 {
      assert Through(s, LogOf(s, t), 0);
      HeadIsSentinel(s, LogOf(s, t)[0].term);
    }
  }

  // -------------------------------------------------------- leader completeness

  /** Leader Completeness: whatever a server knows to be committed, with the term
      on its disk, every leader of a later term has. */
  lemma LeadersAreComplete(n: nat, events: seq<Event>, states: seq<Cluster>, i: nat, j: nat, a: nat, b: nat, m: nat)
    requires n > 0 && OrderedRun(n, events, states) && i < |states| && j < |states|
    requires a < |states[i].nodes| && b < |states[j].nodes| && states[j].nodes[b].peer.role == Leader
    requires states[i].nodes[a].peer.disk.currentTerm < states[j].nodes[b].peer.currentTerm
    requires m <= states[i].nodes[a].peer.commitIndex
    ensures m <= states[j].nodes[b].peer.LastLogIndex()
    ensures AgreeAt(states[i].nodes[a].peer, states[j].nodes[b].peer, m)
  {
    var ss := RunSimulated(n, events, states);
    var x, y, z := ss[i], ss[j], ss[if i < j then j else i];
    assert Simulates(states[i], x) && Simulates(states[j], y) && Simulates(states[if i < j then j else i], z);
    assert Grows(x, z) && Grows(y, z);
    assert NodeOk(x, a, states[i].nodes[a]) && NodeOk(y, b, states[j].nodes[b]);
    CommittedInLeader(x, y, z, a, b);
    WindowAt(states[i].nodes[a].peer, x.servers[a].log, m);
    WindowAt(states[j].nodes[b].peer, y.servers[b].log, m);
  }

  lemma CommittedInLeader(x: State, y: State, z: State, a: nat, b: nat)
    requires Inv(x) && Inv(y) && Inv(z) && Grows(x, z) && Grows(y, z) && z.ordered
    requires a < |x.servers| && b < |y.servers| && y.servers[b].role == Leader && x.servers[a].pterm < y.servers[b].term
    ensures Same(x.servers[a].log, y.servers[b].log, x.servers[a].commit + 1)
  {
    var o, l := x.servers[a], y.servers[b];
    assert ServerOk(x, a) && ServerOk(y, b);
    assert ReignGrows(y, z, l.term) && ReignOk(y, l.term);
    BackedGrows(x, z, o.log, o.commit, o.cterm);
    LeaderCompleteness(z, o.cterm, l.term);
  }

  /** The order in which a leader builds its messages is the order InOrder asks for: a
      message built later in a term reaches at least as far as any already built. */
  lemma BuiltLaterReachesFurther(n: nat, events: seq<Event>, states: seq<Cluster>, i: nat, v: nat, a: AppendArgs, b: AppendArgs, to: nat, to': nat)
    requires n > 0 && Run(n, events, states) && i < |events| && events[i] == Heartbeat(v)
    requires AppendRequest(to, a) in states[i].net && AppendRequest(to', b) in Heartbeats(states[i].nodes[v].peer)
    requires a.term == b.term
    ensures a.leaderId == b.leaderId && Reach(a) <= Reach(b)
  {
    var ss := RunSimulated(n, events, states);
    var c, s := states[i], ss[i];
    assert Simulates(c, s) && NodeOk(s, v, c.nodes[v]) && ServerOk(s, v) && MessageOk(s, AppendRequest(to, a));
    BuiltReach(c.nodes[v].peer, to', b);
  }

  // A leader's message carries everything it has.
  lemma BuiltReach(p: Peer, to: nat, b: AppendArgs)
    requires p.Formed() && p.InRange() && p.role == Leader && AppendRequest(to, b) in Heartbeats(p)
    ensures Reach(b) == p.LastLogIndex() && b.term == p.currentTerm && b.leaderId == p.me
  {
    var k: nat :| k < p.n && k != p.me && AppendRequest(to, b) == Address(k, Build(p, k));
  }

  // ------------------------------------------------------------- index ordering

  /** In every run, in order or not, every peer has a log and a leader its two arrays:
      all that Possible leaves out are panics. */
  lemma AlwaysFormed(n: nat, events: seq<Event>, states: seq<Cluster>, i: nat, v: nat)
    requires n > 0 && Run(n, events, states) && i < |states| && v < |states[i].nodes|
    ensures states[i].nodes[v].peer.Formed()
  {
    var ss := RunSimulated(n, events, states);
    assert Simulates(states[i], ss[i]) && NodeOk(ss[i], v, states[i].nodes[v]);
  }

  /** In runs in order nothing ever panics: the indices are in order, and no event of
      any peer would index outside its log. */
  lemma AlwaysSafe(n: nat, events: seq<Event>, states: seq<Cluster>, i: nat, v: nat)
    requires n > 0 && OrderedRun(n, events, states) && i < |states| && v < |states[i].nodes|
    ensures states[i].nodes[v].peer.Safe()
    ensures forall e: Event {:trigger NoPanic(states[i].nodes[v], e)} ::
              NoPanic(states[i].nodes[v], e) || (e.TakeCommitted? && e.stale != [])
  {
    var ss := RunSimulated(n, events, states);
    var node := states[i].nodes[v];
    assert Simulates(states[i], ss[i]) && NodeOk(ss[i], v, node);
    WithinLog(ss[i], v, node);
    forall e: Event
      ensures NoPanic(node, e) || (e.TakeCommitted? && e.stale != [])
    {
      SafeNeverPanics(node, e);
    }
  }

  lemma SafeNeverPanics(node: Node, e: Event)
    requires node.peer.Safe() && Overreach(node.peer) == 0
    ensures NoPanic(node, e) || (e.TakeCommitted? && e.stale != [])
  {
    var p := node.peer;
    if e.TakeReply? && e.m.AppendAnswer? && e.m.from < p.n && p.role == Leader {
      SearchInside(MatchedUpTo(p, e.m.from, Reach(e.m.append)), p.LastLogIndex());
    }
  }

  lemma {:induction false} SearchInside(p: Peer, i: nat)
    requires p.lastIncludedIndex <= p.commitIndex && i <= p.LastLogIndex()
    ensures SearchStays(p, i)
    decreases i
  {
    if i > p.commitIndex {
      SearchInside(p, i - 1);
    }
  }

  /** In every run a peer's term never goes back, and a vote it has in its term stays, except
      when it restarts. */
  lemma TermNeverBack(n: nat, events: seq<Event>, states: seq<Cluster>, i: nat, v: nat)
    requires Run(n, events, states) && i < |events| && v < |states[i].nodes| && events[i] != Restart(v)
    ensures v < |states[i + 1].nodes|
    ensures KeepsPromise(states[i].nodes[v].peer, states[i + 1].nodes[v].peer)
  {
    assert Possible(states[i], events[i]) && Fresh(states[i], events[i]) && states[i + 1] == Step(states[i], events[i]);
    if events[i].v == v {
      StepKeepsPromise(states[i], events[i]);
    }
  }

  lemma StepKeepsPromise(c: Cluster, e: Event)
    requires Possible(c, e) && Fresh(c, e) && !e.Restart?
    ensures KeepsPromise(c.nodes[e.v].peer, Step(c, e).nodes[e.v].peer)
  {
    match e
    case Receive(v, m) => HandleKeepsPromise(c.nodes[v], v, m);
    case TakeReply(v, m) => TakeKeepsPromise(c.nodes[v], v, m);
    case _ =>
  }

  lemma HandleKeepsPromise(node: Node, v: nat, m: Message)
    requires node.peer.Formed()
    ensures KeepsPromise(node.peer, Handle(node, v, m).0.peer)
  {
  }

  lemma TakeKeepsPromise(node: Node, v: nat, m: Message)
    requires node.peer.Formed() && CanTakeReply(node, v, m) && FreshReply(node.peer, m)
    ensures KeepsPromise(node.peer, Take(node, v, m).peer)
  {
  }

  /** A peer's commit index never goes back, except when it restarts. */
  lemma CommitNeverBack(n: nat, events: seq<Event>, states: seq<Cluster>, i: nat, v: nat)
    requires n > 0 && OrderedRun(n, events, states) && i < |events| && v < |states[i].nodes|
    requires events[i] != Restart(v)
    ensures v < |states[i + 1].nodes|
    ensures states[i].nodes[v].peer.commitIndex <= states[i + 1].nodes[v].peer.commitIndex
  {
    var ss := RunSimulated(n, events, states);
    var c, s, e := states[i], ss[i], events[i];
    assert Simulates(c, s) && Ordered(c, e) && Possible(c, e) && states[i + 1] == Step(c, e);
    if e.v == v {
      StepKeepsCommit(c, s, e);
    }
  }

  lemma StepKeepsCommit(c: Cluster, s: State, e: Event)
    requires Simulates(c, s) && s.ordered && Possible(c, e) && Ordered(c, e) && !e.Restart?
    ensures c.nodes[e.v].peer.commitIndex <= Step(c, e).nodes[e.v].peer.commitIndex
  {
    match e
    case Receive(v, m) =>
      if !m.InstallRequest? {
        ReceiveMoves(c, s, v, m);
      }
    case TakeReply(v, m) => ReplyMoves(c.nodes[v], v, m);
    case _ =>
  }

  // ---------------------------------------------------------------- persistence

  ghost predicate DiskHolds(p: Peer) {
    && p.disk == Disk(p.disk.currentTerm, p.votedFor, p.log, p.lastIncludedIndex, p.lastIncludedTerm, p.snapshot)
    && p.disk.currentTerm <= p.currentTerm
    && (p.disk.currentTerm < p.currentTerm ==> p.role == Follower)
    && (forall k :: 0 <= k < |p.log| ==> p.log[k].term <= p.disk.currentTerm)
  }

  /** In every run what is on disk is what the peer promised: everything but perhaps the
      term, and it voted for nobody in the terms the disk lacks; nor, if the run is in
      order, did it acknowledge anything in them. */
  lemma DiskCoversPromises(n: nat, events: seq<Event>, states: seq<Cluster>, i: nat, v: nat)
    requires n > 0 && Run(n, events, states) && i < |states| && v < |states[i].nodes|
    ensures DiskHolds(states[i].nodes[v].peer)
    ensures forall a, r :: VoteAnswer(v, a, r) in states[i].net && r.voteGranted ==>
              a.term <= states[i].nodes[v].peer.disk.currentTerm
    ensures OrderedRun(n, events, states) ==> forall a, r :: AppendAnswer(v, a, r) in states[i].net && r.success ==>
              a.term <= states[i].nodes[v].peer.disk.currentTerm
  {
    var ss := RunSimulated(n, events, states);
    assert Simulates(states[i], ss[i]);
    DiskOf(states[i], ss[i], v);
    PromisesOf(states[i], ss[i], v);
  }

  lemma DiskOf(c: Cluster, s: State, v: nat)
    requires Simulates(c, s) && v < |c.nodes|
    ensures DiskHolds(c.nodes[v].peer)
  {
    assert NodeOk(s, v, c.nodes[v]) && ServerOk(s, v);
    var p, x := c.nodes[v].peer, s.servers[v];
    WindowTerms(p.log, x.base, x.log);
    GoodLogSorted(s, x.log);
  }

  lemma PromisesOf(c: Cluster, s: State, v: nat)
    requires Simulates(c, s) && v < |c.nodes|
    ensures forall a, r :: VoteAnswer(v, a, r) in c.net && r.voteGranted ==> a.term <= c.nodes[v].peer.disk.currentTerm
    ensures s.ordered ==> forall a, r :: AppendAnswer(v, a, r) in c.net && r.success ==> a.term <= c.nodes[v].peer.disk.currentTerm
  {
    assert NodeOk(s, v, c.nodes[v]);
    forall a, r | VoteAnswer(v, a, r) in c.net && r.voteGranted
      ensures a.term <= c.nodes[v].peer.disk.currentTerm
    {
      assert MessageOk(s, VoteAnswer(v, a, r)) && VoteOk(s, Ballot(v, a.term));
    }
    forall a, r | AppendAnswer(v, a, r) in c.net && r.success && s.ordered
      ensures a.term <= c.nodes[v].peer.disk.currentTerm
    {
      assert MessageOk(s, AppendAnswer(v, a, r)) && AckOk(s, Ballot(v, a.term));
    }
  }

  predicate TermSaved(p: Peer) {
    p.disk.currentTerm == p.currentTerm
  }

  /** The term on disk falls behind in one place only: a stale InstallSnapshot of a new term. */
  lemma DiskLagsOnlyAfterStaleInstall(c: Cluster, e: Event, v: nat)
    requires Possible(c, e) && v < |c.nodes|
    requires TermSaved(c.nodes[v].peer) && !TermSaved(Step(c, e).nodes[v].peer)
    ensures e.Receive? && e.v == v && e.m.InstallRequest?
    ensures e.m.install.term > c.nodes[v].peer.currentTerm
    ensures e.m.install.lastIncludedIndex <= c.nodes[v].peer.lastIncludedIndex
  {
    match e
    case Receive(u, m) => HandlingSavesTerm(c.nodes[u], u, m);
    case TakeReply(u, m) => TakingSavesTerm(c.nodes[u], u, m);
    case _ =>
  }

  lemma HandlingSavesTerm(node: Node, v: nat, m: Message)
    requires node.peer.Formed() && TermSaved(node.peer)
    ensures TermSaved(Handle(node, v, m).0.peer) <==>
            !(m.InstallRequest? && m.install.term > node.peer.currentTerm
              && m.install.lastIncludedIndex <= node.peer.lastIncludedIndex)
  {
  }

  lemma TakingSavesTerm(node: Node, v: nat, m: Message)
    requires node.peer.Formed() && CanTakeReply(node, v, m) && TermSaved(node.peer)
    ensures TermSaved(Take(node, v, m).peer)
  {
  }

  // ------------------------------------------------------- state machine safety

  lemma {:induction false} Longest(s: State, keys: set<nat>) returns (ct: nat)
    requires keys != {} && keys <= s.commits.Keys
    ensures ct in keys && forall k {:trigger s.commits[k]} :: k in keys ==> s.commits[k].index <= s.commits[ct].index
    decreases keys
  {
    ct :| ct in keys;
    if keys != {ct} {
      var other := Longest(s, keys - {ct});
      if s.commits[other].index > s.commits[ct].index {
        ct := other;
      }
    }
  }

  // The longest committed log; every committed log is an initial part of it.
  lemma CommittedLog(s: State) returns (chosen: seq<Entry>, top: nat)
    requires Inv(s) && s.ordered && s.commits != map[]
    ensures top in s.commits && chosen == LogOf(s, top)
    ensures forall ct {:trigger s.commits[ct]} :: ct in s.commits ==>
              Same(LogOf(s, ct), chosen, s.commits[ct].index + 1)
  {
    top := Longest(s, s.commits.Keys);
    chosen := LogOf(s, top);
    forall ct | ct in s.commits
      ensures Same(LogOf(s, ct), chosen, s.commits[ct].index + 1)
    {
      CommitsAgree(s, ct, top, s.commits[ct].index);
    }
  }

  // Node v at some moment, against the log the run commits.
  ghost predicate FollowsChosen(node: Node, chosen: seq<Entry>) {
    var p := node.peer;
    && p.commitIndex < |chosen|
    && (forall k :: p.lastIncludedIndex < k <= p.commitIndex ==> Retains(p, k) && p.At(k) == chosen[k])
    && SnapshotOk(chosen, p.lastIncludedIndex, p.snapshot)
    && node.handled <= p.commitIndex
    && (node.up ==> node.sessions == Fold(chosen, node.handled))
  }

  /** Every replica is a fold: there is one log such that in every state of the run
      every server's committed entries are in it, every running replica has the state
      that its commands up to the last handled index lead to, every snapshot the state
      up to its index, and every command ever put on an apply channel is in it. */
  lemma ReplicasAreFolds(n: nat, events: seq<Event>, states: seq<Cluster>) returns (chosen: seq<Entry>)
    requires n > 0 && OrderedRun(n, events, states)
    ensures forall i, v {:trigger states[i].nodes[v]} :: 0 <= i < |states| && 0 <= v < |states[i].nodes| ==>
              FollowsChosen(states[i].nodes[v], chosen)
    ensures forall i, d {:trigger d in states[i].delivered} :: 0 <= i < |states| && d in states[i].delivered ==>
              d.index < |chosen| && chosen[d.index].command == d.command
  {
    var ss := RunSimulated(n, events, states);
    var top: nat;
    chosen, top := RunFollows(n, events, states, ss);
  }

  lemma RunFollows(n: nat, events: seq<Event>, states: seq<Cluster>, ss: seq<State>) returns (chosen: seq<Entry>, top: nat)
    requires n > 0 && OrderedRun(n, events, states) && InOrderBehind(states, ss)
    ensures top in ss[|ss| - 1].commits && chosen == LogOf(ss[|ss| - 1], top)
    ensures forall i, v {:trigger states[i].nodes[v]} :: 0 <= i < |states| && 0 <= v < |states[i].nodes| ==>
              FollowsChosen(states[i].nodes[v], chosen)
    ensures forall i, d {:trigger d in states[i].delivered} :: 0 <= i < |states| && d in states[i].delivered ==>
              d.index < |chosen| && chosen[d.index].command == d.command
  {
    var z := ss[|ss| - 1];
    assert Simulates(states[|ss| - 1], z) && z.ordered;
    assert NodeOk(ss[0], 0, states[0].nodes[0]) && ServerOk(z, 0);
    chosen, top := CommittedLog(z);
    forall i, v | 0 <= i < |states| && 0 <= v < |states[i].nodes|
      ensures FollowsChosen(states[i].nodes[v], chosen)
    {
      assert Simulates(states[i], ss[i]) && Replicated(states[i], ss[i]) && Grows(ss[i], z);
      assert NodeOk(ss[i], v, states[i].nodes[v]) && ReplicaOk(ss[i], v, states[i].nodes[v]);
      NodeFollows(ss[i], z, v, states[i].nodes[v], chosen);
    }
    forall i, d | 0 <= i < |states| && d in states[i].delivered
      ensures d.index < |chosen| && chosen[d.index].command == d.command
    {
      assert Replicated(states[i], ss[i]) && Grows(ss[i], z) && DeliveryOk(ss[i], d);
      DeliveryChosen(ss[i], z, d, chosen);
    }
  }

  lemma DeliveryChosen(s: State, z: State, d: Delivery, chosen: seq<Entry>)
    requires Grows(s, z) && DeliveryOk(s, d)
    requires forall ct {:trigger z.commits[ct]} :: ct in z.commits ==> Same(LogOf(z, ct), chosen, z.commits[ct].index + 1)
    ensures d.index < |chosen| && chosen[d.index].command == d.command
  {
    DeliveryGrows(s, z, d);
    var ct: nat :| Chosen(z, ct, d.index, d.command);
    assert Same(LogOf(z, ct), chosen, z.commits[ct].index + 1);
  }

  lemma NodeFollows(s: State, z: State, v: nat, node: Node, chosen: seq<Entry>)
    requires Inv(s) && s.ordered && Grows(s, z) && NodeOk(s, v, node) && ReplicaOk(s, v, node)
    requires forall ct {:trigger z.commits[ct]} :: ct in z.commits ==> Same(LogOf(z, ct), chosen, z.commits[ct].index + 1)
    ensures FollowsChosen(node, chosen)
  {
    var x, p := s.servers[v], node.peer;
    assert ServerOk(s, v);
    BackedGrows(s, z, x.log, x.commit, x.cterm);
    assert Same(LogOf(z, x.cterm), chosen, z.commits[x.cterm].index + 1);
    assert Same(x.log, chosen, x.commit + 1);
    FoldSame(x.log, chosen, x.base);
    FoldSame(x.log, chosen, node.handled);
    forall k: nat
      ensures Retains(p, k) && p.lastIncludedIndex < k ==> p.At(k) == x.log[k]
    {
      WindowAt(p, x.log, k);
    }
  }

  /** State Machine Safety: no two command messages for one index, on any apply
      channels at any times, carry different commands. */
  lemma StateMachineSafety(n: nat, events: seq<Event>, states: seq<Cluster>, i: nat, j: nat, d: Delivery, e: Delivery)
    requires n > 0 && OrderedRun(n, events, states) && i < |states| && j < |states|
    requires d in states[i].delivered && e in states[j].delivered && d.index == e.index
    ensures d.command == e.command
  {
    var chosen := ReplicasAreFolds(n, events, states);
  }

  /** The apply stream of an incarnation is gapless, and ends at the last handled index. */
  lemma StreamsAreGapless(n: nat, events: seq<Event>, states: seq<Cluster>, i: nat, v: nat)
    requires n > 0 && OrderedRun(n, events, states) && i < |states| && v < |states[i].nodes|
    ensures var node := states[i].nodes[v];
            0 < |node.stream| && Gapless(node.stream) && node.stream[|node.stream| - 1].index == node.handled
  {
    var ss := RunSimulated(n, events, states);
    assert Simulates(states[i], ss[i]) && Replicated(states[i], ss[i]);
    assert ReplicaOk(ss[i], v, states[i].nodes[v]);
  }
}
