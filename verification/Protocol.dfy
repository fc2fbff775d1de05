/** The Raft protocol over absolute logs, without messages.

  A state holds one record per server and the history the safety argument needs:
  the log every term's leader built, the votes ever cast, how far every server
  has acknowledged every term's leader, and what every term's leader committed.
  The step functions below are what the critical sections of the implementation
  amount to; Refinement.dfy shows that they do.
*/
module Protocol {
  import opened Logs
  import opened Quorums

  datatype Role = Follower | Candidate | Leader

  // term and voted are currentTerm and votedFor; pterm is the term on disk.
  // log is the whole log from index 0, base the index of the last compacted
  // entry, commit the commit index. cterm is history: a term whose leader
  // committed log[..commit + 1].
  datatype Server = Server(term: nat, pterm: nat, voted: int, role: Role,
                           log: seq<Entry>, base: nat, commit: nat, cterm: nat)

  // log[..start] is what the leader was elected with, the rest it appended itself.
  datatype Reign = Reign(leader: nat, start: nat, log: seq<Entry>, voters: set<nat>)

  datatype Ballot = Ballot(who: nat, term: nat)

  // A vote for cand, and the log the voter had when it voted.
  datatype Vote = Vote(cand: nat, log: seq<Entry>)

  datatype Commit = Commit(index: nat, quorum: set<nat>)

  // ordered: no follower has yet taken over less of a leader's log than it had
  // acknowledged to that leader. Everything about acknowledgements and commits
  // depends on it; elections and Log Matching do not.
  datatype State = State(servers: seq<Server>, reigns: map<nat, Reign>, votes: map<Ballot, Vote>,
                         acks: map<Ballot, nat>, commits: map<nat, Commit>, ordered: bool)

  function LogOf(s: State, t: nat): seq<Entry> {
    if t in s.reigns then s.reigns[t].log else []
  }

  function StartOf(s: State, t: nat): nat {
    if t in s.reigns then s.reigns[t].start else 0
  }

  function AckOf(s: State, v: nat, t: nat): int {
    if Ballot(v, t) in s.acks then s.acks[Ballot(v, t)] else -1
  }

  // ---------------------------------------------------------------- invariant

  // The leader of term w was elected with the first i + 1 entries of term u's log.
  ghost predicate Inherits(s: State, u: nat, i: nat, w: nat) {
    i < StartOf(s, w) && Same(LogOf(s, u), LogOf(s, w), i + 1)
  }

  ghost predicate Lost(s: State, u: nat, i: nat, bound: nat) {
    exists w: nat {:trigger Inherits(s, u, i, w)} :: w in s.reigns && u < w < bound && !Inherits(s, u, i, w)
  }

  // log still has the first i + 1 entries of term u's log, unless some leader
  // of a term between u and bound was elected without them.
  ghost predicate Recalls(s: State, u: nat, i: nat, log: seq<Entry>, bound: nat) {
    Same(LogOf(s, u), log, i + 1) || Lost(s, u, i, bound)
  }

  // Server x still has the first i + 1 entries of term u's log, as far as the
  // terms it has reached on disk go.
  ghost predicate Holds(s: State, u: nat, i: nat, x: Server) {
    Recalls(s, u, i, x.log, x.pterm + 1)
  }

  // log, cut after k, is an initial part of the log of the leader that wrote log[k].
  ghost predicate Through(s: State, log: seq<Entry>, k: int) {
    && 0 <= k < |log|
    && log[k].term in s.reigns
    && Same(log, LogOf(s, log[k].term), k + 1)
  }

  ghost predicate LogOk(s: State, log: seq<Entry>) {
    Through(s, log, |log| - 1)
  }

  ghost predicate ReignOk(s: State, t: nat) {
    t in s.reigns ==>
      var r := s.reigns[t];
      && 0 < |r.log| && r.start <= |r.log|
      && (forall k :: 0 <= k < |r.log| ==> if k < r.start then r.log[k].term < t else r.log[k].term == t)
      && (forall k {:trigger Through(s, r.log, k)} :: 0 <= k < |r.log| ==> Through(s, r.log, k))
      && Sorted(r.log)
      && (t == 0 ==> r.log == [SENTINEL] && r.start == 0 && r.leader == |s.servers|)
      && (t > 0 ==> 0 < r.start && ElectedOk(s, t, r))
  }

  ghost predicate ElectedOk(s: State, t: nat, r: Reign) {
    && r.leader in r.voters && Quorum(|s.servers|, r.voters)
    && (forall v: nat {:trigger Ballot(v, t)} :: v in r.voters ==>
          Ballot(v, t) in s.votes && s.votes[Ballot(v, t)].cand == r.leader)
    && |s.votes[Ballot(r.leader, t)].log| == r.start
    && Same(s.votes[Ballot(r.leader, t)].log, r.log, r.start)
  }

  ghost predicate VoteOk(s: State, b: Ballot) {
    b in s.votes ==>
      var x := s.votes[b];
      && b.who < |s.servers| && x.cand < |s.servers|
      && 0 < b.term <= s.servers[b.who].pterm
      && (b.term == s.servers[b.who].pterm ==> s.servers[b.who].voted == x.cand)
      && LogOk(s, x.log)
      && Ballot(x.cand, b.term) in s.votes
      && s.votes[Ballot(x.cand, b.term)].cand == x.cand
      && |s.votes[Ballot(x.cand, b.term)].log| > 0
      && UpToDate(x.log, s.votes[Ballot(x.cand, b.term)].log)
      && (x.cand == b.who ==> Last(x.log).term < b.term)
  }

  // What the voter acknowledged before voting was in its log when it voted.
  ghost predicate VoteRecalls(s: State, b: Ballot) {
    s.ordered && b in s.votes && (b.term in s.reigns ==> b.who in s.reigns[b.term].voters) ==>
      forall u: nat, i: nat {:trigger Recalls(s, u, i, s.votes[b].log, b.term)} ::
        u < b.term && i <= AckOf(s, b.who, u) ==> Recalls(s, u, i, s.votes[b].log, b.term)
  }

  ghost predicate AckOk(s: State, b: Ballot) {
    s.ordered && b in s.acks ==>
      && b.who < |s.servers|
      && b.term in s.reigns
      && b.term <= s.servers[b.who].pterm
      && s.acks[b] < |LogOf(s, b.term)|
      && (forall i: nat {:trigger Holds(s, b.term, i, s.servers[b.who])} ::
            i <= s.acks[b] ==> Holds(s, b.term, i, s.servers[b.who]))
  }

  ghost predicate CommitOk(s: State, t: nat) {
    s.ordered && t in s.commits ==>
      && t in s.reigns
      && s.commits[t].index < |LogOf(s, t)|
      && LogOf(s, t)[s.commits[t].index].term == t
      && Quorum(|s.servers|, s.commits[t].quorum)
      && (forall v: nat {:trigger Ballot(v, t)} :: v in s.commits[t].quorum ==> AckOf(s, v, t) >= s.commits[t].index)
  }

  // The first k + 1 entries of log were committed by the leader of term t.
  ghost predicate Backed(s: State, log: seq<Entry>, k: nat, t: nat) {
    t in s.commits && k <= s.commits[t].index && Same(log, LogOf(s, t), k + 1)
  }

  ghost predicate ServerOk(s: State, v: nat) {
    v < |s.servers| ==>
      var x := s.servers[v];
      && x.pterm <= x.term
      && LogOk(s, x.log)
      && Last(x.log).term <= x.pterm
      && RoleOk(s, v, x)
      && x.base < |x.log|
      && (s.ordered ==> IndicesOk(s, v, x))
  }

  ghost predicate IndicesOk(s: State, v: nat, x: Server) {
    && x.base <= x.commit
    && x.cterm <= x.pterm
    && Backed(s, x.log, x.commit, x.cterm)
    && (x.cterm < x.pterm || x.commit <= x.base || x.commit <= AckOf(s, v, x.cterm))
  }

  ghost predicate RoleOk(s: State, v: nat, x: Server) {
    && (x.role != Follower ==>
          && x.pterm == x.term && x.term > 0
          && Ballot(v, x.term) in s.votes && s.votes[Ballot(v, x.term)].cand == v)
    && (x.role == Candidate ==>
          && s.votes[Ballot(v, x.term)].log == x.log
          && (x.term in s.reigns ==> s.reigns[x.term].leader != v))
    && (x.role == Leader ==>
          && x.term in s.reigns && s.reigns[x.term].leader == v && s.reigns[x.term].log == x.log
          && AckOf(s, v, x.term) == |x.log| - 1)
  }

  ghost predicate Inv(s: State) {
    && 0 in s.reigns
    && (forall v: nat {:trigger ServerOk(s, v)} :: ServerOk(s, v))
    && (forall t: nat {:trigger ReignOk(s, t)} :: ReignOk(s, t))
    && (forall b {:trigger VoteOk(s, b)} :: VoteOk(s, b))
    && (forall b {:trigger VoteRecalls(s, b)} :: VoteRecalls(s, b))
    && (forall b {:trigger AckOk(s, b)} :: AckOk(s, b))
    && (forall t: nat {:trigger CommitOk(s, t)} :: CommitOk(s, t))
  }

  // ------------------------------------------------- consequences in one state

  // Any entry of a good log fixes everything before it.
  lemma ThroughAny(s: State, log: seq<Entry>, k: nat)
    requires Inv(s) && LogOk(s, log) && k < |log|
    ensures Through(s, log, k)
  {
    var t := Last(log).term;
    assert ReignOk(s, t);
    assert Through(s, LogOf(s, t), k);
  }

  /** Log Matching: two logs with the same term at one index agree up to that index. */
  lemma LogMatching(s: State, a: seq<Entry>, b: seq<Entry>, k: nat)
    requires Inv(s) && LogOk(s, a) && LogOk(s, b)
    requires k < |a| && k < |b| && a[k].term == b[k].term
    ensures Same(a, b, k + 1)
  {
    ThroughAny(s, a, k);
    ThroughAny(s, b, k);
  }

  lemma GoodLogSorted(s: State, log: seq<Entry>)
    requires Inv(s) && LogOk(s, log)
    ensures Sorted(log)
  {
    assert ReignOk(s, Last(log).term);
  }

  /** Leader Completeness: what the leader of term u committed, every leader of a
      later term was elected with. */
  lemma {:induction false} LeaderCompleteness(s: State, u: nat, t: nat)
    requires Inv(s) && s.ordered && u in s.commits && t in s.reigns && u < t
    ensures Inherits(s, u, s.commits[u].index, t)
    decreases t
  {
    var i := s.commits[u].index;
    var r := s.reigns[t];
    assert ReignOk(s, t) && CommitOk(s, u);
    var v := QuorumsMeet(|s.servers|, r.voters, s.commits[u].quorum);
    var b := Ballot(v, t);
    assert VoteOk(s, b) && VoteRecalls(s, b);
    var voterLog, leaderLog := s.votes[b].log, s.votes[Ballot(r.leader, t)].log;
    assert Recalls(s, u, i, voterLog, t);
    if Lost(s, u, i, t) {
      var w: nat :| w in s.reigns && u < w < t && !Inherits(s, u, i, w);
      LeaderCompleteness(s, u, w);
      assert false;
    }
    GoodLogSorted(s, voterLog);
    var x := Last(leaderLog).term;
    assert VoteOk(s, Ballot(r.leader, t));
    assert ReignOk(s, x);
    if x != Last(voterLog).term {
      LeaderCompleteness(s, u, x);
    }
  }

  // Two committed entries at one index are the same entry.
  lemma CommitsAgree(s: State, a: nat, b: nat, k: nat)
    requires Inv(s) && s.ordered && a in s.commits && b in s.commits
    requires k <= s.commits[a].index && k <= s.commits[b].index
    ensures Same(LogOf(s, a), LogOf(s, b), k + 1)
  {
    assert CommitOk(s, a) && CommitOk(s, b);
    if a < b {
      LeaderCompleteness(s, a, b);
    } else if b < a {
      LeaderCompleteness(s, b, a);
    }
  }
}
