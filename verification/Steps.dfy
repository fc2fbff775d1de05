/** The steps of the protocol, and that each of them keeps the invariant.

  Settle, Cast, Win, Extend, Replicate, Install, CommitAt and Learn are what the
  critical sections of the implementation amount to. History only ever grows (Grows),
  and what a step does not touch stays true as it grows (the lemmas ending in Kept and
  those beginning with Other or Old); so for each step it remains to show the few
  clauses of the invariant about the server and the term it does touch. Those are the
  lemmas before each lemma ending in Keeps. Replicate also covers a follower that acts
  out of order: the state is then no longer ordered, and Election Safety and Log
  Matching are what is left.
*/
module Steps {
  import opened Logs
  import opened Quorums
  import opened Protocol

  // ------------------------------------------------------------------- growth

  // History only grows: leaders' logs, votes, acknowledgements, commits and terms on disk.
  ghost predicate Grows(s: State, z: State) {
    && |s.servers| == |z.servers|
    && (forall v: nat {:trigger s.servers[v]} {:trigger z.servers[v]} :: v < |s.servers| ==> s.servers[v].pterm <= z.servers[v].pterm)
    && (forall t: nat {:trigger t in s.reigns} :: t in s.reigns ==> ReignGrows(s, z, t))
    && (forall b {:trigger b in s.votes} :: b in s.votes ==> b in z.votes && z.votes[b] == s.votes[b])
    && (z.ordered ==> s.ordered)
    && (forall b {:trigger b in s.acks} :: b in s.acks ==> b in z.acks && (z.ordered ==> s.acks[b] <= z.acks[b]))
    && (forall t: nat {:trigger t in s.commits} :: t in s.commits ==> t in z.commits && s.commits[t].index <= z.commits[t].index)
  }

  ghost predicate ReignGrows(s: State, z: State, t: nat)
    requires t in s.reigns
  {
    && t in z.reigns
    && z.reigns[t].leader == s.reigns[t].leader
    && z.reigns[t].start == s.reigns[t].start
    && z.reigns[t].voters == s.reigns[t].voters
    && Same(s.reigns[t].log, z.reigns[t].log, |s.reigns[t].log|)
  }

  lemma GrowsTransitive(a: State, b: State, c: State)
    requires Grows(a, b) && Grows(b, c)
    ensures Grows(a, c)
  {
    forall t: nat | t in a.reigns
      ensures ReignGrows(a, c, t)
    {
      assert ReignGrows(a, b, t) && ReignGrows(b, c, t);
    }
  }

  // A true claim about what a log recalls stays true as history grows.
  lemma RecallsGrows(s: State, z: State, u: nat, i: nat, log: seq<Entry>, bound: nat, later: nat)
    requires Grows(s, z) && Recalls(s, u, i, log, bound) && bound <= later
    requires i < |LogOf(s, u)| && (forall t: nat {:trigger ReignOk(s, t)} :: ReignOk(s, t))
    ensures Recalls(z, u, i, log, later)
  {
    assert ReignGrows(s, z, u);
    if !Same(LogOf(s, u), log, i + 1) {
      var w: nat :| w in s.reigns && u < w < bound && !Inherits(s, u, i, w);
      assert ReignGrows(s, z, w) && ReignOk(s, w);
      assert !Inherits(z, u, i, w);
    }
  }

  lemma ThroughGrows(s: State, z: State, log: seq<Entry>, k: int)
    requires Grows(s, z) && Through(s, log, k)
    ensures Through(z, log, k)
  {
    assert ReignGrows(s, z, log[k].term);
  }

  lemma BackedGrows(s: State, z: State, log: seq<Entry>, k: nat, t: nat)
    requires Grows(s, z)
    ensures Backed(s, log, k, t) ==> Backed(z, log, k, t)
  {
    if Backed(s, log, k, t) {
      assert t in s.reigns && ReignGrows(s, z, t);
    }
  }

  // ------------------------------------------- what a step leaves untouched

  lemma ReignKept(s: State, z: State, t: nat)
    requires Grows(s, z) && ReignOk(s, t)
    requires t in s.reigns && z.reigns[t] == s.reigns[t]
    ensures ReignOk(z, t)
  {
    var r := s.reigns[t];
    forall k | 0 <= k < |r.log|
      ensures Through(z, r.log, k)
    {
      assert Through(s, r.log, k);
      ThroughGrows(s, z, r.log, k);
    }
    if t > 0 {
      assert ElectedOk(s, t, r);
      assert Ballot(r.leader, t) in s.votes;
    }
  }

  lemma VoteKept(s: State, z: State, b: Ballot)
    requires Grows(s, z) && VoteOk(s, b) && b in s.votes
    requires z.servers[b.who].pterm == s.servers[b.who].pterm ==> (s.servers[b.who].voted == -1 || s.servers[b.who].voted == z.servers[b.who].voted)
    ensures VoteOk(z, b)
  {
    var x := s.votes[b];
    assert z.votes[b] == x;
    assert Ballot(x.cand, b.term) in z.votes;
    ThroughGrows(s, z, x.log, |x.log| - 1);
  }

  lemma VoteRecallsKept(s: State, z: State, b: Ballot)
    requires Inv(s) && Grows(s, z) && b in s.votes
    requires forall u: nat {:trigger AckOf(z, b.who, u)} :: u < b.term ==> AckOf(z, b.who, u) == AckOf(s, b.who, u)
    ensures VoteRecalls(z, b)
  {
    assert VoteRecalls(s, b) && z.votes[b] == s.votes[b];
    if z.ordered && (b.term in z.reigns ==> b.who in z.reigns[b.term].voters) {
      if b.term in s.reigns {
        assert ReignGrows(s, z, b.term);
      }
      forall u: nat, i: nat | u < b.term && i <= AckOf(z, b.who, u)
        ensures Recalls(z, u, i, z.votes[b].log, b.term)
      {
        assert Recalls(s, u, i, s.votes[b].log, b.term);
        assert AckOk(s, Ballot(b.who, u));
        RecallsGrows(s, z, u, i, s.votes[b].log, b.term, b.term);
      }
    }
  }

  lemma AckKept(s: State, z: State, b: Ballot)
    requires Inv(s) && Grows(s, z) && b in s.acks && b in z.acks && z.acks[b] == s.acks[b]
    requires b.who < |s.servers| ==> Same(s.servers[b.who].log, z.servers[b.who].log, |s.servers[b.who].log|)
    ensures AckOk(z, b)
  {
    assert AckOk(s, b);
    if z.ordered {
      assert ReignGrows(s, z, b.term);
      var x, y := s.servers[b.who], z.servers[b.who];
      forall i: nat
        ensures i <= z.acks[b] ==> Holds(z, b.term, i, y)
      {
        if i <= z.acks[b] {
          assert Holds(s, b.term, i, x);
          RecallsGrows(s, z, b.term, i, x.log, x.pterm + 1, y.pterm + 1);
        }
      }
    }
  }

  lemma CommitKept(s: State, z: State, t: nat)
    requires Grows(s, z) && CommitOk(s, t) && t in s.commits && z.commits[t] == s.commits[t]
    ensures CommitOk(z, t)
  {
    if z.ordered {
      assert ReignGrows(s, z, t);
      forall v | v in s.commits[t].quorum
        ensures AckOf(z, v, t) >= s.commits[t].index
      {
        assert Ballot(v, t) in s.acks;
      }
    }
  }

  lemma ServerKept(s: State, z: State, v: nat)
    requires Inv(s) && Grows(s, z) && v < |s.servers| && z.servers[v] == s.servers[v]
    requires forall t: nat {:trigger AckOf(z, v, t)} :: AckOf(z, v, t) == AckOf(s, v, t)
    requires forall t :: t in z.reigns && (t in s.reigns ==> z.reigns[t] != s.reigns[t]) ==> z.reigns[t].leader != v
    ensures ServerOk(z, v)
  {
    var x := s.servers[v];
    assert ServerOk(s, v) && CommitOk(s, x.cterm);
    ThroughGrows(s, z, x.log, |x.log| - 1);
    BackedGrows(s, z, x.log, x.commit, x.cterm);
    assert Ballot(v, x.term) in s.votes ==> z.votes[Ballot(v, x.term)] == s.votes[Ballot(v, x.term)];
  }

  lemma TermKept(s: State, z: State, t: nat)
    requires Inv(s) && Grows(s, z)
    requires if t in s.reigns then z.reigns[t] == s.reigns[t] else t !in z.reigns
    requires if t in s.commits then z.commits[t] == s.commits[t] else t !in z.commits
    ensures ReignOk(z, t) && CommitOk(z, t)
  {
    assert ReignOk(s, t) && CommitOk(s, t);
    if t in s.reigns {
      ReignKept(s, z, t);
    }
    if t in s.commits {
      CommitKept(s, z, t);
    }
  }

  // z differs from s only in server v, in what v voted and acknowledged, and in
  // the reign and the commit of term t, whose leader is v if its reign changed.
  ghost predicate OnlyAt(s: State, z: State, v: nat, t: nat) {
    && |z.servers| == |s.servers|
    && (forall u: nat {:trigger s.servers[u]} {:trigger z.servers[u]} :: u < |s.servers| && u != v ==> z.servers[u] == s.servers[u])
    && (forall r: nat {:trigger r in z.reigns} :: r in z.reigns && r != t ==> r in s.reigns && z.reigns[r] == s.reigns[r])
    && (t in z.reigns && (t in s.reigns ==> z.reigns[t] != s.reigns[t]) ==> z.reigns[t].leader == v)
    && (forall b {:trigger b in z.votes} :: b in z.votes && b.who != v ==> b in s.votes)
    && (forall b {:trigger b in z.acks} :: b in z.acks && b.who != v ==> b in s.acks && z.acks[b] == s.acks[b])
    && (forall r: nat {:trigger r in z.commits} :: r in z.commits && r != t ==> r in s.commits && z.commits[r] == s.commits[r])
  }

  // Server v, its votes and acknowledgements, and term t are as the invariant wants them.
  ghost predicate GoodAt(z: State, v: nat, t: nat) {
    && ServerOk(z, v)
    && ReignOk(z, t)
    && CommitOk(z, t)
    && (forall r: nat {:trigger VoteOk(z, Ballot(v, r))} :: VoteOk(z, Ballot(v, r)))
    && (forall r: nat {:trigger VoteRecalls(z, Ballot(v, r))} :: VoteRecalls(z, Ballot(v, r)))
    && (forall r: nat {:trigger AckOk(z, Ballot(v, r))} :: AckOk(z, Ballot(v, r)))
  }

  lemma OtherServers(s: State, z: State, v: nat, t: nat, u: nat)
    requires Inv(s) && Grows(s, z) && OnlyAt(s, z, v, t) && u != v
    ensures ServerOk(z, u)
  {
    if u < |s.servers| {
      forall r: nat
        ensures AckOf(z, u, r) == AckOf(s, u, r)
      {
        assert Ballot(u, r) in z.acks <==> Ballot(u, r) in s.acks;
      }
      ServerKept(s, z, u);
    }
  }

  lemma OtherBallots(s: State, z: State, v: nat, t: nat, b: Ballot)
    requires Inv(s) && Grows(s, z) && OnlyAt(s, z, v, t) && b.who != v
    ensures VoteOk(z, b) && VoteRecalls(z, b) && AckOk(z, b)
  {
    if b in z.votes {
      assert VoteOk(s, b);
      VoteKept(s, z, b);
      forall u: nat | u < b.term
        ensures AckOf(z, b.who, u) == AckOf(s, b.who, u)
      {
        assert Ballot(b.who, u) in z.acks <==> Ballot(b.who, u) in s.acks;
      }
      VoteRecallsKept(s, z, b);
    }
    if b in z.acks {
      assert AckOk(s, b);
      AckKept(s, z, b);
    }
  }

  lemma OtherTerms(s: State, z: State, v: nat, t: nat, r: nat)
    requires Inv(s) && Grows(s, z) && OnlyAt(s, z, v, t) && r != t
    ensures ReignOk(z, r) && CommitOk(z, r)
  {
    assert r in s.reigns ==> ReignGrows(s, z, r);
    TermKept(s, z, r);
  }

  lemma InvFromGood(s: State, z: State, v: nat, t: nat)
    requires Inv(s) && Grows(s, z) && OnlyAt(s, z, v, t) && GoodAt(z, v, t)
    ensures Inv(z)
  {
    forall u: nat
      ensures ServerOk(z, u)
    {
      if u != v {
        OtherServers(s, z, v, t, u);
      }
    }
    forall r: nat
      ensures ReignOk(z, r) && CommitOk(z, r)
    {
      if r != t {
        OtherTerms(s, z, v, t, r);
      }
    }
    forall b: Ballot
      ensures VoteOk(z, b) && VoteRecalls(z, b) && AckOk(z, b)
    {
      if b.who != v {
        OtherBallots(s, z, v, t, b);
      } else {
        assert b == Ballot(v, b.term);
      }
    }
    assert 0 in s.reigns && ReignGrows(s, z, 0);
  }

  // Old votes of v stay good when its disk moves on without forgetting its vote.
  lemma OldVotes(s: State, z: State, v: nat)
    requires Inv(s) && Grows(s, z) && v < |s.servers|
    requires z.servers[v].pterm == s.servers[v].pterm ==> (s.servers[v].voted == -1 || s.servers[v].voted == z.servers[v].voted)
    requires forall u: nat {:trigger AckOf(z, v, u)} :: u < s.servers[v].pterm ==> AckOf(z, v, u) == AckOf(s, v, u)
    ensures forall r: nat {:trigger Ballot(v, r)} :: Ballot(v, r) in s.votes ==> VoteOk(z, Ballot(v, r)) && VoteRecalls(z, Ballot(v, r))
  {
    forall r: nat | Ballot(v, r) in s.votes
      ensures VoteOk(z, Ballot(v, r)) && VoteRecalls(z, Ballot(v, r))
    {
      assert VoteOk(s, Ballot(v, r));
      VoteKept(s, z, Ballot(v, r));
      VoteRecallsKept(s, z, Ballot(v, r));
    }
  }

  // Old acknowledgements of v stay good while its log does.
  lemma OldAcks(s: State, z: State, v: nat)
    requires Inv(s) && Grows(s, z) && v < |s.servers|
    requires Same(s.servers[v].log, z.servers[v].log, |s.servers[v].log|)
    ensures forall r: nat {:trigger Ballot(v, r)} :: AckOf(z, v, r) == AckOf(s, v, r) ==> AckOk(z, Ballot(v, r))
  {
    forall r: nat | AckOf(z, v, r) == AckOf(s, v, r)
      ensures AckOk(z, Ballot(v, r))
    {
      if Ballot(v, r) in z.acks {
        assert AckOk(s, Ballot(v, r));
        AckKept(s, z, Ballot(v, r));
      }
    }
  }

  // ---------------------------------------------------------------- the steps

  function Init(n: nat): State {
    State(seq(n, v => Server(0, 0, -1, Follower, [SENTINEL], 0, 0, 0)),
          map[0 := Reign(n, 0, [SENTINEL], {})],
          map[],
          map v | v in Everyone(n) :: Ballot(v, 0) := 0,
          map[0 := Commit(0, Everyone(n))], true)
  }

  lemma InitHolds(n: nat)
    requires n > 0
    ensures Inv(Init(n))
  {
  }

  // A server changes its bookkeeping only: it may reach a later term, write it to
  // disk, forget its vote in older terms, step down, compact its log up to an
  // entry it committed, or fall back to that entry on a restart.
  ghost predicate CanSettle(s: State, v: nat, x: Server) {
    && v < |s.servers|
    && var o := s.servers[v];
       && x.log == o.log && x.cterm == o.cterm
       && o.pterm <= x.pterm <= x.term
       && (x.pterm == o.pterm ==> x.voted == o.voted)
       && (x.role == Follower || (x.role == o.role && x.term == o.term))
       && o.base <= x.base < |o.log|
       && (s.ordered ==> x.base <= x.commit <= o.commit)
  }

  function Settle(s: State, v: nat, x: Server): State
    requires v < |s.servers|
  {
    s.(servers := s.servers[v := x])
  }

  lemma SettledServer(s: State, v: nat, x: Server)
    requires Inv(s) && CanSettle(s, v, x) && Grows(s, Settle(s, v, x))
    ensures ServerOk(Settle(s, v, x), v)
  {
    var z := Settle(s, v, x);
    assert ServerOk(s, v);
    assert CommitOk(s, x.cterm);
    ThroughGrows(s, z, x.log, |x.log| - 1);
    BackedGrows(s, z, x.log, x.commit, x.cterm);
  }

  lemma SettleKeeps(s: State, v: nat, x: Server)
    requires Inv(s) && CanSettle(s, v, x)
    ensures Inv(Settle(s, v, x)) && Grows(s, Settle(s, v, x))
  {
    var z := Settle(s, v, x);
    OldVotes(s, z, v);
    OldAcks(s, z, v);
    SettledServer(s, v, x);
    TermKept(s, z, 0);
    InvFromGood(s, z, v, 0);
  }

  // Server v votes for c in term t, on disk: a candidate for itself in a new
  // term, or any server that has not voted for another candidate in its term
  // for a candidate whose log is up to date.
  ghost predicate CanCast(s: State, v: nat, c: nat, t: nat) {
    && v < |s.servers| && c < |s.servers|
    && var o := s.servers[v];
       || (c == v && t == o.term + 1 && o.role != Leader)
       || (&& t == o.term && t > 0 && (o.voted == -1 || o.voted == c)
           && Ballot(c, t) in s.votes && s.votes[Ballot(c, t)].cand == c
           && |s.votes[Ballot(c, t)].log| > 0 && |o.log| > 0
           && UpToDate(o.log, s.votes[Ballot(c, t)].log))
  }

  function Cast(s: State, v: nat, c: nat, t: nat): State
    requires v < |s.servers|
  {
    var o := s.servers[v];
    s.(servers := s.servers[v := o.(term := t, pterm := t, voted := c,
                                    role := if t == o.term + 1 then Candidate else o.role)],
       votes := if Ballot(v, t) in s.votes then s.votes else s.votes[Ballot(v, t) := Vote(c, o.log)])
  }

  lemma CastKeeps(s: State, v: nat, c: nat, t: nat)
    requires Inv(s) && CanCast(s, v, c, t)
    ensures Inv(Cast(s, v, c, t)) && Grows(s, Cast(s, v, c, t))
  {
    var z := Cast(s, v, c, t);
    CastGrows(s, v, c, t);
    OldVotes(s, z, v);
    OldAcks(s, z, v);
    CasterOk(s, z, v, c, t);
    TermKept(s, z, t);
    if Ballot(v, t) !in s.votes {
      NewVote(s, z, v, c, t);
    }
    InvFromGood(s, z, v, t);
  }

  lemma CastGrows(s: State, v: nat, c: nat, t: nat)
    requires Inv(s) && CanCast(s, v, c, t)
    ensures Grows(s, Cast(s, v, c, t)) && OnlyAt(s, Cast(s, v, c, t), v, t)
    ensures s.servers[v].pterm <= t
    ensures s.servers[v].pterm == t ==> s.servers[v].voted == -1 || s.servers[v].voted == c
  {
    assert ServerOk(s, v);
  }

  lemma CasterOk(s: State, z: State, v: nat, c: nat, t: nat)
    requires Inv(s) && CanCast(s, v, c, t) && z == Cast(s, v, c, t) && Grows(s, z)
    ensures ServerOk(z, v)
  {
    var o := s.servers[v];
    assert ServerOk(s, v) && VoteOk(s, Ballot(v, t));
    assert CommitOk(s, o.cterm) && ReignOk(s, t);
    ThroughGrows(s, z, o.log, |o.log| - 1);
    BackedGrows(s, z, o.log, o.commit, o.cterm);
  }

  lemma NewVote(s: State, z: State, v: nat, c: nat, t: nat)
    requires Inv(s) && CanCast(s, v, c, t) && Ballot(v, t) !in s.votes && z == Cast(s, v, c, t) && Grows(s, z)
    ensures VoteOk(z, Ballot(v, t)) && VoteRecalls(z, Ballot(v, t))
  {
    var o, b := s.servers[v], Ballot(v, t);
    assert ServerOk(s, v) && VoteOk(s, Ballot(c, t));
    ThroughGrows(s, z, o.log, |o.log| - 1);
    if s.ordered && (t in z.reigns ==> v in z.reigns[t].voters) {
      assert ReignOk(s, t) && ReignOk(s, 0);
      assert t !in s.reigns;
      forall u: nat, i: nat | u < t && i <= AckOf(z, v, u)
        ensures Recalls(z, u, i, o.log, t)
      {
        assert AckOk(s, Ballot(v, u)) && Holds(s, u, i, o);
        RecallsGrows(s, z, u, i, o.log, o.pterm + 1, t + 1);
        assert Recalls(z, u, i, o.log, t);
      }
    }
  }

  // A candidate with a majority of votes becomes leader of its term.
  ghost predicate CanWin(s: State, v: nat, q: set<nat>) {
    && v < |s.servers| && s.servers[v].role == Candidate && v in q && Quorum(|s.servers|, q)
    && (forall x {:trigger x in q} :: x in q ==>
          Ballot(x, s.servers[v].term) in s.votes && s.votes[Ballot(x, s.servers[v].term)].cand == v)
  }

  function Win(s: State, v: nat, q: set<nat>): State
    requires v < |s.servers|
  {
    var o := s.servers[v];
    s.(servers := s.servers[v := o.(role := Leader)],
       reigns := s.reigns[o.term := Reign(v, |o.log|, o.log, q)],
       acks := if |o.log| > 0 then s.acks[Ballot(v, o.term) := |o.log| - 1] else s.acks)
  }

  /** Election Safety: a winner's term has had no leader yet. */
  lemma FirstOfTerm(s: State, v: nat, q: set<nat>)
    requires Inv(s) && CanWin(s, v, q)
    ensures s.servers[v].term !in s.reigns
  {
    var t := s.servers[v].term;
    assert ServerOk(s, v);
    if t in s.reigns {
      assert ReignOk(s, t);
      var x := QuorumsMeet(|s.servers|, q, s.reigns[t].voters);
      assert false;
    }
  }

  lemma WinGrows(s: State, v: nat, q: set<nat>)
    requires Inv(s) && CanWin(s, v, q)
    ensures Grows(s, Win(s, v, q)) && OnlyAt(s, Win(s, v, q), v, s.servers[v].term)
  {
    FirstOfTerm(s, v, q);
    assert ServerOk(s, v);
    assert AckOk(s, Ballot(v, s.servers[v].term));
  }

  lemma WinnerOk(s: State, z: State, v: nat, q: set<nat>)
    requires Inv(s) && CanWin(s, v, q) && z == Win(s, v, q) && Grows(s, z)
    ensures ServerOk(z, v) && AckOk(z, Ballot(v, s.servers[v].term))
  {
    var o, t := s.servers[v], s.servers[v].term;
    assert ServerOk(s, v) && CommitOk(s, o.cterm);
    FirstOfTerm(s, v, q);
    ThroughGrows(s, z, o.log, |o.log| - 1);
    BackedGrows(s, z, o.log, o.commit, o.cterm);
    forall i: nat
      ensures i < |o.log| ==> Holds(z, t, i, z.servers[v])
    {
      assert i < |o.log| ==> Recalls(z, t, i, o.log, o.pterm + 1);
    }
  }

  lemma NewReign(s: State, z: State, v: nat, q: set<nat>)
    requires Inv(s) && CanWin(s, v, q) && z == Win(s, v, q) && Grows(s, z)
    ensures ReignOk(z, s.servers[v].term) && CommitOk(z, s.servers[v].term)
  {
    var o, t := s.servers[v], s.servers[v].term;
    assert ServerOk(s, v) && VoteOk(s, Ballot(v, t)) && CommitOk(s, t);
    FirstOfTerm(s, v, q);
    GoodLogSorted(s, o.log);
    forall k | 0 <= k < |o.log|
      ensures Through(z, o.log, k)
    {
      ThroughAny(s, o.log, k);
      ThroughGrows(s, z, o.log, k);
    }
  }

  lemma WinKeeps(s: State, v: nat, q: set<nat>)
    requires Inv(s) && CanWin(s, v, q)
    ensures Inv(Win(s, v, q)) && Grows(s, Win(s, v, q))
  {
    var z, t := Win(s, v, q), s.servers[v].term;
    assert ServerOk(s, v);
    WinGrows(s, v, q);
    OldVotes(s, z, v);
    OldAcks(s, z, v);
    WinnerOk(s, z, v, q);
    NewReign(s, z, v, q);
    InvFromGood(s, z, v, t);
  }

  // The leader appends a command to its own log.
  ghost predicate CanExtend(s: State, v: nat) {
    v < |s.servers| && s.servers[v].role == Leader && s.servers[v].term in s.reigns
  }

  function Extend(s: State, v: nat, c: Command): State
    requires CanExtend(s, v)
  {
    var o := s.servers[v];
    var log := o.log + [Entry(o.term, c)];
    s.(servers := s.servers[v := o.(log := log)],
       reigns := s.reigns[o.term := s.reigns[o.term].(log := log)],
       acks := s.acks[Ballot(v, o.term) := |o.log|])
  }

  lemma ExtendGrows(s: State, v: nat, c: Command)
    requires Inv(s) && CanExtend(s, v)
    ensures Grows(s, Extend(s, v, c)) && OnlyAt(s, Extend(s, v, c), v, s.servers[v].term)
  {
    assert ServerOk(s, v);
    assert AckOk(s, Ballot(v, s.servers[v].term));
  }

  lemma ExtenderOk(s: State, z: State, v: nat, c: Command)
    requires Inv(s) && CanExtend(s, v) && z == Extend(s, v, c) && Grows(s, z)
    ensures ServerOk(z, v) && AckOk(z, Ballot(v, s.servers[v].term))
  {
    var o, t := s.servers[v], s.servers[v].term;
    assert ServerOk(s, v) && CommitOk(s, o.cterm);
    BackedGrows(s, z, o.log, o.commit, o.cterm);
    forall i: nat
      ensures i <= |o.log| ==> Holds(z, t, i, z.servers[v])
    {
      assert i <= |o.log| ==> Recalls(z, t, i, z.servers[v].log, o.pterm + 1);
    }
  }

  lemma ExtendedThrough(s: State, z: State, v: nat, c: Command, k: nat)
    requires Inv(s) && CanExtend(s, v) && z == Extend(s, v, c) && Grows(s, z)
    requires k < |z.servers[v].log|
    ensures Through(z, z.servers[v].log, k)
  {
    var o, t := s.servers[v], s.servers[v].term;
    assert ServerOk(s, v);
    if k < |o.log| {
      ThroughAny(s, o.log, k);
      ThroughGrows(s, z, o.log, k);
    }
  }

  lemma ExtendedReign(s: State, z: State, v: nat, c: Command)
    requires Inv(s) && CanExtend(s, v) && z == Extend(s, v, c) && Grows(s, z)
    ensures ReignOk(z, s.servers[v].term) && CommitOk(z, s.servers[v].term)
  {
    var o, t := s.servers[v], s.servers[v].term;
    var log := z.servers[v].log;
    assert ServerOk(s, v) && ReignOk(s, t) && CommitOk(s, t);
    forall k | 0 <= k < |log|
      ensures Through(z, log, k)
    {
      ExtendedThrough(s, z, v, c, k);
    }
    if t in s.commits {
      CommitKept(s, z, t);
    }
    assert ElectedOk(s, t, s.reigns[t]);
    assert Ballot(v, t) in z.votes && z.votes[Ballot(v, t)] == s.votes[Ballot(v, t)];
  }

  lemma ExtendKeeps(s: State, v: nat, c: Command)
    requires Inv(s) && CanExtend(s, v)
    ensures Inv(Extend(s, v, c)) && Grows(s, Extend(s, v, c))
  {
    var z, t := Extend(s, v, c), s.servers[v].term;
    assert ServerOk(s, v);
    ExtendGrows(s, v, c);
    OldVotes(s, z, v);
    OldAcks(s, z, v);
    ExtenderOk(s, z, v, c);
    ExtendedReign(s, z, v, c);
    InvFromGood(s, z, v, t);
  }

  // Follower v takes over the log of the leader of term t up to entry e, having
  // checked entry prev. The leader's commit index lc was backed by term ct. The
  // step is out of order if v had acknowledged more of that log.
  ghost predicate CanReplicate(s: State, v: nat, t: nat, prev: nat, e: nat, lc: nat, ct: nat) {
    && v < |s.servers| && t in s.reigns
    && var o, r := s.servers[v], s.reigns[t];
       && o.term <= t && r.leader != v
       && o.base <= prev <= e < |r.log| && prev < |o.log| && o.log[prev].term == r.log[prev].term
       && r.start <= e + 1
       && lc <= e && (s.ordered ==> ct <= t && Backed(s, r.log, lc, ct))
  }

  function Replicate(s: State, v: nat, t: nat, e: nat, lc: nat, ct: nat): State
    requires v < |s.servers| && t in s.reigns && e < |s.reigns[t].log|
  {
    var o := s.servers[v];
    s.(servers := s.servers[v := Server(t, t, if t > o.term then -1 else o.voted, Follower,
                                        s.reigns[t].log[..e + 1], o.base,
                                        if lc > o.commit then lc else o.commit,
                                        if lc > o.commit then ct else o.cterm)],
       acks := s.acks[Ballot(v, t) := e],
       ordered := s.ordered && AckOf(s, v, t) <= e)
  }

  lemma ReplicateGrows(s: State, v: nat, t: nat, prev: nat, e: nat, lc: nat, ct: nat)
    requires Inv(s) && CanReplicate(s, v, t, prev, e, lc, ct)
    ensures Grows(s, Replicate(s, v, t, e, lc, ct)) && OnlyAt(s, Replicate(s, v, t, e, lc, ct), v, t)
  {
    assert ServerOk(s, v);
  }

  // The committed part of the follower's log survives.
  lemma CommittedSurvives(s: State, v: nat, t: nat, prev: nat, e: nat, lc: nat, ct: nat)
    requires Inv(s) && CanReplicate(s, v, t, prev, e, lc, ct) && s.ordered && AckOf(s, v, t) <= e
    ensures s.servers[v].commit <= e
    ensures Same(s.servers[v].log, s.reigns[t].log, s.servers[v].commit + 1)
  {
    var o := s.servers[v];
    assert ServerOk(s, v) && CommitOk(s, o.cterm);
    if o.cterm < t {
      LeaderCompleteness(s, o.cterm, t);
    }
  }

  lemma FollowerOk(s: State, z: State, v: nat, t: nat, prev: nat, e: nat, lc: nat, ct: nat)
    requires Inv(s) && CanReplicate(s, v, t, prev, e, lc, ct)
    requires z == Replicate(s, v, t, e, lc, ct) && Grows(s, z)
    ensures ServerOk(z, v)
  {
    var o, x, r := s.servers[v], z.servers[v], s.reigns[t];
    assert ServerOk(s, v) && ReignOk(s, t);
    assert Through(s, r.log, e);
    ThroughGrows(s, z, r.log, e);
    if z.ordered {
      FollowerIndices(s, z, v, t, prev, e, lc, ct);
    }
  }

  lemma FollowerIndices(s: State, z: State, v: nat, t: nat, prev: nat, e: nat, lc: nat, ct: nat)
    requires Inv(s) && CanReplicate(s, v, t, prev, e, lc, ct)
    requires z == Replicate(s, v, t, e, lc, ct) && z.ordered
    ensures IndicesOk(z, v, z.servers[v])
  {
    assert ServerOk(s, v);
    CommittedSurvives(s, v, t, prev, e, lc, ct);
  }

  lemma ReplicatedAck(s: State, z: State, v: nat, t: nat, prev: nat, e: nat, lc: nat, ct: nat, u: nat)
    requires Inv(s) && CanReplicate(s, v, t, prev, e, lc, ct)
    requires z == Replicate(s, v, t, e, lc, ct) && Grows(s, z)
    ensures AckOk(z, Ballot(v, u))
  {
    var o, x := s.servers[v], z.servers[v];
    assert ServerOk(s, v) && AckOk(s, Ballot(v, u));
    if z.ordered && Ballot(v, u) in z.acks {
      forall i: nat
        ensures i <= z.acks[Ballot(v, u)] ==> Holds(z, u, i, x)
      {
        if i <= z.acks[Ballot(v, u)] && u != t {
          assert Holds(s, u, i, o);
          if Same(LogOf(s, u), o.log, i + 1) {
            assert Inherits(z, u, i, t) || Lost(z, u, i, t + 1);
          } else {
            RecallsGrows(s, z, u, i, x.log, o.pterm + 1, t + 1);
          }
        }
      }
    }
  }

  lemma ReplicateKeeps(s: State, v: nat, t: nat, prev: nat, e: nat, lc: nat, ct: nat)
    requires Inv(s) && CanReplicate(s, v, t, prev, e, lc, ct)
    ensures Inv(Replicate(s, v, t, e, lc, ct)) && Grows(s, Replicate(s, v, t, e, lc, ct))
  {
    var z := Replicate(s, v, t, e, lc, ct);
    assert ServerOk(s, v);
    ReplicateGrows(s, v, t, prev, e, lc, ct);
    OldVotes(s, z, v);
    FollowerOk(s, z, v, t, prev, e, lc, ct);
    TermKept(s, z, t);
    forall u: nat
      ensures AckOk(z, Ballot(v, u))
    {
      ReplicatedAck(s, z, v, t, prev, e, lc, ct, u);
    }
    InvFromGood(s, z, v, t);
  }

  // Follower v replaces its log up to entry i by the snapshot of the leader of
  // term t, an entry term ct committed; it keeps what follows a matching entry.
  ghost predicate CanInstall(s: State, v: nat, t: nat, i: nat, ct: nat) {
    && v < |s.servers| && t in s.reigns
    && var o, r := s.servers[v], s.reigns[t];
       && o.term <= t && r.leader != v
       && o.base < i < |r.log|
       && (s.ordered ==> ct <= t && Backed(s, r.log, i, ct))
  }

  function Install(s: State, v: nat, t: nat, i: nat, ct: nat): State
    requires v < |s.servers| && t in s.reigns && i < |s.reigns[t].log|
  {
    var o, r := s.servers[v], s.reigns[t];
    s.(servers := s.servers[v := Server(t, t, o.voted, Follower,
                                        if i < |o.log| && o.log[i].term == r.log[i].term then o.log else r.log[..i + 1], i,
                                        if i > o.commit then i else o.commit,
                                        if i > o.commit then ct else o.cterm)])
  }

  // If the follower has to drop its log, nothing at or after the snapshot was committed there.
  lemma DroppedUncommitted(s: State, v: nat, t: nat, i: nat, ct: nat)
    requires Inv(s) && CanInstall(s, v, t, i, ct)
    ensures s.ordered && i <= s.servers[v].commit ==> i < |s.servers[v].log| && s.servers[v].log[i] == s.reigns[t].log[i]
  {
    assert ServerOk(s, v);
    if s.ordered && i <= s.servers[v].commit {
      CommitsAgree(s, s.servers[v].cterm, ct, i);
    }
  }

  // The follower's new log starts with the leader's log up to the snapshot.
  lemma InstalledPrefix(s: State, v: nat, t: nat, i: nat, ct: nat)
    requires Inv(s) && CanInstall(s, v, t, i, ct)
    ensures Same(Install(s, v, t, i, ct).servers[v].log, s.reigns[t].log, i + 1)
  {
    var o, r := s.servers[v], s.reigns[t];
    if i < |o.log| && o.log[i].term == r.log[i].term {
      assert ServerOk(s, v) && ReignOk(s, t);
      assert Through(s, r.log, i);
      ThroughAny(s, o.log, i);
    }
  }

  lemma InstallerOk(s: State, z: State, v: nat, t: nat, i: nat, ct: nat)
    requires Inv(s) && CanInstall(s, v, t, i, ct) && z == Install(s, v, t, i, ct) && Grows(s, z)
    ensures ServerOk(z, v)
  {
    var o, x, r := s.servers[v], z.servers[v], s.reigns[t];
    assert ServerOk(s, v) && ReignOk(s, t);
    assert Through(s, r.log, i);
    InstalledPrefix(s, v, t, i, ct);
    DroppedUncommitted(s, v, t, i, ct);
  }

  lemma InstalledAck(s: State, z: State, v: nat, t: nat, i: nat, ct: nat, u: nat)
    requires Inv(s) && CanInstall(s, v, t, i, ct) && z == Install(s, v, t, i, ct) && Grows(s, z)
    ensures AckOk(z, Ballot(v, u))
  {
    var o, x, r := s.servers[v], z.servers[v], s.reigns[t];
    assert ServerOk(s, v) && AckOk(s, Ballot(v, u)) && ReignOk(s, t);
    InstalledPrefix(s, v, t, i, ct);
    if z.ordered && Ballot(v, u) in z.acks {
      forall j: nat
        ensures j <= z.acks[Ballot(v, u)] ==> Holds(z, u, j, x)
      {
        if j <= z.acks[Ballot(v, u)] {
          assert Holds(s, u, j, o);
          if Same(LogOf(s, u), o.log, j + 1) {
            assert u == t || Inherits(z, u, j, t) || Lost(z, u, j, t + 1);
          } else {
            RecallsGrows(s, z, u, j, x.log, o.pterm + 1, t + 1);
          }
        }
      }
    }
  }

  lemma InstallKeeps(s: State, v: nat, t: nat, i: nat, ct: nat)
    requires Inv(s) && CanInstall(s, v, t, i, ct)
    ensures Inv(Install(s, v, t, i, ct)) && Grows(s, Install(s, v, t, i, ct))
  {
    var z := Install(s, v, t, i, ct);
    assert ServerOk(s, v);
    OldVotes(s, z, v);
    InstallerOk(s, z, v, t, i, ct);
    TermKept(s, z, t);
    forall u: nat
      ensures AckOk(z, Ballot(v, u))
    {
      InstalledAck(s, z, v, t, i, ct, u);
    }
    InvFromGood(s, z, v, t);
  }

  // The leader commits an entry of its own term that a majority acknowledged.
  ghost predicate CanCommit(s: State, v: nat, i: nat, q: set<nat>) {
    && v < |s.servers|
    && var o := s.servers[v];
       && o.role == Leader && o.commit < i < |o.log| && o.log[i].term == o.term
       && Quorum(|s.servers|, q)
       && (forall x {:trigger x in q} :: x in q ==> s.ordered ==> AckOf(s, x, o.term) >= i)
  }

  function CommitAt(s: State, v: nat, i: nat, q: set<nat>): State
    requires v < |s.servers|
  {
    var o := s.servers[v];
    s.(servers := s.servers[v := o.(commit := i, cterm := o.term)],
       commits := if o.term in s.commits && i <= s.commits[o.term].index then s.commits
                  else s.commits[o.term := Commit(i, q)])
  }

  lemma CommitterOk(s: State, z: State, v: nat, i: nat, q: set<nat>)
    requires Inv(s) && CanCommit(s, v, i, q) && z == CommitAt(s, v, i, q) && Grows(s, z)
    ensures ServerOk(z, v)
  {
    var o := s.servers[v];
    assert ServerOk(s, v);
    ThroughGrows(s, z, o.log, |o.log| - 1);
  }

  lemma CommittedTerm(s: State, z: State, v: nat, i: nat, q: set<nat>)
    requires Inv(s) && CanCommit(s, v, i, q) && z == CommitAt(s, v, i, q) && Grows(s, z)
    ensures ReignOk(z, s.servers[v].term) && CommitOk(z, s.servers[v].term)
  {
    var t := s.servers[v].term;
    assert ServerOk(s, v) && ReignOk(s, t) && CommitOk(s, t);
    ReignKept(s, z, t);
    if z.commits == s.commits {
      CommitKept(s, z, t);
    }
  }

  lemma CommitAtGrows(s: State, v: nat, i: nat, q: set<nat>)
    requires Inv(s) && CanCommit(s, v, i, q)
    ensures Grows(s, CommitAt(s, v, i, q))
  {
  }

  lemma CommitAtKeeps(s: State, v: nat, i: nat, q: set<nat>)
    requires Inv(s) && CanCommit(s, v, i, q)
    ensures Inv(CommitAt(s, v, i, q)) && Grows(s, CommitAt(s, v, i, q))
  {
    var z := CommitAt(s, v, i, q);
    CommitAtGrows(s, v, i, q);
    OldVotes(s, z, v);
    OldAcks(s, z, v);
    CommitterOk(s, z, v, i, q);
    CommittedTerm(s, z, v, i, q);
    InvFromGood(s, z, v, s.servers[v].term);
  }

  // A leader learns that term ct committed more of its log than it knew.
  ghost predicate CanLearn(s: State, v: nat, i: nat, ct: nat) {
    && v < |s.servers|
    && var o := s.servers[v];
       && o.role == Leader && o.commit < i < |o.log|
       && (s.ordered ==> ct <= o.term && Backed(s, o.log, i, ct))
  }

  function Learn(s: State, v: nat, i: nat, ct: nat): State
    requires v < |s.servers|
  {
    s.(servers := s.servers[v := s.servers[v].(commit := i, cterm := ct)])
  }

  lemma LearnKeeps(s: State, v: nat, i: nat, ct: nat)
    requires Inv(s) && CanLearn(s, v, i, ct)
    ensures Inv(Learn(s, v, i, ct)) && Grows(s, Learn(s, v, i, ct))
  {
    var z, o := Learn(s, v, i, ct), s.servers[v];
    assert ServerOk(s, v);
    OldVotes(s, z, v);
    OldAcks(s, z, v);
    ThroughGrows(s, z, o.log, |o.log| - 1);
    assert ServerOk(z, v);
    TermKept(s, z, 0);
    InvFromGood(s, z, v, 0);
  }
}
