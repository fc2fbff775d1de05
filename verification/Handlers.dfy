/** What each critical section of a peer answers and leaves behind, entry by entry. */
module Handlers {
  import opened Session
  import opened Logs
  import opened Protocol
  import opened Peers
  import opened Clusters
  import opened Refinement

  // ------------------------------------------------------------------- terms

  // Everything a restart brings back is on disk.
  predicate AllSaved(p: Peer) {
    p.disk == Disk(p.currentTerm, p.votedFor, p.log, p.lastIncludedIndex, p.lastIncludedTerm, p.snapshot)
  }

  /** Every reply carries the later of the two terms, which is then the peer's own,
      and nothing is granted or accepted for an earlier term. */
  lemma ReplyTerms(node: Node, v: nat, m: Message)
    requires node.peer.Formed() && (m.VoteRequest? || m.AppendRequest? || m.InstallRequest?)
    ensures var (x, r) := Handle(node, v, m);
            && AskedTerm(r) == AskedTerm(m)
            && ReplyTerm(r) == x.peer.currentTerm
            && ReplyTerm(r) == (if node.peer.currentTerm < AskedTerm(m) then AskedTerm(m) else node.peer.currentTerm)
            && (r.VoteAnswer? && r.voteReply.voteGranted ==> node.peer.currentTerm <= AskedTerm(m))
            && (r.AppendAnswer? && r.appendReply.success ==> node.peer.currentTerm <= AskedTerm(m))
  {
  }

  /** A peer of an earlier term that asks another one learns of the later term: whatever
      it asked, the reply makes it a follower of that term, with its vote free. */
  lemma LaterTermDeposes(asker: Node, v: nat, node: Node, u: nat, m: Message)
    requires asker.peer.Formed() && node.peer.Formed() && (m.VoteRequest? || m.AppendRequest? || m.InstallRequest?)
    requires AskedTerm(m) < node.peer.currentTerm && CanTakeReply(asker, v, Handle(node, u, m).1)
    ensures var p := Take(asker, v, Handle(node, u, m).1).peer;
            && p == asker.peer.(currentTerm := node.peer.currentTerm, role := Follower, votedFor := -1, disk := p.disk)
            && AllSaved(p)
  {
    ReplyTerms(node, u, m);
  }

  // ------------------------------------------------------------------- votes

  /** A vote is granted exactly if it is free in the candidate's term and the candidate's
      log is at least as up to date as the voter's whole log, compacted or not. */
  lemma VoteGrantedExactly(p: Peer, a: VoteArgs, whole: seq<Entry>)
    requires Window(p.log, p.lastIncludedIndex, whole)
    ensures var last := whole[|whole| - 1].term;
            RequestVote(p, a).1.voteGranted <==>
              && (p.currentTerm < a.term || (p.currentTerm == a.term && (p.votedFor == -1 || p.votedFor == a.candidateId)))
              && (last < a.lastLogTerm || (last == a.lastLogTerm && |whole| - 1 <= a.lastLogIndex))
  {
    assert p.log[|p.log| - 1].term == whole[|whole| - 1].term;
  }

  /** What handling the request leaves: a later term is taken over and saved, a granted
      vote is saved, and nothing else changes. */
  lemma VoteAftermath(p: Peer, a: VoteArgs)
    requires 0 < |p.log|
    ensures var (q, r) := RequestVote(p, a);
            && q == p.(currentTerm := q.currentTerm, role := q.role, votedFor := q.votedFor, disk := q.disk)
            && q.role == (if p.currentTerm < a.term then Follower else p.role)
            && q.votedFor == (if r.voteGranted then a.candidateId else if p.currentTerm < a.term then -1 else p.votedFor)
            && if p.currentTerm < a.term || r.voteGranted then AllSaved(q) else q.disk == p.disk
  {
  }

  // ----------------------------------------------------------- AppendEntries

  /** Entries are accepted exactly if the sender's term is not behind and the entry before
      them is in the window, with the term the sender says. */
  lemma AcceptedExactly(p: Peer, a: AppendArgs)
    ensures AppendEntries(p, a).1.success <==>
              && p.currentTerm <= a.term
              && p.lastIncludedIndex <= a.prevLogIndex < p.lastIncludedIndex + |p.log|
              && p.log[a.prevLogIndex - p.lastIncludedIndex].term == a.prevLogTerm
  {
  }

  // A sender that is not behind makes a peer its follower, and a later term is saved.
  predicate Follows(p: Peer, q: Peer, term: nat) {
    && q.currentTerm == term && q.role == Follower
    && q.votedFor == (if p.currentTerm < term then -1 else p.votedFor)
  }

  /** After accepting, the window ends where the message does: up to the entry before it is
      as it was, after it as the message says, and the commit index follows the leader's as
      far as the log goes. */
  lemma AcceptAftermath(p: Peer, a: AppendArgs)
    requires AppendEntries(p, a).1.success
    ensures AppendEntries(p, a).1 == AppendReply(a.term, true, 0, 0, 0)
    ensures var q := AppendEntries(p, a).0;
            && q == p.(currentTerm := q.currentTerm, role := q.role, votedFor := q.votedFor, log := q.log,
                       commitIndex := q.commitIndex, disk := q.disk)
            && Follows(p, q, a.term) && AllSaved(q)
            && q.lastIncludedIndex + |q.log| == a.prevLogIndex + |a.entries| + 1
            && (forall k :: q.lastIncludedIndex <= k <= a.prevLogIndex ==> q.At(k) == p.At(k))
            && (forall k :: a.prevLogIndex < k <= a.prevLogIndex + |a.entries| ==> q.At(k) == a.entries[k - a.prevLogIndex - 1])
            && q.commitIndex == (if a.leaderCommit <= p.commitIndex then p.commitIndex
                                 else if a.leaderCommit <= a.prevLogIndex + |a.entries| then a.leaderCommit
                                 else a.prevLogIndex + |a.entries|)
  {
  }

  lemma RejectAftermath(p: Peer, a: AppendArgs)
    requires !AppendEntries(p, a).1.success
    ensures a.term < p.currentTerm ==> AppendEntries(p, a).1 == AppendReply(p.currentTerm, false, 0, 0, 0)
    ensures var q := AppendEntries(p, a).0;
            && (a.term < p.currentTerm ==> q == p)
            && (p.currentTerm <= a.term ==>
                  && q == p.(currentTerm := q.currentTerm, role := q.role, votedFor := q.votedFor, disk := q.disk)
                  && Follows(p, q, a.term)
                  && if p.currentTerm < a.term then AllSaved(q) else q.disk == p.disk)
  {
  }

  // -------------------------------------------------------- InstallSnapshot

  /** A snapshot is installed exactly if the sender's term is not behind and the snapshot is
      newer than the window. Then the window starts with it; it keeps what it had after the
      snapshot's index if it has the snapshot's last entry, and nothing otherwise. */
  lemma InstallAftermath(p: Peer, a: InstallArgs)
    requires a.term >= p.currentTerm && a.lastIncludedIndex > p.lastIncludedIndex
    ensures var q := InstallSnapshot(p, a).0;
            var kept := a.lastIncludedIndex - p.lastIncludedIndex < |p.log|
                        && p.log[a.lastIncludedIndex - p.lastIncludedIndex].term == a.lastIncludedTerm;
            && q == p.(currentTerm := a.term, role := Follower, log := q.log, commitIndex := q.commitIndex,
                       lastIncludedIndex := a.lastIncludedIndex, lastIncludedTerm := a.lastIncludedTerm, snapshot := a.data,
                       disk := q.disk)
            && AllSaved(q)
            && q.log[0] == Entry(a.lastIncludedTerm, NoCommand)
            && a.lastIncludedIndex + |q.log| == (if kept then p.lastIncludedIndex + |p.log| else a.lastIncludedIndex + 1)
            && (forall k :: a.lastIncludedIndex < k < a.lastIncludedIndex + |q.log| ==> q.At(k) == p.At(k))
            && q.commitIndex == if p.commitIndex < a.lastIncludedIndex then a.lastIncludedIndex else p.commitIndex
  {
  }

  lemma StaleInstall(p: Peer, a: InstallArgs)
    requires a.term < p.currentTerm || a.lastIncludedIndex <= p.lastIncludedIndex
    ensures InstallSnapshot(p, a).0 == if a.term < p.currentTerm then p else p.(currentTerm := a.term, role := Follower)
  {
  }

  // ----------------------------------------------------------- local actions

  /** The service's snapshot takes the place of the entries up to its index, if the window
      has that index and has not compacted it yet; the entries after it stay. */
  lemma CompactAftermath(p: Peer, index: nat, data: Blob)
    ensures var q := Compact(p, index, data);
            if p.lastIncludedIndex < index < p.lastIncludedIndex + |p.log| then
              var term := p.log[index - p.lastIncludedIndex].term;
              && q == p.(log := q.log, lastIncludedIndex := index, lastIncludedTerm := term, snapshot := data, disk := q.disk)
              && AllSaved(q)
              && index + |q.log| == p.lastIncludedIndex + |p.log|
              && q.log[0] == Entry(term, NoCommand)
              && (forall k :: index < k < index + |q.log| ==> q.At(k) == p.At(k))
            else q == p
  {
  }

  /** Start appends its command at the index it returns, at a leader; anyone else only says
      that it is none. */
  lemma StartAftermath(p: Peer, c: Command)
    ensures var (q, index, term) := Start(p, c);
            && term == p.currentTerm
            && if p.role == Leader then
                 && index == p.lastIncludedIndex + |p.log|
                 && q == p.(log := q.log, disk := q.disk) && AllSaved(q)
                 && |q.log| == |p.log| + 1 && q.log[..|p.log|] == p.log && q.log[|p.log|] == Entry(p.currentTerm, c)
               else index == -1 && q == p
  {
  }

  /** A candidate votes for itself in the next term, saves that, and asks with the index and
      term of the last entry of its whole log. */
  lemma CampaignAftermath(p: Peer, whole: seq<Entry>)
    requires Window(p.log, p.lastIncludedIndex, whole)
    ensures var (q, a) := Campaign(p);
            && q == p.(role := Candidate, currentTerm := p.currentTerm + 1, votedFor := p.me, voteCount := 1, disk := q.disk)
            && AllSaved(q)
            && a == VoteArgs(p.currentTerm + 1, p.me, |whole| - 1, whole[|whole| - 1].term)
  {
    assert p.log[|p.log| - 1].term == whole[|whole| - 1].term;
  }

  /** What a follower is sent: its snapshot's successor on, if the leader still has that, and
      then everything up to the end of the log; the leader's snapshot otherwise. */
  lemma BuiltExactly(p: Peer, i: nat)
    requires i < |p.nextIndex| && 0 < |p.log| && p.nextIndex[i] <= p.LastLogIndex() + 1
    ensures match Build(p, i)
            case SendInstall(a) =>
              && p.nextIndex[i] <= p.lastIncludedIndex
              && a == InstallArgs(p.currentTerm, p.me, p.lastIncludedIndex, p.lastIncludedTerm, p.snapshot)
            case SendAppend(a) =>
              && p.lastIncludedIndex < p.nextIndex[i] == a.prevLogIndex + 1
              && a.term == p.currentTerm && a.leaderId == p.me && a.leaderCommit == p.commitIndex
              && a.prevLogTerm == p.log[a.prevLogIndex - p.lastIncludedIndex].term
              && a.prevLogIndex + |a.entries| == p.lastIncludedIndex + |p.log| - 1
              && forall k :: a.prevLogIndex < k < p.lastIncludedIndex + |p.log| ==> a.entries[k - a.prevLogIndex - 1] == p.At(k)
  {
  }

  /** A restarted peer is a follower that has what its disk has, and takes what is in the
      snapshot as committed and applied. */
  lemma RestartAftermath(me: nat, n: nat, d: Disk)
    ensures var p := Make(me, n, d);
            && p.me == me && p.n == n && p.role == Follower && p.voteCount == 0 && p.disk == d && AllSaved(p)
            && p.commitIndex == p.lastApplied == d.lastIncludedIndex
  {
  }

  // ----------------------------------------------------------------- replies

  /** A candidate leads exactly if the votes for it, with this one, are more than half. A
      leader takes every follower to have all of its log, and to have matched nothing. */
  lemma VoteReplyAftermath(p: Peer, a: VoteArgs, r: VoteReply)
    requires 0 < |p.log| && r.term <= a.term
    ensures var q := OnVoteReply(p, a, r);
            var votes := p.voteCount + if r.voteGranted then 1 else 0;
            if p.currentTerm != a.term || p.role != Candidate then q == p
            else
              && q == p.(voteCount := votes, role := q.role, nextIndex := q.nextIndex, matchIndex := q.matchIndex)
              && q.role == (if 2 * votes > p.n then Leader else Candidate)
              && if q.role == Leader then
                   && |q.nextIndex| == |q.matchIndex| == p.n
                   && forall u :: 0 <= u < p.n ==> q.nextIndex[u] == p.lastIncludedIndex + |p.log| && q.matchIndex[u] == 0
                 else q.nextIndex == p.nextIndex && q.matchIndex == p.matchIndex
  {
  }

  lemma StepDownAftermath(p: Peer, term: nat)
    ensures var q := p.StepDown(term); q == p.(currentTerm := term, role := Follower, votedFor := -1, disk := q.disk) && AllSaved(q)
  {
  }

  // The leader may commit index i: the entry is of its own term, and more than half of the
  // servers have it.
  ghost predicate MayCommit(p: Peer, i: int) {
    && p.lastIncludedIndex <= i < p.lastIncludedIndex + |p.log|
    && p.log[i - p.lastIncludedIndex].term == p.currentTerm
    && 2 * |set u: nat | u < |p.matchIndex| && (u == p.me || p.matchIndex[u] >= i)| > p.n
  }

  /** The commit rule: after an accepting reply the follower has matched what the message
      carried, and the commit index is the highest index above the old one that may be
      committed, or as before if there is none. */
  lemma CommitsExactly(p: Peer, from: nat, a: AppendArgs, r: AppendReply)
    requires p.Formed() && p.role == Leader && from < p.n && p.me < p.n
    requires r.success && r.term <= a.term == p.currentTerm
    ensures var q := OnAppendReply(p, from, a, r);
            var m := a.prevLogIndex + |a.entries|;
            && q == p.(nextIndex := p.nextIndex[from := m + 1], matchIndex := p.matchIndex[from := m], commitIndex := q.commitIndex)
            && p.commitIndex <= q.commitIndex
            && (q.commitIndex == p.commitIndex || MayCommit(q, q.commitIndex))
            && forall i: nat {:trigger MayCommit(q, i)} :: MayCommit(q, i) ==> i <= q.commitIndex
  {
    var z := MatchedUpTo(p, from, a.prevLogIndex + |a.entries|);
    CommitsHighest(z, z.LastLogIndex());
    var q := OnAppendReply(p, from, a, r);
    assert forall i {:trigger MayCommit(q, i)} :: MayCommit(q, i) <==> MayCommit(z, i);
  }

  lemma {:induction false} CommitsHighest(p: Peer, i: nat)
    requires p.Formed() && p.role == Leader && p.me < p.n && i <= p.LastLogIndex()
    ensures var c := CommitTarget(p, i);
            && p.commitIndex <= c && (c == p.commitIndex || MayCommit(p, c))
            && forall j: nat {:trigger MayCommit(p, j)} :: MayCommit(p, j) && j <= i ==> j <= c
    decreases i
  {
    if i > p.commitIndex && i >= p.lastIncludedIndex {
      CommittableExactly(p, i);
      CommitsHighest(p, i - 1);
    }
  }

  lemma CommittableExactly(p: Peer, i: nat)
    requires p.Formed() && p.role == Leader && p.me < p.n && p.lastIncludedIndex <= i <= p.LastLogIndex()
    ensures Committable(p, i) <==> MayCommit(p, i)
  {
    MatchedCounts(p, i, p.n);
    assert Holders(p, i, p.n) == set u: nat | u < |p.matchIndex| && (u == p.me || p.matchIndex[u] >= i);
  }

  // The leader after accepting replies from these followers, one after the other.
  function Acknowledged(p: Peer, from: seq<nat>, sent: seq<AppendArgs>): (q: Peer)
    requires p.Formed() && p.role == Leader && |from| == |sent| && forall j :: 0 <= j < |from| ==> from[j] < p.n
    requires forall j :: 0 <= j < |sent| ==> sent[j].term == p.currentTerm
    ensures q == p.(nextIndex := q.nextIndex, matchIndex := q.matchIndex, commitIndex := q.commitIndex) && q.Formed()
  {
    if |from| == 0 then p
    else
      var k := |from| - 1;
      OnAppendReply(Acknowledged(p, from[..k], sent[..k]), from[k], sent[k], AppendReply(p.currentTerm, true, 0, 0, 0))
  }

  lemma {:induction false} AllMatched(p: Peer, from: seq<nat>, sent: seq<AppendArgs>, m: nat)
    requires p.Formed() && p.role == Leader && |from| == |sent| && forall j :: 0 <= j < |from| ==> from[j] < p.n
    requires forall j :: 0 <= j < |sent| ==> sent[j].term == p.currentTerm && Reach(sent[j]) >= m
    ensures forall u {:trigger u in from} :: u in from ==> u < p.n && Acknowledged(p, from, sent).matchIndex[u] >= m
  {
    if |from| > 0 {
      var k := |from| - 1;
      AllMatched(p, from[..k], sent[..k], m);
      assert from == from[..k] + [from[k]];
    }
  }

  /** A majority commits: once followers that with the leader are more than half of the
      servers have acknowledged an entry of the leader's term, in whatever order and with
      whichever messages that carried it, the entry is committed. */
  lemma MajorityCommits(p: Peer, from: seq<nat>, sent: seq<AppendArgs>, m: nat)
    requires p.Formed() && p.role == Leader && p.me < p.n && |from| == |sent| > 0
    requires forall j :: 0 <= j < |from| ==> from[j] < p.n
    requires forall j :: 0 <= j < |sent| ==> sent[j].term == p.currentTerm && Reach(sent[j]) >= m
    requires 2 * |(set u | u in from) + {p.me}| > p.n
    requires p.lastIncludedIndex <= m < p.lastIncludedIndex + |p.log| && p.At(m).term == p.currentTerm
    ensures Acknowledged(p, from, sent).commitIndex >= m
  {
    var k := |from| - 1;
    var q, z := Acknowledged(p, from[..k], sent[..k]), Acknowledged(p, from, sent);
    CommitsExactly(q, from[k], sent[k], AppendReply(p.currentTerm, true, 0, 0, 0));
    AllMatched(p, from, sent, m);
    MajorityMatched(z, from, m);
    assert MayCommit(z, m);
  }

  lemma MajorityMatched(z: Peer, from: seq<nat>, m: nat)
    requires z.me < |z.matchIndex| && forall u {:trigger u in from} :: u in from ==> u < |z.matchIndex| && z.matchIndex[u] >= m
    ensures |(set u | u in from) + {z.me}| <= |set u: nat | u < |z.matchIndex| && (u == z.me || z.matchIndex[u] >= m)|
  {
    Smaller((set u | u in from) + {z.me}, set u: nat | u < |z.matchIndex| && (u == z.me || z.matchIndex[u] >= m));
  }

  lemma {:induction false} Smaller(a: set<nat>, b: set<nat>)
    requires a <= b
    ensures |a| <= |b|
    decreases a
  {
    if a != {} {
      var x :| x in a;
      Smaller(a - {x}, b - {x});
    }
  }

  /** Backing off: nextIndex goes to the follower's end if it has no entry to compare, to just
      after the leader's last entry of the conflicting term if it has one, and to the
      follower's first of that term otherwise. */
  lemma BacksOffExactly(p: Peer, from: nat, a: AppendArgs, r: AppendReply)
    requires p.Formed() && p.role == Leader && from < p.n
    requires !r.success && r.term <= a.term == p.currentTerm
    ensures var q := OnAppendReply(p, from, a, r);
            var next := q.nextIndex[from];
            && q == p.(nextIndex := p.nextIndex[from := next])
            && if r.xTerm == -1 then next == r.xLen
               else if forall k :: 0 <= k < |p.log| ==> p.log[k].term != r.xTerm then next == r.xIndex
               else
                 && p.lastIncludedIndex < next <= p.lastIncludedIndex + |p.log|
                 && p.At(next - 1).term == r.xTerm
                 && forall k :: next <= k < p.lastIncludedIndex + |p.log| ==> p.At(k).term != r.xTerm
  {
    var k := LastOf(p.log, r.xTerm);
  }

  /** Whatever reply comes for another term, or to a peer that leads no more, changes nothing. */
  lemma LateReply(p: Peer, from: nat, a: AppendArgs, r: AppendReply, b: InstallArgs, s: InstallReply)
    requires p.Formed() && from < p.n
    ensures r.term <= a.term && (p.currentTerm != a.term || p.role != Leader) ==> OnAppendReply(p, from, a, r) == p
    ensures s.term <= b.term && (p.currentTerm != b.term || p.role != Leader) ==> OnInstallReply(p, from, b, s) == p
  {
  }

  lemma InstallReplyAftermath(p: Peer, from: nat, a: InstallArgs, r: InstallReply)
    requires p.Formed() && p.role == Leader && from < p.n && r.term <= a.term == p.currentTerm
    ensures OnInstallReply(p, from, a, r)
            == p.(nextIndex := p.nextIndex[from := a.lastIncludedIndex + 1], matchIndex := p.matchIndex[from := a.lastIncludedIndex])
  {
  }

  // ----------------------------------------------------------------- applier

  /** The applier is idle only if there is nothing to apply. A newer snapshot comes first;
      otherwise it takes every committed entry after the last applied one, in order. */
  lemma GrabsExactly(p: Peer, stale: seq<Entry>)
    requires 0 < |p.log| && |stale| == Overreach(p)
    ensures var (q, x) := Grab(p, stale);
            && q == p.(lastApplied := q.lastApplied)
            && q.lastApplied == (if p.lastApplied < p.lastIncludedIndex then p.lastIncludedIndex
                                 else if p.lastApplied < p.commitIndex then p.commitIndex else p.lastApplied)
            && (x == SnapshotDue <==> p.lastApplied < p.lastIncludedIndex)
            && (x == Idle <==> p.lastIncludedIndex <= p.lastApplied && p.commitIndex <= p.lastApplied)
            && (x == Idle || x == SnapshotDue || x.Batch?)
            && (x.Batch? ==>
                  && x.start == p.lastApplied + 1 && |x.entries| == p.commitIndex - p.lastApplied
                  && forall j :: 0 <= j < |x.entries| ==>
                       var k := x.start + j - p.lastIncludedIndex;
                       x.entries[j] == if k < |p.log| then p.log[k] else stale[k - |p.log|])
  {
  }
}
