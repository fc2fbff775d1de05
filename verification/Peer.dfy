/** One Raft peer as a value, and what each critical section of the peer computes.

  The log is a window: log[0] stands for the entry at lastIncludedIndex and
  carries its term, log[k] is the entry at lastIncludedIndex + k. Raft.dfy holds
  the class whose methods change its fields the way these functions say.
*/
module Peers {
  import opened Session
  import opened Logs
  import opened Protocol

  // What the persister holds.
  datatype Disk = Disk(currentTerm: nat, votedFor: int, log: seq<Entry>,
                       lastIncludedIndex: nat, lastIncludedTerm: nat, snapshot: Blob)

  datatype Peer = Peer(me: nat, n: nat, currentTerm: nat, votedFor: int, role: Role, log: seq<Entry>,
                       commitIndex: nat, lastApplied: nat, nextIndex: seq<int>, matchIndex: seq<int>,
                       lastIncludedIndex: nat, lastIncludedTerm: nat, snapshot: Blob,
                       voteCount: nat, disk: Disk)
  {
    function LastLogIndex(): int {
      |log| + lastIncludedIndex - 1
    }

    // The window is never empty, and a leader has an entry for every peer.
    predicate Formed() {
      0 < |log| && (role == Leader ==> |nextIndex| == n && |matchIndex| == n)
    }

    // The indices are in order.
    predicate Ordered() {
      && 0 < |log|
      && lastIncludedIndex <= commitIndex <= LastLogIndex()
      && lastApplied <= commitIndex
    }

    // A leader can build its next message to every other peer.
    predicate InRange() {
      Formed() && role == Leader ==>
        forall i :: 0 <= i < n && i != me ==> nextIndex[i] <= LastLogIndex() + 1
    }

    predicate Safe() {
      Formed() && Ordered() && InRange()
    }

    // The entry at an absolute index in the window.
    function At(index: int): Entry
      requires lastIncludedIndex <= index <= LastLogIndex()
    {
      log[index - lastIncludedIndex]
    }

    function Persist(): Peer {
      this.(disk := Disk(currentTerm, votedFor, log, lastIncludedIndex, lastIncludedTerm, snapshot))
    }

    function StepDown(term: nat): Peer {
      this.(currentTerm := term, role := Follower, votedFor := -1).Persist()
    }
  }

  // The peer is in no earlier term, and a vote it has in this term is still there.
  predicate KeepsPromise(p: Peer, q: Peer) {
    q.currentTerm > p.currentTerm || (q.currentTerm == p.currentTerm && (p.votedFor == -1 || q.votedFor == p.votedFor))
  }

  // ------------------------------------------------------------------ messages

  datatype VoteArgs = VoteArgs(term: nat, candidateId: nat, lastLogIndex: nat, lastLogTerm: nat)
  datatype VoteReply = VoteReply(term: nat, voteGranted: bool)
  datatype AppendArgs = AppendArgs(term: nat, leaderId: nat, prevLogIndex: nat, prevLogTerm: nat,
                                   entries: seq<Entry>, leaderCommit: nat)
  datatype AppendReply = AppendReply(term: nat, success: bool, xTerm: int, xIndex: int, xLen: int)
  datatype InstallArgs = InstallArgs(term: nat, leaderId: nat, lastIncludedIndex: nat, lastIncludedTerm: nat, data: Blob)
  datatype InstallReply = InstallReply(term: nat)

  // What a leader sends one follower in one round.
  datatype Round = SendAppend(append: AppendArgs) | SendInstall(install: InstallArgs)

  // ---------------------------------------------------------------- requests

  predicate CandidateUpToDate(p: Peer, a: VoteArgs)
    requires 0 < |p.log|
  {
    var lastTerm := Last(p.log).term;
    lastTerm < a.lastLogTerm || (lastTerm == a.lastLogTerm && p.LastLogIndex() <= a.lastLogIndex)
  }

  function RequestVote(p: Peer, a: VoteArgs): (Peer, VoteReply)
    requires 0 < |p.log|
  {
    if a.term < p.currentTerm then
      (p, VoteReply(p.currentTerm, false))
    else
      var q := if a.term > p.currentTerm then p.StepDown(a.term) else p;
      if (q.votedFor == -1 || q.votedFor == a.candidateId) && CandidateUpToDate(q, a) then
        (q.(votedFor := a.candidateId).Persist(), VoteReply(q.currentTerm, true))
      else
        (q, VoteReply(q.currentTerm, false))
  }

  // The position of the first entry of a term.
  function FirstOf(log: seq<Entry>, term: nat): (k: nat)
    requires exists k :: 0 <= k < |log| && log[k].term == term
    ensures k < |log| && log[k].term == term
    ensures forall j :: 0 <= j < k ==> log[j].term != term
  {
    if log[0].term == term then 0 else 1 + FirstOf(log[1..], term)
  }

  // The position of the last entry of a term, -1 if it has none.
  function LastOf(log: seq<Entry>, term: int): (k: int)
    ensures -1 <= k < |log|
    ensures k >= 0 ==> log[k].term == term
    ensures forall j :: k < j < |log| ==> log[j].term != term
  {
    if |log| == 0 then -1
    else if Last(log).term == term then |log| - 1
    else LastOf(log[..|log| - 1], term)
  }

  function Min(a: int, b: int): int {
    if a < b then a else b
  }

  // The entries match: the log after prevLogIndex is replaced and the commit index follows.
  function Accept(q: Peer, a: AppendArgs): Peer
    requires q.lastIncludedIndex <= a.prevLogIndex <= q.LastLogIndex()
  {
    var r := q.(log := q.log[..a.prevLogIndex - q.lastIncludedIndex + 1] + a.entries).Persist();
    r.(commitIndex := if a.leaderCommit > r.commitIndex then Min(a.leaderCommit, r.LastLogIndex()) else r.commitIndex)
  }

  function AppendEntries(p: Peer, a: AppendArgs): (Peer, AppendReply) {
    if p.currentTerm > a.term then
      (p, AppendReply(p.currentTerm, false, 0, 0, 0))
    else
      var q := (if a.term > p.currentTerm then p.(currentTerm := a.term, votedFor := -1).Persist() else p).(role := Follower);
      var last := q.LastLogIndex();
      if a.prevLogIndex > last then
        (q, AppendReply(q.currentTerm, false, -1, -1, last + 1))
      else if a.prevLogIndex < q.lastIncludedIndex then
        (q, AppendReply(q.currentTerm, false, -1, -1, q.lastIncludedIndex + 1))
      else if q.At(a.prevLogIndex).term != a.prevLogTerm then
        var x := q.At(a.prevLogIndex).term;
        (q, AppendReply(q.currentTerm, false, x, FirstOf(q.log, x) + q.lastIncludedIndex, last + 1))
      else
        (Accept(q, a), AppendReply(q.currentTerm, true, 0, 0, 0))
  }

  // The snapshot is newer than the window: it replaces the log up to its index,
  // and what follows a matching entry stays.
  function Replace(q: Peer, a: InstallArgs): Peer
    requires a.lastIncludedIndex > q.lastIncludedIndex
  {
    var head := Entry(a.lastIncludedTerm, NoCommand);
    var log :=
      if a.lastIncludedIndex <= q.LastLogIndex() && q.At(a.lastIncludedIndex).term == a.lastIncludedTerm
      then [head] + q.log[a.lastIncludedIndex - q.lastIncludedIndex + 1..]
      else [head];
    q.(log := log, lastIncludedIndex := a.lastIncludedIndex, lastIncludedTerm := a.lastIncludedTerm,
       snapshot := a.data,
       commitIndex := if a.lastIncludedIndex > q.commitIndex then a.lastIncludedIndex else q.commitIndex).Persist()
  }

  function InstallSnapshot(p: Peer, a: InstallArgs): (Peer, InstallReply) {
    if a.term < p.currentTerm then
      (p, InstallReply(p.currentTerm))
    else
      var q := p.(role := Follower, currentTerm := a.term);
      if a.lastIncludedIndex <= q.lastIncludedIndex then
        (q, InstallReply(a.term))
      else
        (Replace(q, a), InstallReply(a.term))
  }

  // ------------------------------------------------------------- local actions

  // The service has a snapshot of everything up to index.
  function Compact(p: Peer, index: nat, data: Blob): Peer {
    if index <= p.lastIncludedIndex || index - p.lastIncludedIndex >= |p.log| then p
    else
      var term := p.At(index).term;
      p.(lastIncludedTerm := term,
         log := [Entry(term, NoCommand)] + p.log[index - p.lastIncludedIndex + 1..],
         lastIncludedIndex := index, snapshot := data).Persist()
  }

  // Start: the new peer, the index of the command and the current term.
  function Start(p: Peer, c: Command): (Peer, int, nat) {
    if p.role != Leader then (p, -1, p.currentTerm)
    else (p.(log := p.log + [Entry(p.currentTerm, c)]).Persist(), p.LastLogIndex() + 1, p.currentTerm)
  }

  // The ticker starts an election.
  function Campaign(p: Peer): (Peer, VoteArgs)
    requires 0 < |p.log|
  {
    var q := p.(role := Candidate, currentTerm := p.currentTerm + 1, votedFor := p.me, voteCount := 1).Persist();
    (q, VoteArgs(q.currentTerm, q.me, q.LastLogIndex(), Last(q.log).term))
  }

  // The heartbeat builds what to send peer i.
  function Build(p: Peer, i: nat): Round
    requires i < |p.nextIndex| && 0 < |p.log| && p.nextIndex[i] <= p.LastLogIndex() + 1
  {
    if p.nextIndex[i] <= p.lastIncludedIndex then
      SendInstall(InstallArgs(p.currentTerm, p.me, p.lastIncludedIndex, p.lastIncludedTerm, p.snapshot))
    else
      var prev := p.nextIndex[i] - 1;
      SendAppend(AppendArgs(p.currentTerm, p.me, prev, p.At(prev).term,
                            p.log[p.nextIndex[i] - p.lastIncludedIndex..], p.commitIndex))
  }

  // Restart from disk.
  function Make(me: nat, n: nat, d: Disk): Peer {
    Peer(me, n, d.currentTerm, d.votedFor, Follower, d.log, d.lastIncludedIndex, d.lastIncludedIndex, [], [],
         d.lastIncludedIndex, d.lastIncludedTerm, d.snapshot, 0, d)
  }

  // ------------------------------------------------------------------- replies

  function Majority(n: nat): nat {
    n / 2 + 1
  }

  function Filled(n: nat, x: int): (s: seq<int>)
    ensures |s| == n && forall i :: 0 <= i < n ==> s[i] == x
  {
    seq(n, i => x)
  }

  function OnVoteReply(p: Peer, a: VoteArgs, r: VoteReply): Peer
    requires 0 < |p.log|
  {
    if r.term > a.term then p.StepDown(r.term)
    else if p.currentTerm != a.term || p.role != Candidate then p
    else
      var q := if r.voteGranted then p.(voteCount := p.voteCount + 1) else p;
      if q.voteCount >= Majority(q.n)
      then q.(role := Leader, nextIndex := Filled(q.n, q.LastLogIndex() + 1), matchIndex := Filled(q.n, 0))
      else q
  }

  // Where to back off to after a rejection.
  function BackOff(p: Peer, r: AppendReply): int
  {
    if r.xTerm == -1 then r.xLen
    else
      var k := LastOf(p.log, r.xTerm);
      if k == -1 then r.xIndex else k + p.lastIncludedIndex + 1
  }

  // How many of the peers below k, other than me, have matched index i.
  function Matched(p: Peer, i: int, k: nat): nat
    requires k <= |p.matchIndex|
  {
    if k == 0 then 0
    else Matched(p, i, k - 1) + if k - 1 != p.me && p.matchIndex[k - 1] >= i then 1 else 0
  }

  // The servers that have index i of the leader's log, as far as the leader knows.
  function Holders(p: Peer, i: int, k: nat): set<nat>
    requires k <= |p.matchIndex|
  {
    set u: nat | u < k && (u == p.me || p.matchIndex[u] >= i)
  }

  // Counting them, starting from the leader itself, misses nobody and counts nobody twice.
  lemma {:induction false} MatchedCounts(p: Peer, i: int, k: nat)
    requires k <= |p.matchIndex|
    ensures Matched(p, i, k) + (if p.me < k then 1 else 0) == |Holders(p, i, k)|
  {
    if k == 0 {
      assert Holders(p, i, 0) == {};
    } else {
      MatchedCounts(p, i, k - 1);
      if k - 1 == p.me || p.matchIndex[k - 1] >= i {
        assert Holders(p, i, k) == Holders(p, i, k - 1) + {k - 1};
      } else {
        assert Holders(p, i, k) == Holders(p, i, k - 1);
      }
    }
  }

  // The commit rule may pick index i: it is of the current term, and a majority has matched it.
  predicate Committable(p: Peer, i: nat)
    requires p.lastIncludedIndex <= i <= p.LastLogIndex()
  {
    p.At(i).term == p.currentTerm && 1 + Matched(p, i, |p.matchIndex|) >= Majority(p.n)
  }

  // The commit rule: the highest such index at or below i, above the commit index;
  // the commit index if there is none.
  function CommitTarget(p: Peer, i: nat): nat
    requires i <= p.LastLogIndex()
  {
    if i <= p.commitIndex || i < p.lastIncludedIndex then p.commitIndex
    else if Committable(p, i) then i
    else CommitTarget(p, i - 1)
  }

  // The search for it, from i down, does not leave the window.
  predicate SearchStays(p: Peer, i: nat)
    requires i <= p.LastLogIndex()
  {
    i <= p.commitIndex || (p.lastIncludedIndex <= i && (Committable(p, i) || SearchStays(p, i - 1)))
  }

  // A leader that recorded how much of its log a peer has.
  function MatchedUpTo(p: Peer, from: nat, i: nat): Peer
    requires from < |p.nextIndex| && from < |p.matchIndex|
  {
    p.(nextIndex := p.nextIndex[from := i + 1], matchIndex := p.matchIndex[from := i])
  }

  function OnAppendReply(p: Peer, from: nat, a: AppendArgs, r: AppendReply): Peer
    requires p.Formed() && from < p.n
  {
    if r.term > a.term then p.StepDown(r.term)
    else if p.currentTerm != a.term || p.role != Leader then p
    else if !r.success then p.(nextIndex := p.nextIndex[from := BackOff(p, r)])
    else
      var q := MatchedUpTo(p, from, a.prevLogIndex + |a.entries|);
      q.(commitIndex := CommitTarget(q, q.LastLogIndex()))
  }

  // Handling the reply indexes nothing outside the log.
  predicate ReplyStays(p: Peer, from: nat, a: AppendArgs, r: AppendReply)
    requires p.Formed() && from < p.n
  {
    r.term <= a.term && p.currentTerm == a.term && p.role == Leader && r.success ==>
      SearchStays(MatchedUpTo(p, from, a.prevLogIndex + |a.entries|), p.LastLogIndex())
  }

  function OnInstallReply(p: Peer, from: nat, a: InstallArgs, r: InstallReply): Peer
    requires p.Formed() && from < p.n
  {
    if r.term > a.term then p.StepDown(r.term)
    else if p.currentTerm != a.term || p.role != Leader then p
    else MatchedUpTo(p, from, a.lastIncludedIndex)
  }

  // ------------------------------------------------------------------- applier

  // What the applier goroutine still has to put on the apply channel: a snapshot it has
  // yet to read from the peer, one it has read, or a batch of entries.
  datatype Applier = Idle | SnapshotDue | SnapshotHeld(index: nat, data: Blob) | Batch(start: nat, entries: seq<Entry>)

  // How far beyond the end of the log the applier's next batch reaches.
  function Overreach(p: Peer): nat {
    if p.lastIncludedIndex <= p.lastApplied < p.commitIndex && p.LastLogIndex() < p.commitIndex
    then p.commitIndex - p.LastLogIndex() else 0
  }

  // The applier's next batch. stale is what the slice expression finds beyond the end of the log.
  function Grab(p: Peer, stale: seq<Entry>): (Peer, Applier)
    requires 0 < |p.log| && |stale| == Overreach(p)
  {
    if p.lastApplied < p.lastIncludedIndex then
      (p.(lastApplied := p.lastIncludedIndex), SnapshotDue)
    else if p.commitIndex > p.lastApplied then
      var log := p.log + stale;
      (p.(lastApplied := p.commitIndex),
       Batch(p.lastApplied + 1, log[p.lastApplied + 1 - p.lastIncludedIndex..p.commitIndex - p.lastIncludedIndex + 1]))
    else
      (p, Idle)
  }
}
