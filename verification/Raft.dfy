/** The Raft peer as an object whose methods change its fields in place. */
module RaftPeer {
  import opened Session
  import opened Logs
  import opened Protocol
  import opened Peers

  // Stable storage. Save is atomic.
  class Persister {
    var disk: Disk

    constructor (d: Disk)
      ensures disk == d
    {
      disk := d;
    }

    method Save(d: Disk)
      modifies this
      ensures disk == d
    {
      disk := d;
    }
  }

  class Raft {
    const me: nat
    const n: nat
    const persister: Persister
    var currentTerm: nat
    var votedFor: int
    var currentRole: Role
    var log: seq<Entry>
    var commitIndex: nat
    var lastApplied: nat
    var nextIndex: seq<int>
    var matchIndex: seq<int>
    var lastIncludedIndex: nat
    var lastIncludedTerm: nat
    var snapshot: Blob
    var voteCount: nat

    // The peer as a value.
    function View(): Peer
      reads this, persister
    {
      Peer(me, n, currentTerm, votedFor, currentRole, log, commitIndex, lastApplied, nextIndex, matchIndex,
           lastIncludedIndex, lastIncludedTerm, snapshot, voteCount, persister.disk)
    }

    constructor (me: nat, n: nat, persister: Persister)
      ensures this.persister == persister && persister.disk == old(persister.disk)
      ensures View() == Make(me, n, persister.disk)
    {
      this.me, this.n, this.persister := me, n, persister;
      currentRole, nextIndex, matchIndex, voteCount := Follower, [], [], 0;
      currentTerm, votedFor, log := persister.disk.currentTerm, persister.disk.votedFor, persister.disk.log;
      lastIncludedIndex, lastIncludedTerm := persister.disk.lastIncludedIndex, persister.disk.lastIncludedTerm;
      snapshot := persister.disk.snapshot;
      lastApplied, commitIndex := persister.disk.lastIncludedIndex, persister.disk.lastIncludedIndex;
    }

    method Persist()
      modifies persister
      ensures View() == old(View()).Persist()
    {
      persister.Save(Disk(currentTerm, votedFor, log, lastIncludedIndex, lastIncludedTerm, snapshot));
    }

    function LogIndex(index: int): int
      reads this
    {
      index - lastIncludedIndex
    }

    function LastLogIndex(): int
      reads this
    {
      |log| + lastIncludedIndex - 1
    }

    method StepDown(term: nat)
      modifies this, persister
      ensures View() == old(View()).StepDown(term)
    {
      currentTerm := term;
      currentRole := Follower;
      votedFor := -1;
      Persist();
    }

    // ---------------------------------------------------------------- handlers

    method RequestVote(args: VoteArgs) returns (reply: VoteReply)
      requires 0 < |log|
      modifies this, persister
      ensures (View(), reply) == Peers.RequestVote(old(View()), args)
    {
      if args.term < currentTerm {
        return VoteReply(currentTerm, false);
      } else if args.term > currentTerm {
        StepDown(args.term);
      }
      if votedFor == -1 || votedFor == args.candidateId {
        var lastIndex := LastLogIndex();
        var lastTerm := log[LogIndex(lastIndex)].term;
        if lastTerm < args.lastLogTerm || (lastTerm == args.lastLogTerm && lastIndex <= args.lastLogIndex) {
          votedFor := args.candidateId;
          Persist();
          return VoteReply(currentTerm, true);
        }
      }
      return VoteReply(currentTerm, false);
    }

    // The absolute index of the first entry of a term.
    method FirstIndexOf(term: nat) returns (index: nat)
      requires exists k :: 0 <= k < |log| && log[k].term == term
      ensures index == FirstOf(log, term) + lastIncludedIndex
    {
      var i := 0;
      while i < |log|
        invariant 0 <= i <= |log|
        invariant forall j :: 0 <= j < i ==> log[j].term != term
      {
        if log[i].term == term {
          assert i == FirstOf(log, term);
          return i + lastIncludedIndex;
        }
        i := i + 1;
      }
    }

    method AppendEntries(args: AppendArgs) returns (reply: AppendReply)
      modifies this, persister
      ensures (View(), reply) == Peers.AppendEntries(old(View()), args)
    {
      if currentTerm > args.term {
        return AppendReply(currentTerm, false, 0, 0, 0);
      } else if args.term > currentTerm {
        currentTerm := args.term;
        votedFor := -1;
        Persist();
      }
      currentRole := Follower;
      if args.prevLogIndex > LastLogIndex() {
        return AppendReply(currentTerm, false, -1, -1, LastLogIndex() + 1);
      }
      if args.prevLogIndex < lastIncludedIndex {
        return AppendReply(currentTerm, false, -1, -1, lastIncludedIndex + 1);
      }
      if log[LogIndex(args.prevLogIndex)].term != args.prevLogTerm {
        var conflictingTerm := log[LogIndex(args.prevLogIndex)].term;
        var first := FirstIndexOf(conflictingTerm);
        return AppendReply(currentTerm, false, conflictingTerm, first, LastLogIndex() + 1);
      }
      Accept(args);
      return AppendReply(currentTerm, true, 0, 0, 0);
    }

    method Accept(args: AppendArgs)
      requires lastIncludedIndex <= args.prevLogIndex <= LastLogIndex()
      modifies this, persister
      ensures View() == Peers.Accept(old(View()), args)
    {
      log := log[..LogIndex(args.prevLogIndex) + 1] + args.entries;
      Persist();
      if args.leaderCommit > commitIndex {
        if args.leaderCommit < LastLogIndex() {
          commitIndex := args.leaderCommit;
        } else {
          commitIndex := LastLogIndex();
        }
      }
    }

    method InstallSnapshot(args: InstallArgs) returns (reply: InstallReply)
      modifies this, persister
      ensures (View(), reply) == Peers.InstallSnapshot(old(View()), args)
    {
      if args.term < currentTerm {
        return InstallReply(currentTerm);
      }
      currentRole := Follower;
      if args.term > currentTerm {
        currentTerm := args.term;
      }
      reply := InstallReply(args.term);
      if args.lastIncludedIndex <= lastIncludedIndex {
        return;
      }
      Replace(args);
    }

    method Replace(args: InstallArgs)
      requires args.lastIncludedIndex > lastIncludedIndex
      modifies this, persister
      ensures View() == Peers.Replace(old(View()), args)
    {
      if args.lastIncludedIndex <= LastLogIndex() && log[LogIndex(args.lastIncludedIndex)].term == args.lastIncludedTerm {
        var newLog := [Entry(args.lastIncludedTerm, NoCommand)];
        log := newLog + log[LogIndex(args.lastIncludedIndex) + 1..];
      } else {
        log := [Entry(args.lastIncludedTerm, NoCommand)];
      }
      lastIncludedIndex := args.lastIncludedIndex;
      lastIncludedTerm := args.lastIncludedTerm;
      snapshot := args.data;
      if args.lastIncludedIndex > commitIndex {
        commitIndex := args.lastIncludedIndex;
      }
      Persist();
    }

    // ------------------------------------------------------------ local actions

    method Snapshot(index: nat, data: Blob)
      modifies this, persister
      ensures View() == Compact(old(View()), index, data)
    {
      if index <= lastIncludedIndex || LogIndex(index) >= |log| {
        return;
      }
      lastIncludedTerm := log[LogIndex(index)].term;
      var newLog := [Entry(lastIncludedTerm, NoCommand)];
      newLog := newLog + log[LogIndex(index) + 1..];
      lastIncludedIndex := index;
      log := newLog;
      snapshot := data;
      Persist();
    }

    method Start(command: Command) returns (index: int, term: nat, isLeader: bool)
      modifies this, persister
      ensures (View(), index, term) == Peers.Start(old(View()), command)
      ensures isLeader <==> old(currentRole) == Leader
    {
      index, isLeader := -1, true;
      if currentRole != Leader {
        isLeader := false;
      } else {
        index := LastLogIndex() + 1;
        log := log + [Entry(currentTerm, command)];
        Persist();
      }
      term := currentTerm;
    }

    method StartElection() returns (args: VoteArgs)
      requires 0 < |log|
      modifies this, persister
      ensures (View(), args) == Campaign(old(View()))
    {
      currentRole := Candidate;
      currentTerm := currentTerm + 1;
      votedFor := me;
      Persist();
      var lastIndex := LastLogIndex();
      args := VoteArgs(currentTerm, me, lastIndex, log[LogIndex(lastIndex)].term);
      voteCount := 1;
    }

    // What one heartbeat sends: an AppendEntries or an InstallSnapshot to every other peer.
    method BuildRound() returns (rounds: seq<Round>)
      requires View().Formed() && View().InRange() && currentRole == Leader
      ensures |rounds| == n
      ensures forall i :: 0 <= i < n && i != me ==> rounds[i] == Build(View(), i)
    {
      rounds := [];
      for i := 0 to n
        invariant |rounds| == i
        invariant forall j :: 0 <= j < i && j != me ==> rounds[j] == Build(View(), j)
      {
        if i == me {
          rounds := rounds + [SendInstall(InstallArgs(0, 0, 0, 0, NoBlob))];
        } else if nextIndex[i] <= lastIncludedIndex {
          rounds := rounds + [SendInstall(InstallArgs(currentTerm, me, lastIncludedIndex, lastIncludedTerm, snapshot))];
        } else {
          var prevLogIndex := nextIndex[i] - 1;
          var prevLogTerm := log[LogIndex(prevLogIndex)].term;
          var entries := log[LogIndex(nextIndex[i])..];
          rounds := rounds + [SendAppend(AppendArgs(currentTerm, me, prevLogIndex, prevLogTerm, entries, commitIndex))];
        }
      }
    }

    // ------------------------------------------------------------------ replies

    method OnVoteReply(args: VoteArgs, reply: VoteReply)
      requires 0 < |log|
      modifies this, persister
      ensures View() == Peers.OnVoteReply(old(View()), args, reply)
    {
      if reply.term > args.term {
        StepDown(reply.term);
        return;
      }
      if currentTerm != args.term || currentRole != Candidate {
        return;
      }
      if reply.voteGranted {
        voteCount := voteCount + 1;
      }
      if voteCount >= n / 2 + 1 && currentRole != Leader {
        BecomeLeader();
      }
    }

    method BecomeLeader()
      modifies this`currentRole, this`nextIndex, this`matchIndex
      ensures currentRole == Leader
      ensures nextIndex == Filled(n, LastLogIndex() + 1) && matchIndex == Filled(n, 0)
    {
      currentRole := Leader;
      var leaderLogIndex := LastLogIndex();
      nextIndex, matchIndex := [], [];
      for i := 0 to n
        invariant currentRole == Leader && |nextIndex| == |matchIndex| == i
        invariant forall j :: 0 <= j < i ==> nextIndex[j] == leaderLogIndex + 1 && matchIndex[j] == 0
      {
        nextIndex := nextIndex + [leaderLogIndex + 1];
        matchIndex := matchIndex + [0];
      }
    }

    // The absolute index of the last entry of a term, -1 if the window has none.
    method LastIndexOf(term: int) returns (index: int)
      ensures index == if LastOf(log, term) == -1 then -1 else LastOf(log, term) + lastIncludedIndex
    {
      var i := LastLogIndex();
      assert log == log[..LogIndex(i) + 1];
      while i >= lastIncludedIndex
        invariant lastIncludedIndex - 1 <= i <= LastLogIndex()
        invariant LastOf(log, term) == LastOf(log[..LogIndex(i) + 1], term)
      {
        var rest := log[..LogIndex(i) + 1];
        assert rest[..|rest| - 1] == log[..LogIndex(i)];
        if log[LogIndex(i)].term == term {
          return i;
        }
        i := i - 1;
      }
      return -1;
    }

    // How many peers, this one included, have matched index i.
    method CountMatched(i: int) returns (count: nat)
      requires |matchIndex| == n
      ensures count == 1 + Matched(View(), i, n)
      ensures me < n ==> count == |set u: nat | u < n && (u == me || matchIndex[u] >= i)|
    {
      MatchedCounts(View(), i, n);
      assert Holders(View(), i, n) == set u: nat | u < n && (u == me || matchIndex[u] >= i);
      count := 1;
      for j := 0 to n
        invariant count == 1 + Matched(View(), i, j)
      {
        if j != me && matchIndex[j] >= i {
          count := count + 1;
        }
      }
    }

    // The commit rule.
    method AdvanceCommit()
      requires 0 < |log| && |matchIndex| == n && SearchStays(View(), LastLogIndex())
      modifies this`commitIndex
      ensures View() == old(View()).(commitIndex := CommitTarget(old(View()), old(View()).LastLogIndex()))
    {
      var i := LastLogIndex();
      while i > commitIndex
        invariant 0 <= i <= LastLogIndex() && View() == old(View())
        invariant SearchStays(View(), i)
        invariant CommitTarget(View(), i) == CommitTarget(View(), LastLogIndex())
        decreases i
      {
        if log[LogIndex(i)].term == currentTerm {
          var count := CountMatched(i);
          if count >= n / 2 + 1 {
            commitIndex := i;
            return;
          }
        }
        i := i - 1;
      }
    }

    method OnAppendReply(from: nat, args: AppendArgs, reply: AppendReply)
      requires View().Formed() && from < n && ReplyStays(View(), from, args, reply)
      modifies this, persister
      ensures View() == Peers.OnAppendReply(old(View()), from, args, reply)
    {
      if reply.term > args.term {
        StepDown(reply.term);
        return;
      }
      if currentTerm != args.term || currentRole != Leader {
        return;
      }
      if !reply.success {
        if reply.xTerm == -1 {
          nextIndex := nextIndex[from := reply.xLen];
        } else {
          var lastXTermIndex := LastIndexOf(reply.xTerm);
          if lastXTermIndex == -1 {
            nextIndex := nextIndex[from := reply.xIndex];
          } else {
            nextIndex := nextIndex[from := lastXTermIndex + 1];
          }
        }
      } else {
        nextIndex := nextIndex[from := args.prevLogIndex + |args.entries| + 1];
        matchIndex := matchIndex[from := nextIndex[from] - 1];
        AdvanceCommit();
      }
    }

    method OnInstallReply(from: nat, args: InstallArgs, reply: InstallReply)
      requires View().Formed() && from < n
      modifies this, persister
      ensures View() == Peers.OnInstallReply(old(View()), from, args, reply)
    {
      if reply.term > args.term {
        StepDown(reply.term);
        return;
      }
      if currentTerm != args.term || currentRole != Leader {
        return;
      }
      nextIndex := nextIndex[from := args.lastIncludedIndex + 1];
      matchIndex := matchIndex[from := args.lastIncludedIndex];
    }

    // ------------------------------------------------------------------ applier

    // stale is what the array behind the log holds beyond the log's end, if the slice reaches there.
    method TakeCommitted(stale: seq<Entry>) returns (due: Applier)
      requires 0 < |log| && |stale| == Overreach(View())
      modifies this`lastApplied
      ensures (View(), due) == Grab(old(View()), stale)
    {
      if lastApplied < lastIncludedIndex {
        lastApplied := lastIncludedIndex;
        return SnapshotDue;
      }
      if commitIndex > lastApplied {
        var entries := (log + stale)[LogIndex(lastApplied + 1)..LogIndex(commitIndex) + 1];
        due := Batch(lastApplied + 1, entries);
        lastApplied := commitIndex;
      } else {
        due := Idle;
      }
    }
  }
}
