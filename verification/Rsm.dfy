/** The replicated state machine layer as an object: Submit's critical sections, the reader and the leader check. */
module Rsms {
  import opened Basics
  import opened Session
  import opened Logs
  import opened Protocol
  import opened Peers
  import opened Waiters
  import opened Clusters
  import opened CollabServers
  import opened RaftPeer

  // What executing a message does to the state machine.
  function Played(s: Sessions, m: ApplyMsg): Sessions {
    match m
    case ApplyCommand(_, c) => Execute(s, c)
    case ApplySnapshot(_, b) => RestoreFrom(s, b)
  }

  function PlayedAll(s: Sessions, ms: seq<ApplyMsg>): Sessions {
    if |ms| == 0 then s else Played(PlayedAll(s, ms[..|ms| - 1]), ms[|ms| - 1])
  }

  // What the reader owes those who wait, after a message.
  function Owed(m: ApplyMsg): Due {
    match m
    case ApplyCommand(i, Op(_, id)) => AnswerDue(i, id)
    case ApplyCommand(_, NoCommand) => Nothing
    case ApplySnapshot(_, _) => WakeDue
  }

  // The operation a message carries, by index and id.
  function Operation(m: ApplyMsg): set<(int, int)> {
    match m
    case ApplyCommand(i, Op(_, id)) => {(i, id)}
    case _ => {}
  }

  function Operations(ms: seq<ApplyMsg>): set<(int, int)> {
    if |ms| == 0 then {} else Operations(ms[..|ms| - 1]) + Operation(ms[|ms| - 1])
  }

  ghost predicate CanPay(t: Table, due: Due) {
    match due
    case Nothing => true
    case AnswerDue(i, _) => RoomAt(t, {i})
    case WakeDue => RoomAt(t, t.channels.Keys)
  }

  ghost function Paid(t: Table, due: Due): Table {
    match due
    case Nothing => t
    case AnswerDue(i, id) => Answer(t, i, id)
    case WakeDue => WakeAll(t)
  }

  // The table after the reader told whoever it owed, message after message.
  ghost function PaidAll(t: Table, ms: seq<ApplyMsg>): Table {
    if |ms| == 0 then t else Paid(PaidAll(t, ms[..|ms| - 1]), Owed(ms[|ms| - 1]))
  }

  // How the reader ends: the apply channel was closed and everyone waiting was told,
  // or a send to a full channel blocks it, in a message or at the end.
  datatype End = AllTold | StuckReading | StuckClosing

  // The reader got stuck in a message: some of those waiting were told, and forgotten.
  ghost predicate StuckAt(t: Table, m: ApplyMsg, told: set<int>, u: Table) {
    !CanPay(t, Owed(m)) && told < t.channels.Keys && u == Woken(t, told)
  }

  lemma FailNobody(t: Table)
    ensures Fail(t, {}) == t && Forget(t, {}) == t
  {
    forall k | 0 <= k < |t.calls|
      ensures Fail(t, {}).calls[k] == t.calls[k]
    {
      assert !WaitsAt(t, {}, k);
    }
  }

  // One more is told: i, of those left.
  lemma FailOneMore(t: Table, me: nat, all: set<int>, left: set<int>, i: int)
    requires Consistent(t, me) && left <= all <= t.channels.Keys && i in left && RoomAt(t, all - left)
    ensures t.channels[i] < |t.calls|
    ensures Room(Fail(t, all - left), t.channels[i]) == Room(t, t.channels[i])
    ensures Room(t, t.channels[i]) ==> RoomAt(t, all - (left - {i}))
    ensures Send(Fail(t, all - left), t.channels[i], ErrWrongLeader) == Fail(t, all - (left - {i}))
  {
    var k, done := t.channels[i], all - left;
    assert all - (left - {i}) == done + {i};
    assert RegisteredOk(t, i);
    forall j | j in done && j in t.channels
      ensures t.channels[j] != k
    {
      assert RegisteredOk(t, j);
    }
    assert !WaitsAt(t, done, k) && WaitsAt(t, done + {i}, k);
    forall h | 0 <= h < |t.calls| && h != k
      ensures WaitsAt(t, done, h) <==> WaitsAt(t, done + {i}, h)
    {
    }
    assert Send(Fail(t, done), k, ErrWrongLeader).calls == Fail(t, done + {i}).calls;
  }

  // Those who waited at these indices gave up and are forgotten.
  ghost function Woken(t: Table, told: set<int>): Table {
    Forget(Fail(t, told), told)
  }

  lemma WakeOneMore(t: Table, me: nat, all: set<int>, left: set<int>, i: int)
    requires Consistent(t, me) && left <= all <= t.channels.Keys && i in left && RoomAt(t, all - left)
    ensures t.channels[i] < |t.calls| && i in Woken(t, all - left).channels && Woken(t, all - left).channels[i] == t.channels[i]
    ensures Room(Woken(t, all - left), t.channels[i]) == Room(t, t.channels[i])
    ensures Room(t, t.channels[i]) ==> RoomAt(t, all - (left - {i}))
    ensures Forget(Send(Woken(t, all - left), t.channels[i], ErrWrongLeader), {i}) == Woken(t, all - (left - {i}))
  {
    FailOneMore(t, me, all, left, i);
    var told, done := all - (left - {i}), all - left;
    assert t.channels - told == t.channels - done - {i};
    assert t.chanIds - told == t.chanIds - done - {i};
    assert t.chanTerms - told == t.chanTerms - done - {i};
  }

  // What the first k + 1 messages do is what the last of them does after the others.
  lemma OneMoreRead(s: Sessions, t: Table, ms: seq<ApplyMsg>, k: nat)
    requires k < |ms|
    ensures PlayedAll(s, ms[..k + 1]) == Played(PlayedAll(s, ms[..k]), ms[k])
    ensures Operations(ms[..k + 1]) == Operations(ms[..k]) + Operation(ms[k])
    ensures PaidAll(t, ms[..k + 1]) == Paid(PaidAll(t, ms[..k]), Owed(ms[k]))
  {
    assert ms[..k + 1][..k] == ms[..k];
  }

  class Rsm {
    const me: nat
    const rf: Raft
    const sm: CollabServer
    var nextId: nat
    var calls: seq<Call>
    var channels: map<int, nat>
    var chanIds: map<int, nat>
    var chanTerms: map<int, nat>
    // History: the index and id of every operation the reader executed.
    ghost var executed: set<(int, int)>

    function View(): Table
      reads this
    {
      Table(nextId, calls, channels, chanIds, chanTerms)
    }

    ghost predicate Valid()
      reads this, sm
    {
      TableOk(View(), me, executed) && sm.Valid()
    }

    constructor (me: nat, rf: Raft, sm: CollabServer)
      requires sm.Valid()
      ensures this.me == me && this.rf == rf && this.sm == sm
      ensures View() == EMPTY_TABLE && executed == {} && Valid()
    {
      this.me, this.rf, this.sm := me, rf, sm;
      nextId, calls, channels, chanIds, chanTerms, executed := 0, [], map[], map[], map[], {};
    }

    // ------------------------------------------------------------------- Submit

    // The call takes an id no other call of this incarnation has, while there are fewer than 2^32.
    method NewCall(req: Request) returns (k: nat)
      requires Valid()
      modifies this`nextId, this`calls
      ensures Valid() && View() == Enter(old(View()), me, req) && k == |old(calls)|
      ensures |calls| < WORD ==> forall j :: 0 <= j < |calls| && j != k ==> calls[j].id != calls[k].id
    {
      nextId := nextId + 1;
      k := |calls|;
      calls := calls + [Call(req, OpId(me, nextId), -1, 0, Named, [])];
      EnterOk(old(View()), me, executed, req);
      forall j: nat | j < |calls| && j != k && |calls| < WORD
        ensures calls[j].id != calls[k].id
      {
        OpIdsCoincide(me, j + 1, me, k + 1);
      }
    }

    // The call starts agreement on its operation; without a leader it is over.
    method StartCall(k: nat)
      requires Valid() && k < |calls| && calls[k].stage == Named
      modifies this`calls, rf, rf.persister
      ensures Valid()
      ensures var (q, index, term) := Peers.Start(old(rf.View()), Op(old(calls[k].req), old(calls[k].id)));
              rf.View() == q && View() == Started(old(View()), k, index, term, old(rf.currentRole) == Leader)
    {
      var index, term, isLeader := rf.Start(Op(calls[k].req, calls[k].id));
      StartedOk(View(), me, executed, k, index, term, isLeader);
      calls := calls[k := calls[k].(index := index, term := term,
                                    stage := if isLeader then Accepted else Returned(ErrWrongLeader))];
    }

    // The call waits at the index Start gave it. A call registered there already is forgotten.
    method RegisterCall(k: nat)
      requires Valid() && k < |calls| && calls[k].stage == Accepted
      modifies this`calls, this`channels, this`chanIds, this`chanTerms
      ensures Valid() && View() == Register(old(View()), k)
    {
      RegisterOk(View(), me, executed, k);
      var call := calls[k];
      channels := channels[call.index := k];
      chanIds := chanIds[call.index := call.id];
      chanTerms := chanTerms[call.index := call.term];
      calls := calls[k := call.(stage := Waiting)];
    }

    /** The call receives its result. If it is Ok, the reader of this replica executed an
        operation with the call's id at the index Start gave. */
    method HearResult(k: nat) returns (result: OpResult)
      requires Valid() && k < |calls| && calls[k].stage == Waiting && |calls[k].sent| > 0
      modifies this`calls
      ensures Valid() && View() == Hear(old(View()), k) && calls[k].stage == Heard(result)
      ensures result == Ok ==> (calls[k].index, calls[k].id) in executed
    {
      HearOk(View(), me, executed, k);
      result := calls[k].sent[0];
      calls := calls[k := calls[k].(stage := Heard(result))];
    }

    method FinishCall(k: nat) returns (result: OpResult)
      requires Valid() && k < |calls| && calls[k].stage.Heard?
      modifies this`calls, this`channels, this`chanIds, this`chanTerms
      ensures Valid() && View() == Finish(old(View()), k) && calls[k].stage == Returned(result)
    {
      FinishOk(View(), me, executed, k);
      result := calls[k].stage.heard;
      channels := channels - {calls[k].index};
      chanIds := chanIds - {calls[k].index};
      chanTerms := chanTerms - {calls[k].index};
      calls := calls[k := calls[k].(stage := Returned(result))];
    }

    // -------------------------------------------------------------------- sends

    // One result to call k. A full channel blocks the sender, which holds the lock.
    method SendTo(k: nat, r: OpResult) returns (stuck: bool)
      requires k < |calls|
      modifies this`calls
      ensures stuck <==> !Room(old(View()), k)
      ensures View() == if stuck then old(View()) else Send(old(View()), k, r)
      ensures var x := old(calls[k]);
              && (stuck <==> |x.sent| >= if x.stage.Heard? || x.stage.Returned? then 2 else 1)
              && calls == if stuck then old(calls) else old(calls)[k := x.(sent := x.sent + [r])]
    {
      if |calls[k].sent| >= if calls[k].stage.Heard? || calls[k].stage.Returned? then 2 else 1 {
        return true;
      }
      calls := calls[k := calls[k].(sent := calls[k].sent + [r])];
      stuck := false;
    }

    // An error to each of the calls that wait at these indices. told: where it was sent.
    method SendErrors(indices: set<int>) returns (stuck: bool, ghost told: set<int>)
      requires Valid() && indices <= channels.Keys
      modifies this`calls
      ensures Valid() && told <= indices && View() == Fail(old(View()), told)
      ensures stuck <==> told != indices
      ensures stuck <==> !RoomAt(old(View()), indices)
    {
      ghost var t := View();
      var left := indices;
      FailNobody(t);
      assert indices - left == {};
      while |left| > 0
        invariant left <= indices && View() == Fail(t, indices - left) && RoomAt(t, indices - left)
        decreases left
      {
        var i := AnyOf(left);
        FailOneMore(t, me, indices, left, i);
        stuck := SendTo(channels[i], ErrWrongLeader);
        if stuck {
          FailOk(t, me, executed, indices - left);
          return true, indices - left;
        }
        left := left - {i};
      }
      assert indices - left == indices;
      FailOk(t, me, executed, indices);
      return false, indices;
    }

    // ------------------------------------------------------------------- reader

    // The reader tells whoever waits at this index whether the operation executed there was theirs.
    method AnswerWaiter(index: int, id: int) returns (stuck: bool)
      requires Valid() && (index, id) in executed
      modifies this`calls
      ensures Valid() && (stuck <==> !RoomAt(old(View()), {index}))
      ensures View() == if stuck then old(View()) else Answer(old(View()), index, id)
    {
      assert RegisteredOk(View(), index);
      if index !in channels {
        return false;
      }
      AnswerOk(View(), me, executed, index, id);
      assert index in {index};
      if id != chanIds[index] {
        stuck := SendTo(channels[index], ErrWrongLeader);
      } else {
        stuck := SendTo(channels[index], Ok);
      }
    }

    // Whoever waits at this index gives up and is forgotten.
    method WakeOne(i: int) returns (stuck: bool)
      requires i in channels && channels[i] < |calls|
      modifies this`calls, this`channels, this`chanIds, this`chanTerms
      ensures stuck <==> !Room(old(View()), old(channels[i]))
      ensures View() == if stuck then old(View()) else Forget(Send(old(View()), old(channels[i]), ErrWrongLeader), {i})
    {
      stuck := SendTo(channels[i], ErrWrongLeader);
      if !stuck {
        channels, chanIds, chanTerms := channels - {i}, chanIds - {i}, chanTerms - {i};
      }
    }

    // Everyone waiting gives up and is forgotten, one after the other.
    method WakeEveryone() returns (stuck: bool, ghost told: set<int>)
      requires Valid()
      modifies this`calls, this`channels, this`chanIds, this`chanTerms
      ensures Valid() && told <= old(channels).Keys && View() == Woken(old(View()), told)
      ensures stuck <==> told != old(channels).Keys
      ensures stuck <==> !RoomAt(old(View()), old(channels).Keys)
    {
      ghost var t := View();
      var left := channels.Keys;
      ghost var all := left;
      FailNobody(t);
      assert all - left == {};
      while |left| > 0
        invariant left <= all && View() == Woken(t, all - left) && RoomAt(t, all - left)
        decreases left
      {
        var i := AnyOf(left);
        WakeOneMore(t, me, all, left, i);
        stuck := WakeOne(i);
        if stuck {
          WakeSomeOk(t, me, executed, all - left);
          return true, all - left;
        }
        left := left - {i};
      }
      assert all - left == all;
      WakeSomeOk(t, me, executed, all);
      return false, all;
    }

    // Everyone who registered in an earlier term gives up.
    method CheckTerm(term: nat) returns (stuck: bool, ghost told: set<int>)
      requires Valid()
      modifies this`calls
      ensures Valid() && told <= Earlier(old(View()), term) && View() == Fail(old(View()), told)
      ensures !stuck ==> View() == CheckLeader(old(View()), term)
      ensures !stuck ==> |calls| == |old(calls)| && forall k {:trigger calls[k]} :: 0 <= k < |calls| ==>
                var x := old(calls[k]);
                var late := x.index in channels && channels[x.index] == k && chanTerms[x.index] < term;
                calls[k] == x.(sent := x.sent + if late then [ErrWrongLeader] else [])
      ensures forall i :: i in told ==> chanTerms[i] < term
      ensures stuck <==> told != Earlier(old(View()), term)
      ensures stuck <==> !RoomAt(old(View()), Earlier(old(View()), term))
    {
      ghost var t := View();
      stuck, told := SendErrors(Earlier(View(), term));
      forall k | 0 <= k < |t.calls|
        ensures CheckLeader(t, term).calls[k] == GaveUp(t.calls[k], Registered(t, k) && t.chanTerms[t.calls[k].index] < term)
      {
        CheckedCall(t, me, term, k);
        assert RegisteredOk(t, t.calls[k].index);
      }
    }

    // The reader executes an operation, lets Raft compact its log if that has grown
    // to the limit, and answers whoever waits.
    method ReadOperation(index: nat, req: Request, id: int, compact: bool) returns (stuck: bool)
      requires Valid()
      modifies this`calls, this`executed, sm, sm.sessions.Values, rf, rf.persister
      ensures sm.Valid() && sm.View() == DoOp(old(sm.View()), req) && executed == old(executed) + {(index, id)}
      ensures forall c :: c in sm.sessions ==> sm.sessions[c] in old(sm.sessions.Values) || fresh(sm.sessions[c])
      ensures rf.View() == if compact then Compact(old(rf.View()), index, Blob(sm.View())) else old(rf.View())
      ensures Valid() && (stuck <==> !RoomAt(old(View()), {index}))
      ensures View() == if stuck then old(View()) else Answer(old(View()), index, id)
    {
      ExecuteAt(index, req, compact);
      executed := executed + {(index, id)};
      MoreExecuted(View(), me, old(executed), executed);
      stuck := AnswerWaiter(index, id);
    }

    method ExecuteAt(index: nat, req: Request, compact: bool)
      requires sm.Valid()
      modifies sm, sm.sessions.Values, rf, rf.persister
      ensures sm.Valid() && sm.View() == DoOp(old(sm.View()), req)
      ensures forall c :: c in sm.sessions ==> sm.sessions[c] in old(sm.sessions.Values) || fresh(sm.sessions[c])
      ensures rf.View() == if compact then Compact(old(rf.View()), index, Blob(sm.View())) else old(rf.View())
    {
      sm.DoOp(req);
      CompactLog(index, compact);
    }

    method CompactLog(index: nat, compact: bool)
      requires sm.Valid()
      modifies rf, rf.persister
      ensures rf.View() == if compact then Compact(old(rf.View()), index, Blob(sm.View())) else old(rf.View())
    {
      if compact {
        var data := sm.Snapshot();
        rf.Snapshot(index, data);
      }
    }

    method ReadSnapshot(data: Blob) returns (stuck: bool, ghost told: set<int>)
      requires Valid()
      modifies this`calls, this`channels, this`chanIds, this`chanTerms, sm
      ensures Valid() && sm.View() == RestoreFrom(old(sm.View()), data)
      ensures forall c :: c in sm.sessions ==> sm.sessions[c] in old(sm.sessions.Values) || fresh(sm.sessions[c])
      ensures told <= old(channels).Keys && View() == Woken(old(View()), told)
      ensures stuck <==> told != old(channels).Keys
      ensures stuck <==> !RoomAt(old(View()), old(channels).Keys)
    {
      sm.Restore(data);
      stuck, told := WakeEveryone();
    }

    // One message of the reader's loop. told: where it sent errors before it got stuck.
    method Read(m: ApplyMsg, compact: bool) returns (stuck: bool, ghost told: set<int>)
      requires Valid()
      modifies this, sm, sm.sessions.Values, rf, rf.persister
      ensures Valid() && sm.View() == Played(old(sm.View()), m) && executed == old(executed) + Operation(m)
      ensures forall c :: c in sm.sessions ==> sm.sessions[c] in old(sm.sessions.Values) || fresh(sm.sessions[c])
      ensures stuck <==> !CanPay(old(View()), Owed(m))
      ensures !stuck ==> View() == Paid(old(View()), Owed(m))
      ensures stuck ==> StuckAt(old(View()), m, told, View())
      ensures match m
              case ApplyCommand(i, Op(req, id)) =>
                sm.View() == DoOp(old(sm.View()), req) && (i, id) in executed && (!stuck ==> View() == Answer(old(View()), i, id))
              case ApplyCommand(_, NoCommand) =>
                sm.View() == old(sm.View()) && !stuck && View() == old(View()) && executed == old(executed)
              case ApplySnapshot(_, data) =>
                && sm.View() == (if data.Blob? then data.state else old(sm.View()))
                && (!stuck ==> View() == WakeAll(old(View()))) && executed == old(executed)
    {
      match m
      case ApplySnapshot(_, data) => stuck, told := ReadSnapshot(data);
      case ApplyCommand(_, NoCommand) => stuck, told := false, {};
      case ApplyCommand(index, Op(req, id)) =>
        stuck := ReadOperation(index, req, id, compact);
        told := {};
        FailNobody(View());
    }

    // The loop's body, at message k. s and t are what it began with.
    method ReadNext(ms: seq<ApplyMsg>, k: nat, ghost s: Sessions, ghost t: Table) returns (stuck: bool, ghost told: set<int>)
      requires Valid() && k < |ms| && sm.View() == PlayedAll(s, ms[..k]) && View() == PaidAll(t, ms[..k])
      modifies this, sm, sm.sessions.Values, rf, rf.persister
      ensures Valid() && sm.View() == PlayedAll(s, ms[..k + 1]) && executed == old(executed) + Operation(ms[k])
      ensures Operations(ms[..k + 1]) == Operations(ms[..k]) + Operation(ms[k])
      ensures forall c :: c in sm.sessions ==> sm.sessions[c] in old(sm.sessions.Values) || fresh(sm.sessions[c])
      ensures if stuck then StuckAt(PaidAll(t, ms[..k]), ms[k], told, View()) else View() == PaidAll(t, ms[..k + 1])
    {
      var compact: bool := *;
      OneMoreRead(s, t, ms, k);
      stuck, told := Read(ms[k], compact);
    }

    // The reader's loop: every message in turn, until a send finds a full channel. The
    // state machine has executed exactly the messages read, and so says the history.
    method ReadMessages(ms: seq<ApplyMsg>) returns (read: nat, stuck: bool, ghost told: set<int>)
      requires Valid()
      modifies this, sm, sm.sessions.Values, rf, rf.persister
      ensures Valid() && read <= |ms| && sm.View() == PlayedAll(old(sm.View()), ms[..read])
      ensures executed == old(executed) + Operations(ms[..read])
      ensures !stuck ==> read == |ms| && View() == PaidAll(old(View()), ms)
      ensures stuck ==> read > 0 && StuckAt(PaidAll(old(View()), ms[..read - 1]), ms[read - 1], told, View())
    {
      ghost var s, t := sm.View(), View();
      read := 0;
      while read < |ms|
        invariant read <= |ms| && Valid() && sm.View() == PlayedAll(s, ms[..read])
        invariant executed == old(executed) + Operations(ms[..read])
        invariant View() == PaidAll(t, ms[..read])
        invariant forall c :: c in sm.sessions ==> sm.sessions[c] in old(sm.sessions.Values) || fresh(sm.sessions[c])
      {
        stuck, told := ReadNext(ms, read, s, t);
        read := read + 1;
        if stuck {
          return;
        }
      }
      assert ms[..read] == ms;
      stuck, told := false, {};
    }

    /** The reader: its loop and, when the apply channel is closed, an error to everyone
        still waiting. Nobody registers meanwhile. */
    method Reader(ms: seq<ApplyMsg>) returns (read: nat, end: End, ghost told: set<int>)
      requires Valid()
      modifies this, sm, sm.sessions.Values, rf, rf.persister
      ensures Valid() && read <= |ms| && sm.View() == PlayedAll(old(sm.View()), ms[..read])
      ensures executed == old(executed) + Operations(ms[..read])
      ensures end == StuckReading ==> read > 0 && StuckAt(PaidAll(old(View()), ms[..read - 1]), ms[read - 1], told, View())
      ensures end != StuckReading ==>
                var t := PaidAll(old(View()), ms);
                read == |ms| && View() == Fail(t, told) && told <= t.channels.Keys && (end == AllTold <==> told == t.channels.Keys)
    {
      var stuck: bool;
      read, stuck, told := ReadMessages(ms);
      if stuck {
        return read, StuckReading, told;
      }
      stuck, told := SendErrors(channels.Keys);
      end := if stuck then StuckClosing else AllTold;
    }
  }
}
