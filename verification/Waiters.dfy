/** The replicated state machine layer as a value: the calls of Submit and who waits for what. */
module Waiters {
  import opened Basics
  import opened Session
  import opened Logs

  // DoOp returns nothing, so a result is its error alone.
  datatype OpResult = Ok | ErrWrongLeader

  // How far a call of Submit has come: it has its id; Start has accepted its
  // operation; it is registered and waits; it has received its result; it has
  // removed its registration and returned.
  datatype Stage = Named | Accepted | Waiting | Heard(heard: OpResult) | Returned(result: OpResult)

  // index and term are what Start returned. sent is everything sent on the call's
  // channel, which holds one result at a time.
  datatype Call = Call(req: Request, id: nat, index: int, term: nat, stage: Stage, sent: seq<OpResult>)

  // The calls of one incarnation in the order they took their ids; the position of a
  // call stands for its channel. The three maps go by the index waited at.
  datatype Table = Table(nextId: nat, calls: seq<Call>, channels: map<int, nat>, chanIds: map<int, nat>, chanTerms: map<int, nat>)

  const EMPTY_TABLE: Table := Table(0, [], map[], map[], map[])

  // ------------------------------------------------------------------------- ids

  // Bitwise or.
  function Or(a: nat, b: nat): nat {
    if a == 0 then b else if b == 0 then a
    else (if a % 2 == 1 || b % 2 == 1 then 1 else 0) + 2 * Or(a / 2, b / 2)
  }

  // The bit of a number at position j.
  function Bit(n: nat, j: nat): nat {
    if j == 0 then n % 2 else Bit(n / 2, j - 1)
  }

  lemma {:induction false} OrIsBitwise(a: nat, b: nat, j: nat)
    ensures Bit(Or(a, b), j) == if Bit(a, j) == 1 || Bit(b, j) == 1 then 1 else 0
    decreases j
  {
    if a == 0 || b == 0 {
      ZeroBits(j);
    } else if j > 0 {
      OrIsBitwise(a / 2, b / 2, j - 1);
    }
    BitIsBit(a, j);
    BitIsBit(b, j);
  }

  lemma {:induction false} ZeroBits(j: nat)
    ensures Bit(0, j) == 0
  {
    if j > 0 {
      ZeroBits(j - 1);
    }
  }

  lemma {:induction false} BitIsBit(n: nat, j: nat)
    ensures Bit(n, j) < 2
    decreases j
  {
    if j > 0 {
      BitIsBit(n / 2, j - 1);
    }
  }

  // The id of the k-th call of server me in one incarnation: me << 32 | k.
  function OpId(me: nat, k: nat): nat {
    Or(me, k / WORD) * WORD + k % WORD
  }

  /** When two ids coincide. Among fewer than 2^32 calls of one incarnation, only for
      the same server and the same call. */
  lemma OpIdsCoincide(me: nat, k: nat, you: nat, j: nat)
    ensures OpId(me, k) == OpId(you, j) <==> Or(me, k / WORD) == Or(you, j / WORD) && k % WORD == j % WORD
    ensures k < WORD && j < WORD ==> (OpId(me, k) == OpId(you, j) <==> me == you && k == j)
  {
    var a, b := Or(me, k / WORD), Or(you, j / WORD);
    if OpId(me, k) == OpId(you, j) {
      assert (a - b) * WORD == j % WORD - k % WORD;
      assert a == b;
    }
  }

  /** From call 2^32 on, ids run into those of other servers. */
  lemma OpIdOverflows()
    ensures OpId(0, WORD + 1) == OpId(1, 1)
  {
  }

  // --------------------------------------------------------------- critical sections

  function Enter(t: Table, me: nat, req: Request): Table {
    var id := OpId(me, t.nextId + 1);
    t.(nextId := t.nextId + 1, calls := t.calls + [Call(req, id, -1, 0, Named, [])])
  }

  // What Start returned: a call that met no leader returns at once.
  function Started(t: Table, k: nat, index: int, term: nat, isLeader: bool): Table
    requires k < |t.calls|
  {
    var call := t.calls[k];
    t.(calls := t.calls[k := call.(index := index, term := term,
                                   stage := if isLeader then Accepted else Returned(ErrWrongLeader))])
  }

  // Waiting at its index, in the place of any call that waits there already.
  function Register(t: Table, k: nat): Table
    requires k < |t.calls|
  {
    var call := t.calls[k];
    t.(calls := t.calls[k := call.(stage := Waiting)], channels := t.channels[call.index := k],
       chanIds := t.chanIds[call.index := call.id], chanTerms := t.chanTerms[call.index := call.term])
  }

  // The channel of call k holds nothing that has not been received.
  predicate Room(t: Table, k: nat) {
    k < |t.calls| && |t.calls[k].sent| < if t.calls[k].stage.Heard? || t.calls[k].stage.Returned? then 2 else 1
  }

  function Send(t: Table, k: nat, r: OpResult): Table
    requires k < |t.calls|
  {
    t.(calls := t.calls[k := t.calls[k].(sent := t.calls[k].sent + [r])])
  }

  // The reader after executing the operation with this id at this index: whoever
  // waits there learns whether it was theirs.
  function Answer(t: Table, index: int, id: int): Table {
    if index in t.channels && t.channels[index] < |t.calls| && index in t.chanIds
    then Send(t, t.channels[index], if id == t.chanIds[index] then Ok else ErrWrongLeader)
    else t
  }

  // The calls that wait at any of these indices.
  ghost predicate WaitsAt(t: Table, indices: set<int>, k: nat) {
    exists i :: i in indices && i in t.channels && t.channels[i] == k
  }

  // One error to each of them.
  ghost function Fail(t: Table, indices: set<int>): Table {
    t.(calls := seq(|t.calls|, k requires 0 <= k < |t.calls| =>
         if WaitsAt(t, indices, k) then t.calls[k].(sent := t.calls[k].sent + [ErrWrongLeader]) else t.calls[k]))
  }

  // Nobody waits at these indices any more.
  function Forget(t: Table, indices: set<int>): Table {
    t.(channels := t.channels - indices, chanIds := t.chanIds - indices, chanTerms := t.chanTerms - indices)
  }

  // The reader after restoring a snapshot: everyone waiting gives up and is forgotten.
  ghost function WakeAll(t: Table): Table {
    Forget(Fail(t, t.channels.Keys), t.channels.Keys)
  }

  function Earlier(t: Table, term: nat): set<int> {
    set i | i in t.chanTerms && t.chanTerms[i] < term
  }

  // The leader check: everyone who registered in an earlier term gives up.
  ghost function CheckLeader(t: Table, term: nat): Table {
    Fail(t, Earlier(t, term))
  }

  // Submit receives the first result sent to it.
  function Hear(t: Table, k: nat): Table
    requires k < |t.calls| && |t.calls[k].sent| > 0
  {
    t.(calls := t.calls[k := t.calls[k].(stage := Heard(t.calls[k].sent[0]))])
  }

  // It removes whatever is registered at its index, and returns the result.
  function Finish(t: Table, k: nat): Table
    requires k < |t.calls| && t.calls[k].stage.Heard?
  {
    var call := t.calls[k];
    Forget(t.(calls := t.calls[k := call.(stage := Returned(call.stage.heard))]), {call.index})
  }

  // ------------------------------------------------------------------- consistency

  // The maps have the same keys, each registered call waits at its own index under
  // its own id and term, and ids count up from 1.
  ghost predicate Consistent(t: Table, me: nat) {
    && t.channels.Keys == t.chanIds.Keys == t.chanTerms.Keys
    && t.nextId == |t.calls|
    && (forall i {:trigger RegisteredOk(t, i)} :: RegisteredOk(t, i))
    && (forall k {:trigger t.calls[k]} :: 0 <= k < |t.calls| ==> t.calls[k].id == OpId(me, k + 1))
  }

  ghost predicate RegisteredOk(t: Table, i: int) {
    i in t.channels && i in t.chanIds && i in t.chanTerms ==>
      && t.channels[i] < |t.calls|
      && var call := t.calls[t.channels[i]];
         call.index == i && call.id == t.chanIds[i] && call.term == t.chanTerms[i] && (call.stage.Waiting? || call.stage.Heard?)
  }

  // If the call was told Ok, the reader has executed an operation with its id at its index.
  ghost predicate ToldTruly(call: Call, executed: set<(int, int)>) {
    && (Ok in call.sent ==> (call.index, call.id) in executed)
    && (call.stage.Heard? && call.stage.heard == Ok ==> Ok in call.sent)
    && (call.stage.Returned? && call.stage.result == Ok ==> Ok in call.sent)
    && (call.stage == Named || call.stage == Accepted ==> call.sent == [])
  }

  ghost predicate TableOk(t: Table, me: nat, executed: set<(int, int)>) {
    Consistent(t, me) && forall k {:trigger t.calls[k]} :: 0 <= k < |t.calls| ==> ToldTruly(t.calls[k], executed)
  }

  lemma MoreExecuted(t: Table, me: nat, executed: set<(int, int)>, more: set<(int, int)>)
    requires TableOk(t, me, executed) && executed <= more
    ensures TableOk(t, me, more)
  {
  }

  // Calls keep what they asked, and their place, and never go back.
  ghost predicate CallsKept(t: Table, u: Table) {
    && |t.calls| <= |u.calls|
    && forall k {:trigger u.calls[k]} {:trigger t.calls[k]} :: 0 <= k < |t.calls| ==> CallKept(t.calls[k], u.calls[k])
  }

  ghost predicate CallKept(x: Call, y: Call) {
    && y.req == x.req && y.id == x.id
    && (x.stage != Named ==> y.stage != Named && y.index == x.index && y.term == x.term)
  }

  lemma EnterOk(t: Table, me: nat, executed: set<(int, int)>, req: Request)
    requires TableOk(t, me, executed)
    ensures TableOk(Enter(t, me, req), me, executed) && CallsKept(t, Enter(t, me, req))
  {
    var u := Enter(t, me, req);
    forall i
      ensures RegisteredOk(u, i)
    {
      assert RegisteredOk(t, i);
    }
  }

  lemma StartedOk(t: Table, me: nat, executed: set<(int, int)>, k: nat, index: int, term: nat, isLeader: bool)
    requires TableOk(t, me, executed) && k < |t.calls| && t.calls[k].stage == Named
    ensures var u := Started(t, k, index, term, isLeader); TableOk(u, me, executed) && CallsKept(t, u)
  {
    var u := Started(t, k, index, term, isLeader);
    forall i
      ensures RegisteredOk(u, i)
    {
      assert RegisteredOk(t, i);
    }
  }

  lemma RegisterOk(t: Table, me: nat, executed: set<(int, int)>, k: nat)
    requires TableOk(t, me, executed) && k < |t.calls| && t.calls[k].stage == Accepted
    ensures TableOk(Register(t, k), me, executed) && CallsKept(t, Register(t, k))
  {
    var u := Register(t, k);
    forall i
      ensures RegisteredOk(u, i)
    {
      assert RegisteredOk(t, i);
    }
  }

  lemma AnswerOk(t: Table, me: nat, executed: set<(int, int)>, index: int, id: int)
    requires TableOk(t, me, executed) && (index, id) in executed
    ensures TableOk(Answer(t, index, id), me, executed) && CallsKept(t, Answer(t, index, id))
  {
    var u := Answer(t, index, id);
    assert RegisteredOk(t, index);
    forall i
      ensures RegisteredOk(u, i)
    {
      assert RegisteredOk(t, i);
    }
  }

  lemma FailOk(t: Table, me: nat, executed: set<(int, int)>, indices: set<int>)
    requires TableOk(t, me, executed)
    ensures TableOk(Fail(t, indices), me, executed) && CallsKept(t, Fail(t, indices))
  {
    var u := Fail(t, indices);
    forall i
      ensures RegisteredOk(u, i)
    {
      assert RegisteredOk(t, i);
    }
    forall k | 0 <= k < |u.calls|
      ensures ToldTruly(u.calls[k], executed) && CallKept(t.calls[k], u.calls[k]) && u.calls[k].id == OpId(me, k + 1)
    {
      if WaitsAt(t, indices, k) {
        var i :| i in indices && i in t.channels && t.channels[i] == k;
        assert RegisteredOk(t, i);
      }
    }
  }

  lemma ForgetOk(t: Table, me: nat, executed: set<(int, int)>, indices: set<int>)
    requires TableOk(t, me, executed)
    ensures TableOk(Forget(t, indices), me, executed) && CallsKept(t, Forget(t, indices))
  {
    var u := Forget(t, indices);
    forall i
      ensures RegisteredOk(u, i)
    {
      assert RegisteredOk(t, i);
    }
  }

  // Some of those waiting gave up and are forgotten.
  lemma WakeSomeOk(t: Table, me: nat, executed: set<(int, int)>, told: set<int>)
    requires TableOk(t, me, executed)
    ensures var u := Forget(Fail(t, told), told); TableOk(u, me, executed) && CallsKept(t, u)
  {
    FailOk(t, me, executed, told);
    ForgetOk(Fail(t, told), me, executed, told);
  }

  lemma HearOk(t: Table, me: nat, executed: set<(int, int)>, k: nat)
    requires TableOk(t, me, executed) && k < |t.calls| && t.calls[k].stage == Waiting && |t.calls[k].sent| > 0
    ensures TableOk(Hear(t, k), me, executed) && CallsKept(t, Hear(t, k))
  {
    var u := Hear(t, k);
    forall i
      ensures RegisteredOk(u, i)
    {
      assert RegisteredOk(t, i);
    }
  }

  lemma FinishOk(t: Table, me: nat, executed: set<(int, int)>, k: nat)
    requires TableOk(t, me, executed) && k < |t.calls| && t.calls[k].stage.Heard?
    ensures TableOk(Finish(t, k), me, executed) && CallsKept(t, Finish(t, k))
  {
    var u := Finish(t, k);
    forall i
      ensures RegisteredOk(u, i)
    {
      assert RegisteredOk(t, i);
    }
  }

  // ------------------------------------------------------------- who is told what

  // Call k is now x, every other call is as it was, and who waits where as well.
  ghost predicate OnlyCall(t: Table, u: Table, k: nat, x: Call) {
    && k < |t.calls| == |u.calls| && u.calls[k] == x && u == t.(calls := u.calls)
    && forall j {:trigger u.calls[j]} :: 0 <= j < |t.calls| && j != k ==> u.calls[j] == t.calls[j]
  }

  /** The call of Start: a call that met a leader goes on to register with the index and
      term it was given; any other call is over, and has failed. */
  lemma StartedCall(t: Table, k: nat, index: int, term: nat, isLeader: bool)
    requires k < |t.calls|
    ensures var x := t.calls[k];
            OnlyCall(t, Started(t, k, index, term, isLeader), k,
                     Call(x.req, x.id, index, term, if isLeader then Accepted else Returned(ErrWrongLeader), x.sent))
  {
  }

  lemma EnteredCall(t: Table, me: nat, req: Request)
    ensures var u := Enter(t, me, req);
            u == t.(nextId := t.nextId + 1, calls := u.calls) && |u.calls| == |t.calls| + 1 && u.calls[..|t.calls|] == t.calls
            && u.calls[|t.calls|] == Call(req, OpId(me, t.nextId + 1), -1, 0, Named, [])
  {
  }

  /** Registering changes the entries at the call's own index, in all three maps. */
  lemma RegisteredCall(t: Table, k: nat, i: int)
    requires k < |t.calls|
    ensures var (u, x) := (Register(t, k), t.calls[k]);
            && OnlyCall(t, u.(channels := t.channels, chanIds := t.chanIds, chanTerms := t.chanTerms), k, x.(stage := Waiting))
            && u.nextId == t.nextId
            && u.channels == t.channels[x.index := k] && u.chanIds == t.chanIds[x.index := x.id] && u.chanTerms == t.chanTerms[x.index := x.term]
  {
  }

  /** A call hears the first result it was sent, and returns it, and then nobody is
      registered at its index. */
  lemma ReturnedCall(t: Table, k: nat)
    requires k < |t.calls| && |t.calls[k].sent| > 0
    ensures var u := Hear(t, k); OnlyCall(t, u, k, t.calls[k].(stage := Heard(t.calls[k].sent[0])))
    ensures var z := Finish(Hear(t, k), k);
            && OnlyCall(t, z.(channels := t.channels, chanIds := t.chanIds, chanTerms := t.chanTerms), k,
                        t.calls[k].(stage := Returned(t.calls[k].sent[0])))
            && forall i :: (i in z.channels <==> i in t.channels && i != t.calls[k].index)
                           && (i in z.chanIds <==> i in t.chanIds && i != t.calls[k].index)
                           && (i in z.chanTerms <==> i in t.chanTerms && i != t.calls[k].index)
                           && (i in z.channels ==> z.channels[i] == t.channels[i])
                           && (i in z.chanIds ==> z.chanIds[i] == t.chanIds[i])
                           && (i in z.chanTerms ==> z.chanTerms[i] == t.chanTerms[i])
  {
  }

  // The call is the one registered at its index.
  predicate Registered(t: Table, k: nat) {
    k < |t.calls| && t.calls[k].index in t.channels && t.channels[t.calls[k].index] == k
  }

  // What a call was sent, and one more error if it was told to give up.
  function GaveUp(x: Call, told: bool): Call {
    if told then x.(sent := x.sent + [ErrWrongLeader]) else x
  }

  /** After an operation was executed at an index, the call registered there, and no other,
      is told whether it was its own. */
  lemma AnsweredCall(t: Table, me: nat, index: int, id: int, k: nat)
    requires Consistent(t, me) && k < |t.calls|
    ensures var u := Answer(t, index, id);
            && u == t.(calls := u.calls) && |u.calls| == |t.calls|
            && u.calls[k] == if Registered(t, k) && t.calls[k].index == index
                             then t.calls[k].(sent := t.calls[k].sent + [if t.calls[k].id == id then Ok else ErrWrongLeader])
                             else t.calls[k]
  {
    assert RegisteredOk(t, index);
  }

  lemma WaitsAtOwnIndex(t: Table, me: nat, indices: set<int>, k: nat)
    requires Consistent(t, me) && k < |t.calls|
    ensures WaitsAt(t, indices, k) <==> Registered(t, k) && t.calls[k].index in indices
  {
    if WaitsAt(t, indices, k) {
      var i :| i in indices && i in t.channels && t.channels[i] == k;
      assert RegisteredOk(t, i);
    }
  }

  /** The leader check: a call gets an error exactly if it is registered and was accepted in
      an earlier term; a call of this term or a later one is sent nothing. */
  lemma CheckedCall(t: Table, me: nat, term: nat, k: nat)
    requires Consistent(t, me) && k < |t.calls|
    ensures var u := CheckLeader(t, term);
            && u == t.(calls := u.calls) && |u.calls| == |t.calls|
            && u.calls[k] == GaveUp(t.calls[k], Registered(t, k) && t.calls[k].term < term)
  {
    WaitsAtOwnIndex(t, me, Earlier(t, term), k);
    assert RegisteredOk(t, t.calls[k].index);
  }

  /** After a snapshot was restored every registered call gets an error, and none is
      registered any more. */
  lemma WokenCall(t: Table, me: nat, k: nat)
    requires Consistent(t, me) && k < |t.calls|
    ensures var u := WakeAll(t);
            && u == t.(calls := u.calls, channels := map[], chanIds := map[], chanTerms := map[]) && |u.calls| == |t.calls|
            && u.calls[k] == GaveUp(t.calls[k], Registered(t, k))
  {
    WaitsAtOwnIndex(t, me, t.channels.Keys, k);
  }
}
