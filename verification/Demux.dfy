/** The RPC multiplexer: calls over one connection, matched with replies by tag. */
module Demuxes {
  import opened Basics
  import opened Session

  // What a caller receives on its channel: a reply from the connection (call is
  // history: the call whose request was answered), or a failure from the drain.
  datatype Answer = Reply(data: seq<byte>, ok: bool, call: nat) | Failed

  // The client end. Tags are 32-bit numbers. Calls are numbered in the order they take tags; the number
  // stands for the channel of the call, answers for what was sent on it.
  datatype Client = Client(nextTag: nat, closed: bool, calls: map<nat, nat>, answers: map<nat, seq<Answer>>)

  function Sent(c: Client, k: nat): seq<Answer> {
    if k in c.answers then c.answers[k] else []
  }

  function TakeTag(c: Client): (Client, nat) {
    (c.(nextTag := (c.nextTag + 1) % WORD), c.nextTag)
  }

  function Put(c: Client, tag: nat, k: nat): (Client, bool) {
    if c.closed then (c, false) else (c.(calls := c.calls[tag := k]), true)
  }

  // Whether a call was waiting under the tag. The implementation exits if not.
  function Deliver(c: Client, tag: nat, a: Answer): (Client, bool) {
    if tag in c.calls then
      var k := c.calls[tag];
      (c.(calls := c.calls - {tag}, answers := c.answers[k := Sent(c, k) + [a]]), true)
    else (c, false)
  }

  // ------------------------------------------------------------------ the system

  // A call from taking a tag to registering it, or being turned away by a closed
  // connection. written: its request has been handed to the transport.
  datatype Phase = Tagged(tag: nat) | Waiting(tag: nat, written: bool) | Refused(tag: nat)

  datatype Reader = Reading | Closing | Draining(left: seq<nat>) | Done | Exited

  // Where the request of a call is, or the reply to it.
  datatype Stage = Request | Serving | Response
  datatype Message = Message(tag: nat, stage: Stage, data: seq<byte>, ok: bool)

  datatype System = System(client: Client, phases: seq<Phase>, reader: Reader, wire: map<nat, Message>)

  // lost: the write does not get through. Any message on the wire may be the next.
  datatype Event =
    | Issue
    | Enqueue(k: nat)
    | Write(k: nat, data: seq<byte>, lost: bool)
    | Serve(k: nat)
    | Respond(k: nat, data: seq<byte>, ok: bool, lost: bool)
    | Read(k: nat)
    | ReadFails
    | List(tags: seq<nat>)
    | Drain
    | Close

  // The initial message took tag 0 and gets no reply.
  const OPENED: System := System(Client(1, false, map[], map[]), [], Reading, map[])

  ghost predicate Lists(tags: seq<nat>, keys: set<nat>) {
    && (forall t {:trigger t in tags} {:trigger t in keys} :: t in tags <==> t in keys)
    && (forall i, j {:trigger tags[i], tags[j]} :: 0 <= i < j < |tags| ==> tags[i] != tags[j])
  }

  ghost predicate Possible(s: System, e: Event) {
    match e
    case Issue => true
    case Enqueue(k) => k < |s.phases| && s.phases[k].Tagged?
    case Write(k, _, _) => k < |s.phases| && s.phases[k].Waiting? && !s.phases[k].written
    case Serve(k) => k in s.wire && s.wire[k].stage == Request
    case Respond(k, _, _, _) => k in s.wire && s.wire[k].stage == Serving
    case Read(k) => s.reader == Reading && k in s.wire && s.wire[k].stage == Response
    case ReadFails => s.reader == Reading
    case List(tags) => s.reader == Closing && Lists(tags, s.client.calls.Keys)
    case Drain => s.reader.Draining?
    case Close => true
  }

  function Exiting(r: Reader, matched: bool): Reader {
    if matched then r else Exited
  }

  ghost function Step(s: System, e: Event): System
    requires Possible(s, e)
  {
    match e
    case Issue =>
      var (c, tag) := TakeTag(s.client);
      s.(client := c, phases := s.phases + [Tagged(tag)])
    case Enqueue(k) =>
      var tag := s.phases[k].tag;
      var (c, ok) := Put(s.client, tag, k);
      s.(client := c, phases := s.phases[k := if ok then Waiting(tag, false) else Refused(tag)])
    case Write(k, data, lost) =>
      var tag := s.phases[k].tag;
      s.(phases := s.phases[k := Waiting(tag, true)],
         wire := if lost then s.wire else s.wire[k := Message(tag, Request, data, true)])
    case Serve(k) => s.(wire := s.wire[k := s.wire[k].(stage := Serving)])
    case Respond(k, data, ok, lost) =>
      s.(wire := if lost then s.wire - {k} else s.wire[k := Message(s.wire[k].tag, Response, data, ok)])
    case Read(k) =>
      var m := s.wire[k];
      var (c, matched) := Deliver(s.client, m.tag, Reply(m.data, m.ok, k));
      s.(client := c, wire := s.wire - {k}, reader := Exiting(Reading, matched))
    case ReadFails => s.(client := s.client.(closed := true), reader := Closing)
    case List(tags) => s.(reader := Draining(tags))
    case Drain =>
      var left := s.reader.left;
      if |left| == 0 then s.(reader := Done)
      else
        var (c, matched) := Deliver(s.client, left[0], Failed);
        s.(client := c, reader := Exiting(Draining(left[1..]), matched))
    case Close => s.(client := s.client.(closed := true))
  }

  // Every interleaving of callers, server, reader and Close.
  ghost predicate Run(events: seq<Event>, states: seq<System>) {
    && |states| == |events| + 1
    && states[0] == OPENED
    && forall i {:trigger events[i]} :: 0 <= i < |events| ==>
         Possible(states[i], events[i]) && states[i + 1] == Step(states[i], events[i])
  }

  // The event registers a call under a tag that another call still waits under.
  ghost predicate Reuses(s: System, e: Event)
    requires Possible(s, e)
  {
    e.Enqueue? && !s.client.closed && s.phases[e.k].tag in s.client.calls
  }

  ghost predicate NoReuse(events: seq<Event>, states: seq<System>)
    requires Run(events, states)
  {
    forall i {:trigger events[i]} :: 0 <= i < |events| ==> !Reuses(states[i], events[i])
  }

  // ------------------------------------------------------------------- invariant

  ghost predicate Accepted(s: System, k: nat) {
    k < |s.phases| && s.phases[k].Waiting?
  }

  // The one answer of a call is the reply to its own request, or a failure.
  ghost predicate AnsweredOnce(c: Client, k: nat) {
    |Sent(c, k)| == 1 && (Sent(c, k)[0].Reply? ==> Sent(c, k)[0].call == k)
  }

  // A registered call is in the table and has no answer yet, or has been answered.
  // Any other call has no answer.
  ghost predicate CallOk(s: System, k: nat) {
    if Accepted(s, k) then
      var tag := s.phases[k].tag;
      if tag in s.client.calls && s.client.calls[tag] == k then Sent(s.client, k) == []
      else (s.reader == Reading ==> s.phases[k].written) && AnsweredOnce(s.client, k)
    else Sent(s.client, k) == []
  }

  ghost predicate EntryOk(s: System, tag: nat) {
    tag in s.client.calls ==>
      var k := s.client.calls[tag];
      k < |s.phases| && s.phases[k].Waiting? && s.phases[k].tag == tag
  }

  // While the reader reads, whatever is on the wire belongs to a waiting call.
  ghost predicate WireOk(s: System, k: nat) {
    k in s.wire ==>
      && k < |s.phases| && s.phases[k] == Waiting(s.wire[k].tag, true)
      && (s.reader == Reading ==> s.wire[k].tag in s.client.calls && s.client.calls[s.wire[k].tag] == k)
  }

  ghost predicate ReaderOk(s: System) {
    match s.reader
    case Reading => true
    case Closing => s.client.closed
    case Draining(left) => s.client.closed && Lists(left, s.client.calls.Keys)
    case Done => s.client.closed && s.client.calls == map[]
    case Exited => false
  }

  ghost predicate Inv(s: System) {
    && ReaderOk(s)
    && (forall k: nat {:trigger CallOk(s, k)} :: CallOk(s, k))
    && (forall tag: nat {:trigger EntryOk(s, tag)} :: EntryOk(s, tag))
    && (forall k: nat {:trigger WireOk(s, k)} :: WireOk(s, k))
  }

  // Delivering under a tag answers the call registered there and no other.
  lemma DeliverKeeps(s: System, tag: nat, a: Answer, z: System)
    requires Inv(s) && tag in s.client.calls && s.client.calls[tag] < |s.phases| && s.phases[s.client.calls[tag]].Waiting?
    requires a == Failed || a.call == s.client.calls[tag]
    requires z.reader == Reading ==> s.reader == Reading && s.phases[s.client.calls[tag]].written
    requires z.client == Deliver(s.client, tag, a).0 && z.phases == s.phases
    ensures forall k: nat {:trigger CallOk(z, k)} :: CallOk(z, k)
    ensures forall t: nat {:trigger EntryOk(z, t)} :: EntryOk(z, t)
  {
    assert EntryOk(s, tag);
    forall k: nat
      ensures CallOk(z, k)
    {
      assert CallOk(s, k);
    }
    forall t: nat
      ensures EntryOk(z, t)
    {
      assert EntryOk(s, t);
    }
  }

  lemma InvStep(s: System, e: Event)
    requires Inv(s) && Possible(s, e) && !Reuses(s, e)
    ensures Inv(Step(s, e))
  {
    var z := Step(s, e);
    match e
    case Read(k) => ReadKeeps(s, k);
    case Drain => DrainKeeps(s);
    case Enqueue(k) => EnqueueKeeps(s, k);
    case Write(k, data, lost) => WriteKeeps(s, k, data, lost);
    case _ =>
      forall k: nat
        ensures CallOk(z, k) && EntryOk(z, k) && WireOk(z, k)
      {
        assert CallOk(s, k) && EntryOk(s, k) && WireOk(s, k);
      }
  }

  lemma EnqueueKeeps(s: System, k: nat)
    requires Inv(s) && Possible(s, Enqueue(k)) && !Reuses(s, Enqueue(k))
    ensures Inv(Step(s, Enqueue(k)))
  {
    var z := Step(s, Enqueue(k));
    assert CallOk(s, k) && WireOk(s, k);
    forall j: nat
      ensures CallOk(z, j) && EntryOk(z, j) && WireOk(z, j)
    {
      assert CallOk(s, j) && EntryOk(s, j) && WireOk(s, j);
    }
  }

  lemma WriteKeeps(s: System, k: nat, data: seq<byte>, lost: bool)
    requires Inv(s) && Possible(s, Write(k, data, lost))
    ensures Inv(Step(s, Write(k, data, lost)))
  {
    var z := Step(s, Write(k, data, lost));
    assert CallOk(s, k) && WireOk(s, k);
    forall j: nat
      ensures CallOk(z, j) && EntryOk(z, j) && WireOk(z, j)
    {
      assert CallOk(s, j) && EntryOk(s, j) && WireOk(s, j);
    }
  }

  lemma ReadKeeps(s: System, k: nat)
    requires Inv(s) && Possible(s, Read(k))
    ensures Inv(Step(s, Read(k)))
  {
    var z, m := Step(s, Read(k)), s.wire[k];
    assert WireOk(s, k);
    DeliverKeeps(s, m.tag, Reply(m.data, m.ok, k), z);
    forall j: nat
      ensures WireOk(z, j)
    {
      assert WireOk(s, j);
    }
  }

  lemma DrainKeeps(s: System)
    requires Inv(s) && Possible(s, Drain)
    ensures Inv(Step(s, Drain))
  {
    var z, left := Step(s, Drain), s.reader.left;
    if |left| > 0 {
      assert left[0] in left && EntryOk(s, left[0]);
      DeliverKeeps(s, left[0], Failed, z);
    }
    forall j: nat
      ensures WireOk(z, j) && EntryOk(z, j) && CallOk(z, j)
    {
      assert WireOk(s, j) && EntryOk(s, j) && CallOk(s, j);
    }
  }

  lemma {:induction false} InvRun(events: seq<Event>, states: seq<System>, i: nat)
    requires Run(events, states) && i < |states|
    requires forall j {:trigger events[j]} :: 0 <= j < i ==> !Reuses(states[j], events[j])
    ensures Inv(states[i])
  {
    if i > 0 {
      InvRun(events, states, i - 1);
      InvStep(states[i - 1], events[i - 1]);
    }
  }

  // -------------------------------------------------------------------- theorems

  /** Never two answers, and never someone else's: in every state of a run without
      reuse each call has no answer or exactly one of its own, calls turned away have
      none, and the reader has never met a reply without a matching call. */
  lemma NeverAnsweredTwice(events: seq<Event>, states: seq<System>, i: nat, k: nat)
    requires Run(events, states) && NoReuse(events, states) && i < |states|
    ensures Sent(states[i].client, k) == [] || (Accepted(states[i], k) && AnsweredOnce(states[i].client, k))
    ensures states[i].reader != Exited
  {
    InvRun(events, states, i);
    assert CallOk(states[i], k);
  }

  // ------------------------------------------------------------ the right answer

  // Event m answered the request of call k with this, and nobody has answered it since.
  ghost predicate Responded(events: seq<Event>, m: nat, i: nat, k: nat, data: seq<byte>, ok: bool) {
    && m < i <= |events| && events[m] == Respond(k, data, ok, false)
    && forall x {:trigger events[x]} :: m < x < i && events[x].Respond? ==> events[x].k != k
  }

  // What is on the wire for call k is what its caller wrote, or what the server answered last.
  ghost predicate Carries(events: seq<Event>, s: System, i: nat, k: nat) {
    k in s.wire ==>
      if s.wire[k].stage == Response then exists m: nat :: Responded(events, m, i, k, s.wire[k].data, s.wire[k].ok)
      else s.wire[k].ok && i <= |events| && Write(k, s.wire[k].data, false) in events[..i]
  }

  lemma {:induction false} WireCarries(events: seq<Event>, states: seq<System>, i: nat, k: nat)
    requires Run(events, states) && i < |states|
    ensures Carries(events, states[i], i, k)
  {
    if i > 0 {
      WireCarries(events, states, i - 1, k);
      var s, e := states[i - 1], events[i - 1];
      assert Possible(s, e) && states[i] == Step(s, e);
      assert events[..i] == events[..i - 1] + [e];
      if k in states[i].wire && states[i].wire[k].stage == Response {
        var data, ok := states[i].wire[k].data, states[i].wire[k].ok;
        if e == Respond(k, data, ok, false) {
          assert Responded(events, i - 1, i, k, data, ok);
        } else {
          var m: nat :| Responded(events, m, i - 1, k, data, ok);
          assert Responded(events, m, i, k, data, ok);
        }
      }
    }
  }

  // Answers are never taken back.
  lemma SentGrows(s: System, e: Event, k: nat)
    requires Possible(s, e)
    ensures Sent(s.client, k) <= Sent(Step(s, e).client, k)
  {
  }

  lemma {:induction false} AnswerStays(events: seq<Event>, states: seq<System>, i: nat, j: nat, k: nat)
    requires Run(events, states) && i <= j < |states|
    ensures Sent(states[i].client, k) <= Sent(states[j].client, k)
    decreases j
  {
    if i < j {
      AnswerStays(events, states, i, j - 1, k);
      SentGrows(states[j - 1], events[j - 1], k);
    }
  }

  /** The reader passes replies on: once the reply of a call has been read, in a run without
      reuse, the one answer of the call is what the server answered last, unchanged. */
  lemma ReadIsDelivered(events: seq<Event>, states: seq<System>, i: nat, j: nat, k: nat) returns (data: seq<byte>, ok: bool, m: nat)
    requires Run(events, states) && NoReuse(events, states) && i < j < |states| && events[i] == Read(k)
    ensures Responded(events, m, i, k, data, ok) && Sent(states[j].client, k) == [Reply(data, ok, k)]
  {
    var s := states[i];
    InvRun(events, states, i);
    WireCarries(events, states, i, k);
    assert Possible(s, events[i]) && WireOk(s, k) && CallOk(s, k);
    data, ok := s.wire[k].data, s.wire[k].ok;
    m :| Responded(events, m, i, k, data, ok);
    assert states[i + 1] == Step(s, events[i]) && Sent(states[i + 1].client, k) == [Reply(data, ok, k)];
    AnswerStays(events, states, i + 1, j, k);
    NeverAnsweredTwice(events, states, j, k);
  }

  // Event m is the turn of call k in the drain.
  ghost predicate DrainsCall(events: seq<Event>, states: seq<System>, m: nat, k: nat) {
    && m < |events| && m < |states| && events[m] == Drain && states[m].reader.Draining? && |states[m].reader.left| > 0
    && k < |states[m].phases| && states[m].reader.left[0] == states[m].phases[k].tag
  }

  lemma {:induction false} FailureIsDrained(events: seq<Event>, states: seq<System>, j: nat, k: nat) returns (m: nat)
    requires Run(events, states) && NoReuse(events, states) && j < |states| && Failed in Sent(states[j].client, k)
    ensures m < j && DrainsCall(events, states, m, k)
  {
    if j > 0 {
      var s, e := states[j - 1], events[j - 1];
      assert Possible(s, e) && states[j] == Step(s, e);
      if Failed in Sent(s.client, k) {
        m := FailureIsDrained(events, states, j - 1, k);
      } else {
        m := j - 1;
        InvRun(events, states, j - 1);
        assert e == Drain && EntryOk(s, s.reader.left[0]);
      }
    }
  }

  /** A call fails only in the drain: if one answer of a call is a failure, the drain has
      come to its tag, and no reply to it was ever read. */
  lemma FailedOnlyInDrain(events: seq<Event>, states: seq<System>, j: nat, k: nat) returns (m: nat)
    requires Run(events, states) && NoReuse(events, states) && j < |states| && Failed in Sent(states[j].client, k)
    ensures Sent(states[j].client, k) == [Failed] && m < j && DrainsCall(events, states, m, k)
    ensures forall i {:trigger events[i]} :: 0 <= i < j ==> events[i] != Read(k)
  {
    m := FailureIsDrained(events, states, j, k);
    NeverAnsweredTwice(events, states, j, k);
    forall i | 0 <= i < j && i < |events|
      ensures events[i] != Read(k)
    {
      if events[i] == Read(k) {
        var data, ok, x := ReadIsDelivered(events, states, i, j, k);
      }
    }
  }

  // A registered call whose place in the table another call has taken.
  ghost predicate Stranded(s: System, k: nat) {
    Accepted(s, k) && Sent(s.client, k) == [] && forall t {:trigger s.client.calls[t]} :: t in s.client.calls ==> s.client.calls[t] != k
  }

  lemma StrandedStep(s: System, e: Event, k: nat)
    requires Stranded(s, k) && Possible(s, e)
    ensures Stranded(Step(s, e), k)
  {
  }

  // Nobody will ever answer it.
  lemma {:induction false} StrandedStays(events: seq<Event>, states: seq<System>, i: nat, j: nat, k: nat)
    requires Run(events, states) && i <= j < |states| && Stranded(states[i], k)
    ensures Stranded(states[j], k)
    decreases j
  {
    if i < j {
      StrandedStays(events, states, i, j - 1, k);
      StrandedStep(states[j - 1], events[j - 1], k);
    }
  }

  lemma ReuseStrands(s: System, e: Event)
    requires Inv(s) && Possible(s, e) && Reuses(s, e)
    ensures Stranded(Step(s, e), s.client.calls[s.phases[e.k].tag])
  {
    var tag := s.phases[e.k].tag;
    var k := s.client.calls[tag];
    assert EntryOk(s, tag) && CallOk(s, k);
    forall t | t in s.client.calls && t != tag
      ensures s.client.calls[t] != k
    {
      assert EntryOk(s, t);
    }
  }

  lemma {:induction false} FirstReuse(events: seq<Event>, states: seq<System>, m: nat) returns (i: nat)
    requires Run(events, states) && m < |events| && Reuses(states[m], events[m])
    ensures i < |events| && Reuses(states[i], events[i])
    ensures forall j {:trigger events[j]} :: 0 <= j < i ==> !Reuses(states[j], events[j])
  {
    i := m;
    if exists j :: 0 <= j < m && Reuses(states[j], events[j]) {
      var j :| 0 <= j < m && Reuses(states[j], events[j]);
      i := FirstReuse(events, states, j);
    }
  }

  // Event i reads this answer, which is the server's last to call k.
  ghost predicate ReadAs(events: seq<Event>, i: nat, m: nat, k: nat, data: seq<byte>, ok: bool) {
    i < |events| && events[i] == Read(k) && Responded(events, m, i, k, data, ok)
  }

  // The call was answered once: with what the server replied if that was read, and
  // with a failure if not.
  ghost predicate RightlyAnswered(events: seq<Event>, c: Client, k: nat) {
    if Read(k) in events then exists i, m, data, ok :: ReadAs(events, i, m, k, data, ok) && Sent(c, k) == [Reply(data, ok, k)]
    else Sent(c, k) == [Failed]
  }

  lemma AnsweredRightly(events: seq<Event>, states: seq<System>, k: nat)
    requires Run(events, states) && NoReuse(events, states) && AnsweredOnce(states[|events|].client, k)
    ensures RightlyAnswered(events, states[|events|].client, k)
  {
    if Read(k) in events {
      var i :| 0 <= i < |events| && events[i] == Read(k);
      var data, ok, m := ReadIsDelivered(events, states, i, |events|, k);
      assert ReadAs(events, i, m, k, data, ok);
    } else {
      ReplyWasRead(events, states, |events|, k);
      assert Sent(states[|events|].client, k)[0] in Sent(states[|events|].client, k);
    }
  }

  // Without a read, a call can only get a failure.
  lemma OnlyReadReplies(s: System, e: Event, k: nat)
    requires Inv(s) && Possible(s, e) && e != Read(k)
    ensures Sent(Step(s, e).client, k) in {Sent(s.client, k), Sent(s.client, k) + [Failed]}
  {
    if e.Read? {
      assert WireOk(s, e.k);
    }
  }

  lemma {:induction false} ReplyWasRead(events: seq<Event>, states: seq<System>, j: nat, k: nat)
    requires Run(events, states) && NoReuse(events, states) && j < |states| && Read(k) !in events
    ensures forall a {:trigger a in Sent(states[j].client, k)} :: a in Sent(states[j].client, k) ==> a == Failed
  {
    if j > 0 {
      ReplyWasRead(events, states, j - 1, k);
      InvRun(events, states, j - 1);
      var s, e := states[j - 1], events[j - 1];
      assert Possible(s, e) && states[j] == Step(s, e) && e in events;
      OnlyReadReplies(s, e, k);
    }
  }

  /** Exactly one reply per call: when the drain has ended, every call accepted in the
      run has been answered exactly once if and only if no call was registered under a tag
      still waited under; and then with what the server replied to it, if that was read, and
      with a failure otherwise. */
  lemma ExactlyOneReply(events: seq<Event>, states: seq<System>)
    requires Run(events, states) && states[|events|].reader == Done
    ensures NoReuse(events, states) <==>
            forall k: nat {:trigger Accepted(states[|events|], k)} :: Accepted(states[|events|], k) ==> AnsweredOnce(states[|events|].client, k)
    ensures NoReuse(events, states) ==>
            forall k: nat {:trigger Accepted(states[|events|], k)} :: Accepted(states[|events|], k) ==> RightlyAnswered(events, states[|events|].client, k)
  {
    var z := states[|events|];
    if NoReuse(events, states) {
      InvRun(events, states, |events|);
      forall k: nat | Accepted(z, k)
        ensures AnsweredOnce(z.client, k) && RightlyAnswered(events, z.client, k)
      {
        assert CallOk(z, k);
        AnsweredRightly(events, states, k);
      }
    } else {
      var m: nat :| m < |events| && Reuses(states[m], events[m]);
      var i := FirstReuse(events, states, m);
      InvRun(events, states, i);
      var k := states[i].client.calls[states[i].phases[events[i].k].tag];
      ReuseStrands(states[i], events[i]);
      StrandedStays(events, states, i + 1, |events|, k);
      assert Accepted(z, k);
    }
  }

  // ------------------------------------------------------------------ one run of all

  // The run goes on with this event.
  lemma Goes(events: seq<Event>, states: seq<System>, e: Event) returns (events': seq<Event>, states': seq<System>)
    requires Run(events, states) && Possible(states[|events|], e)
    ensures Run(events', states') && events' == events + [e] && |states'| == |states| + 1
    ensures states'[|events'|] == Step(states[|events|], e)
  {
    events', states' := events + [e], states + [Step(states[|events|], e)];
    forall i | 0 <= i < |events'|
      ensures Possible(states'[i], events'[i]) && states'[i + 1] == Step(states'[i], events'[i])
    {
      assert i < |events| ==> events'[i] == events[i];
    }
  }

  // A call is made, served and answered.
  lemma OneAnswered(request: seq<byte>, data: seq<byte>, ok: bool) returns (events: seq<Event>, states: seq<System>)
    ensures Run(events, states)
    ensures var s := states[|events|];
            && s.client == Client(2, false, map[], s.client.answers) && s.reader == Reading
            && s.phases == [Waiting(1, true)] && s.wire == map[]
            && forall k: nat {:trigger Sent(s.client, k)} :: Sent(s.client, k) == if k == 0 then [Reply(data, ok, 0)] else []
  {
    events, states := [], [OPENED];
    events, states := Goes(events, states, Issue);
    events, states := Goes(events, states, Enqueue(0));
    events, states := Goes(events, states, Write(0, request, false));
    events, states := Goes(events, states, Serve(0));
    events, states := Goes(events, states, Respond(0, data, ok, false));
    var before := states[|events|];
    assert before.wire == map[0 := Message(1, Response, data, ok)] && before.client.calls == map[1 := 0];
    events, states := Goes(events, states, Read(0));
    var s := states[|events|];
    assert s.client.calls == map[] && s.wire == map[];
  }

  /** All that can become of a call, in one run: the first is answered with what the server
      replied, whatever that is; the second, whose request is lost, fails in the drain; and
      the third comes too late and is turned away. */
  lemma ThreeCalls(request: seq<byte>, data: seq<byte>, ok: bool) returns (events: seq<Event>, states: seq<System>)
    ensures Run(events, states)
    ensures var s := states[|events|];
            && s.reader == Done && s.client.closed && s.client.calls == map[]
            && s.phases == [Waiting(1, true), Waiting(2, true), Refused(3)]
            && Sent(s.client, 0) == [Reply(data, ok, 0)] && Sent(s.client, 1) == [Failed] && Sent(s.client, 2) == []
  {
    events, states := OneAnswered(request, data, ok);
    var s := states[|events|];
    assert Sent(s.client, 0) == [Reply(data, ok, 0)] && Sent(s.client, 1) == [] && Sent(s.client, 2) == [];
    events, states := OneLost(events, states, request);
    events, states := Drains(events, states);
    var d := states[|events|];
    assert Sent(d.client, 0) == [Reply(data, ok, 0)] && Sent(d.client, 2) == [];
    events, states := Goes(events, states, Issue);
    events, states := Goes(events, states, Enqueue(2));
  }

  // The second call is made, its request is lost, and the connection breaks.
  lemma OneLost(events: seq<Event>, states: seq<System>, request: seq<byte>) returns (events': seq<Event>, states': seq<System>)
    requires Run(events, states)
    requires var s := states[|events|];
             && s.client == Client(2, false, map[], s.client.answers) && s.reader == Reading
             && s.phases == [Waiting(1, true)]
    ensures Run(events', states')
    ensures var (s, z) := (states[|events|], states'[|events'|]);
            && z.client == Client(3, true, map[2 := 1], s.client.answers) && z.reader == Draining([2])
            && z.phases == [Waiting(1, true), Waiting(2, true)]
  {
    events', states' := Goes(events, states, Issue);
    events', states' := Goes(events', states', Enqueue(1));
    events', states' := Goes(events', states', Write(1, request, true));
    events', states' := Goes(events', states', Close);
    events', states' := Goes(events', states', ReadFails);
    assert states'[|events'|].client.calls == map[2 := 1];
    events', states' := Goes(events', states', List([2]));
  }

  // The drain fails the one call that waits, and ends.
  lemma Drains(events: seq<Event>, states: seq<System>) returns (events': seq<Event>, states': seq<System>)
    requires Run(events, states)
    requires var s := states[|events|]; s.reader == Draining([2]) && s.client.calls == map[2 := 1] && Sent(s.client, 1) == []
    ensures Run(events', states')
    ensures var (s, z) := (states[|events|], states'[|events'|]);
            && z.reader == Done && z.client.calls == map[] && z.client.closed == s.client.closed && z.client.nextTag == s.client.nextTag
            && z.phases == s.phases && Sent(z.client, 1) == [Failed]
            && forall k: nat {:trigger Sent(z.client, k)} :: k != 1 ==> Sent(z.client, k) == Sent(s.client, k)
  {
    events', states' := Goes(events, states, Drain);
    assert [2][1..] == [];
    assert states'[|events'|].client.calls == map[];
    events', states' := Goes(events', states', Drain);
  }

  // ------------------------------------------------------------------ enough tags

  ghost predicate TagsInOrder(s: System) {
    && s.client.nextTag == (|s.phases| + 1) % WORD
    && forall k {:trigger s.phases[k]} :: 0 <= k < |s.phases| ==> s.phases[k].tag == (k + 1) % WORD
  }

  lemma NextTag(n: nat)
    ensures ((n + 1) % WORD + 1) % WORD == (n + 2) % WORD
  {
    var q := (n + 1) / WORD;
    assert n + 2 == q * WORD + ((n + 1) % WORD + 1);
  }

  lemma TagsStep(s: System, e: Event)
    requires TagsInOrder(s) && Possible(s, e)
    ensures TagsInOrder(Step(s, e)) && |s.phases| <= |Step(s, e).phases|
  {
    NextTag(|s.phases|);
  }

  lemma {:induction false} TagsRun(events: seq<Event>, states: seq<System>, i: nat, m: nat)
    requires Run(events, states) && i <= m < |states|
    ensures TagsInOrder(states[m]) && |states[i].phases| <= |states[m].phases|
    decreases m
  {
    if m > 0 {
      TagsRun(events, states, if i < m then i else m - 1, m - 1);
      TagsStep(states[m - 1], events[m - 1]);
    }
  }

  // In a system of at most 2^32 calls, a call about to be registered is the only one with its tag.
  lemma FreshTag(s: System, k: nat)
    requires Inv(s) && TagsInOrder(s) && |s.phases| <= WORD && Possible(s, Enqueue(k))
    ensures !Reuses(s, Enqueue(k))
  {
    assert EntryOk(s, s.phases[k].tag);
  }

  /** A connection that makes at most 2^32 calls reuses no tag. */
  lemma FewCallsNoReuse(events: seq<Event>, states: seq<System>)
    requires Run(events, states) && |states[|events|].phases| <= WORD
    ensures NoReuse(events, states)
  {
    if !NoReuse(events, states) {
      var m: nat :| m < |events| && Reuses(states[m], events[m]);
      var i := FirstReuse(events, states, m);
      InvRun(events, states, i);
      TagsRun(events, states, i, |events|);
      TagsRun(events, states, i, i);
      FreshTag(states[i], events[i].k);
    }
  }

  // -------------------------------------------------------------------- the drain

  // Of the calls waiting at c0, those no longer waiting at c got one more answer, a failure.
  ghost predicate Drained(c0: Client, c: Client) {
    && (forall t {:trigger c.calls[t]} :: t in c.calls ==> t in c0.calls && c.calls[t] == c0.calls[t])
    && (forall t {:trigger c0.calls[t]} :: t in c0.calls ==>
          Sent(c, c0.calls[t]) == Sent(c0, c0.calls[t]) + if t in c.calls then [] else [Failed])
    && (forall k: nat {:trigger Sent(c, k)} :: k !in c0.calls.Values ==> Sent(c, k) == Sent(c0, k))
  }

  ghost predicate OneTagEach(c: Client) {
    forall t, u {:trigger c.calls[t], c.calls[u]} :: t in c.calls && u in c.calls && c.calls[t] == c.calls[u] ==> t == u
  }

  lemma NoneDrained(c: Client)
    ensures Drained(c, c.(closed := true))
  {
  }

  lemma ListsRest(tags: seq<nat>, keys: set<nat>)
    requires Lists(tags, keys) && |tags| > 0
    ensures tags[0] in keys && Lists(tags[1..], keys - {tags[0]})
  {
    assert tags[0] in tags;
    assert tags == [tags[0]] + tags[1..];
  }

  lemma DrainedMore(c0: Client, c: Client, t: nat)
    requires OneTagEach(c0) && Drained(c0, c) && t in c.calls
    ensures Drained(c0, Deliver(c, t, Failed).0)
  {
    var z := Deliver(c, t, Failed).0;
    assert c.calls[t] == c0.calls[t] && c0.calls[t] in c0.calls.Values;
    forall u | u in c0.calls
      ensures Sent(z, c0.calls[u]) == Sent(c0, c0.calls[u]) + if u in z.calls then [] else [Failed]
    {
      assert u != t ==> c0.calls[u] != c0.calls[t];
    }
    forall k: nat | k !in c0.calls.Values
      ensures Sent(z, k) == Sent(c0, k)
    {
      assert Sent(c, k) == Sent(c0, k);
    }
  }

  // ------------------------------------------------------------- the client object

  class DemuxClnt {
    var nextTag: nat
    var closed: bool
    var calls: map<nat, nat>
    var answers: map<nat, seq<Answer>>

    function View(): Client
      reads this
    {
      Client(nextTag, closed, calls, answers)
    }

    constructor ()
      ensures View() == OPENED.client
    {
      nextTag, closed, calls, answers := 1, false, map[], map[];
    }

    method Tag() returns (t: nat)
      modifies this`nextTag
      ensures (View(), t) == TakeTag(old(View()))
      ensures t == old(nextTag) && nextTag == (t + 1) % 0x1_0000_0000
    {
      t := nextTag;
      nextTag := (nextTag + 1) % WORD;
    }

    method Register(tag: nat, k: nat) returns (ok: bool)
      modifies this`calls
      ensures (View(), ok) == Put(old(View()), tag, k)
      ensures ok == !closed && calls == if closed then old(calls) else old(calls)[tag := k]
    {
      if closed {
        return false;
      }
      calls := calls[tag := k];
      ok := true;
    }

    method Remove(tag: nat) returns (k: nat, ok: bool)
      modifies this`calls
      ensures ok == (tag in old(calls)) && (ok ==> k == old(calls)[tag])
      ensures calls == old(calls) - {tag}
    {
      if tag in calls {
        k, ok := calls[tag], true;
        calls := calls - {tag};
      } else {
        k, ok := 0, false;
        assert calls - {tag} == calls;
      }
    }

    // matched is false where the implementation exits.
    method ReplyTo(tag: nat, a: Answer) returns (matched: bool)
      modifies this`calls, this`answers
      ensures (View(), matched) == Deliver(old(View()), tag, a)
      ensures matched == (tag in old(calls)) && calls == old(calls) - {tag}
      ensures !matched ==> answers == old(answers)
      ensures matched ==> var k := old(calls)[tag];
              answers == old(answers)[k := (if k in old(answers) then old(answers)[k] else []) + [a]]
    {
      var k: nat;
      k, matched := Remove(tag);
      if matched {
        answers := answers[k := (if k in answers then answers[k] else []) + [a]];
      } else {
        assert calls == old(calls);
      }
    }

    method Close()
      modifies this`closed
      ensures View() == old(View()).(closed := true)
    {
      closed := true;
    }

    method Outstanding() returns (tags: seq<nat>)
      ensures Lists(tags, calls.Keys)
    {
      tags := [];
      var left := calls.Keys;
      while |left| > 0
        invariant left <= calls.Keys && Lists(tags, calls.Keys - left)
        decreases left
      {
        var t := AnyOf(left);
        left := left - {t};
        tags := tags + [t];
      }
    }

    /** The end of the reader, when nobody else touches the table any more: every call
        still waiting gets exactly one more answer, a failure, and none is left. */
    method DrainAll()
      requires OneTagEach(View())
      modifies this`closed, this`calls, this`answers
      ensures closed && calls == map[] && Drained(old(View()), View())
    {
      ghost var c0 := View();
      Close();
      var left := Outstanding();
      NoneDrained(c0);
      while |left| > 0
        invariant closed && Drained(c0, View()) && Lists(left, calls.Keys)
      {
        var t := left[0];
        ListsRest(left, calls.Keys);
        DrainedMore(c0, View(), t);
        var matched := ReplyTo(t, Failed);
        left := left[1..];
      }
      assert calls == map[];
    }
  }
}
