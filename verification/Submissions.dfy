/** Where committed commands come from, and what an Ok from Submit means. */
module Submissions {
  import opened Basics
  import opened Session
  import opened Logs
  import opened Protocol
  import opened Steps
  import opened Peers
  import opened Clusters
  import opened Folds
  import opened Refinement
  import opened Replicas
  import opened Theorems
  import opened Waiters
  import opened Calls

  // ---------------------------------------------------- every entry was submitted

  datatype Slot = Slot(term: nat, index: nat)

  // The leader of the slot's term appended an entry there itself.
  ghost predicate Own(s: State, x: Slot) {
    x.term > 0 && x.term in s.reigns && s.reigns[x.term].start <= x.index < |s.reigns[x.term].log|
  }

  ghost predicate IsSubmit(events: seq<Event>, i: nat, c: Command) {
    i < |events| && events[i].Submit? && events[i].c == c
  }

  ghost predicate TracedAt(events: seq<Event>, s: State, origin: map<Slot, nat>, x: Slot) {
    Own(s, x) ==> x in origin && IsSubmit(events, origin[x], s.reigns[x.term].log[x.index].command)
  }

  // origin gives every entry a leader appended the event that submitted it, each event once.
  ghost predicate Traced(events: seq<Event>, s: State, origin: map<Slot, nat>) {
    && (forall x {:trigger TracedAt(events, s, origin, x)} :: TracedAt(events, s, origin, x))
    && (forall x {:trigger origin[x]} :: x in origin ==> origin[x] < |events|)
    && (forall x, y {:trigger origin[x], origin[y]} :: x in origin && y in origin && origin[x] == origin[y] ==> x == y)
  }

  lemma {:induction false} RunTraced(events: seq<Event>, ss: seq<State>, k: nat) returns (origin: map<Slot, nat>)
    requires Linked(events, ss) && k <= |events|
    requires forall i, j {:trigger ss[i], ss[j]} :: 0 <= i <= j < |ss| ==> Grows(ss[i], ss[j])
    ensures Traced(events[..k], ss[k], origin)
  {
    if k == 0 {
      origin := map[];
      TracedAtStart(events, ss);
    } else {
      var before := RunTraced(events, ss, k - 1);
      origin := TracedAfter(events, ss, k, before);
    }
  }

  lemma TracedAtStart(events: seq<Event>, ss: seq<State>)
    requires Linked(events, ss)
    ensures Traced(events[..0], ss[0], map[])
  {
  }

  lemma TracedAfter(events: seq<Event>, ss: seq<State>, k: nat, before: map<Slot, nat>) returns (origin: map<Slot, nat>)
    requires Linked(events, ss) && 0 < k <= |events| && Grows(ss[k - 1], ss[k])
    requires Traced(events[..k - 1], ss[k - 1], before)
    ensures Traced(events[..k], ss[k], origin)
  {
    assert events[..k][..k - 1] == events[..k - 1];
    assert LinkedAt(events, ss, k - 1);
    origin := TracedStep(events[..k], ss[k - 1], ss[k], before);
  }

  lemma TracedStep(events: seq<Event>, s: State, z: State, old': map<Slot, nat>) returns (origin: map<Slot, nat>)
    requires |events| > 0 && Traced(events[..|events| - 1], s, old')
    requires Grows(s, z) && NewEntries(s, z, events[|events| - 1])
    ensures Traced(events, z, origin)
  {
    var k := |events| - 1;
    origin := old';
    var e := events[k];
    if e.Submit? && exists u: nat :: Appended(s, z, u, e.c) {
      var u: nat :| Appended(s, z, u, e.c);
      origin := origin[Slot(u, |s.reigns[u].log|) := k];
    }
    forall x
      ensures TracedAt(events, z, origin, x)
    {
      assert TracedAt(events[..k], s, old', x);
      if Own(z, x) && x.term in s.reigns {
        assert ReignGrows(s, z, x.term);
      }
    }
  }

  // -------------------------------------------------------------- the committed log

  // The slot an entry of a leader's log was first written to.
  lemma EntrySlot(s: State, t: nat, k: nat)
    requires Inv(s) && t in s.reigns && 0 < k < |LogOf(s, t)|
    ensures var x := Slot(LogOf(s, t)[k].term, k);
            Own(s, x) && s.reigns[x.term].log[k] == LogOf(s, t)[k]
  {
    assert ReignOk(s, t) && Through(s, LogOf(s, t), k);
    assert ReignOk(s, LogOf(s, t)[k].term);
  }

  // Each committed entry after the sentinel is the command of a Submit of its own.
  ghost predicate SubmittedOnce(events: seq<Event>, chosen: seq<Entry>, origin: seq<nat>) {
    && |origin| == |chosen| > 0 && chosen[0] == SENTINEL
    && (forall k {:trigger origin[k]} :: 0 < k < |chosen| ==> IsSubmit(events, origin[k], chosen[k].command))
    && (forall j, k {:trigger origin[j], origin[k]} :: 0 < j < |chosen| && 0 < k < |chosen| && origin[j] == origin[k] ==> j == k)
  }

  lemma ChosenOrigins(events: seq<Event>, s: State, top: nat, origin: map<Slot, nat>) returns (o: seq<nat>)
    requires Inv(s) && top in s.reigns && Traced(events, s, origin)
    ensures SubmittedOnce(events, LogOf(s, top), o)
  {
    var chosen := LogOf(s, top);
    HeadIsSentinel(s, top);
    forall k: nat | 0 < k < |chosen|
      ensures var x := Slot(chosen[k].term, k); x in origin && IsSubmit(events, origin[x], chosen[k].command)
    {
      EntrySlot(s, top, k);
      assert TracedAt(events, s, origin, Slot(chosen[k].term, k));
    }
    o := seq(|chosen|, k requires 0 <= k < |chosen| => if k == 0 then 0 else origin[Slot(chosen[k].term, k)]);
  }

  /** Nothing is made up and nothing is done twice: the committed log of a run, which
      every replica folds, takes each entry from a Submit of its own. */
  lemma CommandsExecuteOnce(n: nat, events: seq<Event>, states: seq<Cluster>) returns (chosen: seq<Entry>, origin: seq<nat>)
    requires n > 0 && OrderedRun(n, events, states)
    ensures SubmittedOnce(events, chosen, origin)
    ensures forall i, v {:trigger states[i].nodes[v]} :: 0 <= i < |states| && 0 <= v < |states[i].nodes| ==>
              FollowsChosen(states[i].nodes[v], chosen)
    ensures forall i, d {:trigger d in states[i].delivered} :: 0 <= i < |states| && d in states[i].delivered ==>
              d.index < |chosen| && chosen[d.index].command == d.command
  {
    var ss := RunLinked(n, events, states);
    var top: nat;
    chosen, top := RunFollows(n, events, states, ss);
    var z := ss[|events|];
    assert Simulates(states[|events|], z) && CommitOk(z, top) && z.ordered;
    var traced := RunTraced(events, ss, |events|);
    assert events[..|events|] == events;
    origin := ChosenOrigins(events, z, top, traced);
  }

  // ------------------------------------------------------------- what Ok means

  // No server makes 2^32 calls in one incarnation.
  ghost predicate FewCalls(states: seq<Cluster>) {
    forall i, v {:trigger states[i].nodes[v]} :: 0 <= i < |states| && 0 <= v < |states[i].nodes| ==>
      |states[i].nodes[v].table.calls| < WORD
  }

  lemma PrefixRun(n: nat, events: seq<Event>, states: seq<Cluster>, j: nat)
    requires OrderedRun(n, events, states) && j < |states|
    ensures OrderedRun(n, events[..j], states[..j + 1])
  {
    var es, cs := events[..j], states[..j + 1];
    forall i | 0 <= i < |es|
      ensures Possible(cs[i], es[i]) && Fresh(cs[i], es[i]) && Ordered(cs[i], es[i]) && cs[i + 1] == Step(cs[i], es[i])
    {
      assert es[i] == events[i] && cs[i] == states[i] && cs[i + 1] == states[i + 1];
    }
  }

  // Whatever operation was delivered had been submitted before.
  lemma DeliveredWasSubmitted(n: nat, events: seq<Event>, states: seq<Cluster>, j: nat, d: Delivery) returns (m: nat)
    requires n > 0 && OrderedRun(n, events, states) && j < |states| && d in states[j].delivered && d.command.Op?
    ensures m < j && IsSubmit(events, m, d.command) && d.index > 0
  {
    PrefixRun(n, events, states, j);
    var es, cs := events[..j], states[..j + 1];
    var chosen, origin := CommandsExecuteOnce(n, es, cs);
    assert d in cs[j].delivered;
    m := origin[d.index];
    assert IsSubmit(es, m, chosen[d.index].command);
  }

  /** Ids come back only with an incarnation: two operations with one id are of one
      server and one call, and if it is submitted twice the server restarted in between. */
  lemma IdsRepeatAfterRestart(n: nat, events: seq<Event>, states: seq<Cluster>, i: nat, m: nat)
    requires n > 0 && Run(n, events, states) && FewCalls(states) && i < m < |events|
    requires events[i].Submit? && events[m].Submit? && events[i].c.id == events[m].c.id
    ensures events[i].v == events[m].v && events[i].call == events[m].call && !NoRestart(events, events[i].v, i + 1, m)
  {
    var ss := RunSimulated(n, events, states);
    var v, k := events[i].v, events[i].call;
    SameCall(n, events, states, ss, i, m, events[m].v, events[m].call);
    SameSize(n, events, states, i);
    assert Possible(states[m], events[m]);
    if NoRestart(events, v, i + 1, m) {
      OnceStarted(n, events, states, ss, i, m);
    }
  }

  // Start is called once for a call.
  lemma OnceStarted(n: nat, events: seq<Event>, states: seq<Cluster>, ss: seq<State>, i: nat, m: nat)
    requires Run(n, events, states) && Behind(states, ss) && i < m < |states| && events[i].Submit?
    requires NoRestart(events, events[i].v, i + 1, m)
    ensures var (v, k) := (events[i].v, events[i].call);
            && v < |states[m].nodes| && k < |states[m].nodes[v].table.calls|
            && states[m].nodes[v].table.calls[k].stage != Named
  {
    var v, k := events[i].v, events[i].call;
    SameSize(n, events, states, i);
    assert Possible(states[i], events[i]) && states[i + 1] == Step(states[i], events[i]);
    CallsKeptBetween(n, events, states, ss, v, i + 1, m);
    assert CallKept(states[i + 1].nodes[v].table.calls[k], states[m].nodes[v].table.calls[k]);
  }

  // The id of a submitted operation tells its server and its call.
  lemma SameCall(n: nat, events: seq<Event>, states: seq<Cluster>, ss: seq<State>, i: nat, j: nat, v: nat, k: nat)
    requires n > 0 && Run(n, events, states) && Behind(states, ss) && FewCalls(states) && i < |events| && j < |states|
    requires events[i].Submit? && v < |states[j].nodes| && k < |states[j].nodes[v].table.calls|
    requires events[i].c.id == states[j].nodes[v].table.calls[k].id
    ensures events[i].v == v && events[i].call == k
  {
    assert Possible(states[i], events[i]);
    IdOfCall(n, events, states, ss, i, events[i].v, events[i].call);
    IdOfCall(n, events, states, ss, j, v, k);
    OpIdsCoincide(events[i].v, events[i].call + 1, v, k + 1);
  }

  lemma IdOfCall(n: nat, events: seq<Event>, states: seq<Cluster>, ss: seq<State>, j: nat, v: nat, k: nat)
    requires n > 0 && Run(n, events, states) && Behind(states, ss) && FewCalls(states) && j < |states|
    requires v < |states[j].nodes| && k < |states[j].nodes[v].table.calls|
    ensures states[j].nodes[v].table.calls[k].id == OpId(v, k + 1) && k + 1 < WORD
  {
    CallsRun(n, events, states, ss, j, v);
    assert NodeTableOk(states[j], v);
  }

  ghost predicate SaidOk(c: Cluster, v: nat, k: nat) {
    v < |c.nodes| && k < |c.nodes[v].table.calls| && c.nodes[v].table.calls[k].stage == Returned(Ok)
  }

  // The operation was committed at this index, and what it did there is what DoOp
  // does on the fold of all before.
  ghost predicate DoneAt(chosen: seq<Entry>, index: int, c: Command) {
    && 0 < index < |chosen| && c.Op?
    && chosen[index].command == c
    && Fold(chosen, index) == DoOp(Fold(chosen, index - 1), c.req)
  }

  // What a call that was told Ok was told about.
  lemma OkDelivery(n: nat, events: seq<Event>, states: seq<Cluster>, ss: seq<State>, j: nat, v: nat, k: nat) returns (d: Delivery)
    requires n > 0 && OrderedRun(n, events, states) && Behind(states, ss) && j < |states| && SaidOk(states[j], v, k)
    ensures var call := states[j].nodes[v].table.calls[k];
            d in states[j].delivered && d.server == v && d.index == call.index && d.command.Op? && d.command.id == call.id
  {
    CallsRun(n, events, states, ss, j, v);
    assert NodeTableOk(states[j], v);
    var call := states[j].nodes[v].table.calls[k];
    assert ToldTruly(call, Executed(states[j], v));
    d :| d in states[j].delivered && d.server == v && d.command.Op? && (d.index, d.command.id) == (call.index, call.id);
  }

  // Until its server restarts, a call has the operation it was submitted with, and
  // the index and term that Start returned.
  lemma CallOfSubmit(n: nat, events: seq<Event>, states: seq<Cluster>, ss: seq<State>, i: nat, j: nat)
    requires Run(n, events, states) && Behind(states, ss) && i < j < |states| && events[i].Submit?
    requires NoRestart(events, events[i].v, i, j)
    ensures var (v, c, k) := (events[i].v, events[i].c, events[i].call);
            && v < |states[i].nodes| && v < |states[j].nodes| && k < |states[j].nodes[v].table.calls|
            && var call := states[j].nodes[v].table.calls[k];
               && c == Op(call.req, call.id)
               && (call.index, call.term) == (Start(states[i].nodes[v].peer, c).1, Start(states[i].nodes[v].peer, c).2)
  {
    var v, k := events[i].v, events[i].call;
    SameSize(n, events, states, i);
    assert Possible(states[i], events[i]) && states[i + 1] == Step(states[i], events[i]);
    CallsKeptBetween(n, events, states, ss, v, i + 1, j);
    assert CallKept(states[i + 1].nodes[v].table.calls[k], states[j].nodes[v].table.calls[k]);
  }

  // No event before this one submitted an operation with this id.
  ghost predicate NewId(events: seq<Event>, i: nat, id: int) {
    forall m {:trigger events[m]} :: 0 <= m < i && m < |events| && events[m].Submit? && events[m].c.Op? ==> events[m].c.id != id
  }

  lemma OwnOperation(n: nat, events: seq<Event>, states: seq<Cluster>, ss: seq<State>, i: nat, j: nat) returns (d: Delivery)
    requires n > 0 && OrderedRun(n, events, states) && Behind(states, ss) && FewCalls(states)
    requires i < j < |states| && events[i].Submit? && SaidOk(states[j], events[i].v, events[i].call)
    requires NewId(events, i, events[i].c.id) && NoRestart(events, events[i].v, i, j)
    ensures events[i].v < |states[i].nodes| && d in states[j].delivered
    ensures d.index == Start(states[i].nodes[events[i].v].peer, events[i].c).1 > 0 && d.command == events[i].c
  {
    CallOfSubmit(n, events, states, ss, i, j);
    d := OkDelivery(n, events, states, ss, j, events[i].v, events[i].call);
    var m := DeliveredWasSubmitted(n, events, states, j, d);
    if m > i {
      IdsRepeatAfterRestart(n, events, states, i, m);
    }
  }

  /** Submit's Ok is truthful: if event i calls Start for a call whose id was not submitted
      before, and the call then returns Ok, the operation was committed at the index Start
      returned, and every replica that passed the index executed it there, on the fold of
      all before. The server must not restart in between, as the call would then never return. */
  lemma OkIsTruthful(n: nat, events: seq<Event>, states: seq<Cluster>, i: nat, j: nat) returns (chosen: seq<Entry>)
    requires n > 0 && OrderedRun(n, events, states) && FewCalls(states)
    requires i < j < |states| && events[i].Submit? && SaidOk(states[j], events[i].v, events[i].call)
    requires NewId(events, i, events[i].c.id) && NoRestart(events, events[i].v, i, j)
    ensures events[i].v < |states[i].nodes|
    ensures DoneAt(chosen, Start(states[i].nodes[events[i].v].peer, events[i].c).1, events[i].c)
    ensures forall i, v {:trigger states[i].nodes[v]} :: 0 <= i < |states| && 0 <= v < |states[i].nodes| ==>
              FollowsChosen(states[i].nodes[v], chosen)
  {
    chosen := ReplicasAreFolds(n, events, states);
    var ss := RunSimulated(n, events, states);
    var d := OwnOperation(n, events, states, ss, i, j);
  }

  /** In particular for every call of a server that never restarted before. */
  lemma OkInFirstIncarnation(n: nat, events: seq<Event>, states: seq<Cluster>, i: nat, j: nat) returns (chosen: seq<Entry>)
    requires n > 0 && OrderedRun(n, events, states) && FewCalls(states)
    requires i < j < |states| && events[i].Submit? && SaidOk(states[j], events[i].v, events[i].call)
    requires NoRestart(events, events[i].v, 0, j)
    ensures events[i].v < |states[i].nodes|
    ensures DoneAt(chosen, Start(states[i].nodes[events[i].v].peer, events[i].c).1, events[i].c)
    ensures forall i, v {:trigger states[i].nodes[v]} :: 0 <= i < |states| && 0 <= v < |states[i].nodes| ==>
              FollowsChosen(states[i].nodes[v], chosen)
  {
    forall m | 0 <= m < i && events[m].Submit?
      ensures events[m].c.id != events[i].c.id
    {
      if events[m].c.id == events[i].c.id {
        IdsRepeatAfterRestart(n, events, states, m, i);
      }
    }
    chosen := OkIsTruthful(n, events, states, i, j);
  }

  /** After a restart an Ok is still about an operation with the call's id at its index,
      and it is about the call's own entry exactly if the entry committed there is of the
      term Start returned. */
  lemma OkIsOwnEntry(n: nat, events: seq<Event>, states: seq<Cluster>, j: nat, v: nat, k: nat) returns (chosen: seq<Entry>)
    requires n > 0 && OrderedRun(n, events, states) && j < |states| && SaidOk(states[j], v, k)
    ensures var call := states[j].nodes[v].table.calls[k];
            && 0 < call.index < |chosen| && chosen[call.index].command.Op? && chosen[call.index].command.id == call.id
            && (chosen[call.index] == Entry(call.term, Op(call.req, call.id)) <==> chosen[call.index].term == call.term)
    ensures forall i, v {:trigger states[i].nodes[v]} :: 0 <= i < |states| && 0 <= v < |states[i].nodes| ==>
              FollowsChosen(states[i].nodes[v], chosen)
  {
    var ss := RunSimulated(n, events, states);
    var top: nat;
    chosen, top := RunFollows(n, events, states, ss);
    var d := OkDelivery(n, events, states, ss, j, v, k);
    var m := DeliveredWasSubmitted(n, events, states, j, d);
    CallsRun(n, events, states, ss, j, v);
    var call, z := states[j].nodes[v].table.calls[k], ss[|ss| - 1];
    assert CallsPlaced(states[j], ss[j], v) && Placed(ss[j], call) && Grows(ss[j], z) && Simulates(states[|ss| - 1], z);
    PlacedStays(ss[j], z, call);
    assert CommitOk(z, top) && z.ordered && ReignOk(z, top) && Through(z, chosen, call.index);
  }

  // ----------------------------------------------------- sessions across the cluster

  /** What users of one session see depends on nothing but the committed commands of
      that session: any two running replicas, at any moments of a run, that have executed
      the same of them agree on the session. */
  lemma SessionsConverge(n: nat, events: seq<Event>, states: seq<Cluster>, code: string) returns (chosen: seq<Entry>)
    requires n > 0 && OrderedRun(n, events, states)
    ensures forall i, v {:trigger states[i].nodes[v]} :: 0 <= i < |states| && 0 <= v < |states[i].nodes| ==>
              var node := states[i].nodes[v];
              && node.handled < |chosen|
              && (node.up ==> AgreeOn(node.sessions, Replay(Only(Requests(chosen, 0, node.handled), code)), code))
              && (node.up ==> Described(node.sessions, Requests(chosen, 0, node.handled), code))
  {
    chosen := ReplicasAreFolds(n, events, states);
    forall i, v | 0 <= i < |states| && 0 <= v < |states[i].nodes|
      ensures var node := states[i].nodes[v];
              && node.handled < |chosen|
              && (node.up ==> AgreeOn(node.sessions, Replay(Only(Requests(chosen, 0, node.handled), code)), code))
              && (node.up ==> Described(node.sessions, Requests(chosen, 0, node.handled), code))
    {
      var node := states[i].nodes[v];
      assert FollowsChosen(node, chosen);
      FoldReplays(chosen, 0, node.handled);
      SessionDecomposition(Requests(chosen, 0, node.handled), code);
      ReplayDescribed(Requests(chosen, 0, node.handled), code);
    }
  }
}
