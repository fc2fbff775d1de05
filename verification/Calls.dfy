/** The calls of Submit, over whole runs: what they were told, and where their operations went. */
module Calls {
  import opened Session
  import opened Logs
  import opened Protocol
  import opened Steps
  import opened Peers
  import opened Waiters
  import opened Clusters
  import opened Refinement
  import opened Theorems

  // The indices at which server v's reader took an operation, with the operation's id.
  ghost function Executed(c: Cluster, v: nat): set<(int, int)> {
    set d | d in c.delivered && d.server == v && d.command.Op? :: (d.index, d.command.id)
  }

  ghost predicate NodeTableOk(c: Cluster, v: nat) {
    v < |c.nodes| ==>
      && TableOk(c.nodes[v].table, v, Executed(c, v))
      && DueOk(c.nodes[v].due, Executed(c, v))
  }

  ghost predicate DueOk(due: Due, executed: set<(int, int)>) {
    due.AnswerDue? ==> (due.index, due.id) in executed
  }

  // The operation of an accepted call is where Start put it, in the log of its term.
  ghost predicate Placed(s: State, call: Call) {
    call.stage != Named && call.index >= 0 ==>
      && call.index < |LogOf(s, call.term)|
      && LogOf(s, call.term)[call.index] == Entry(call.term, Op(call.req, call.id))
  }

  ghost predicate CallsPlaced(c: Cluster, s: State, v: nat) {
    v < |c.nodes| ==> forall k {:trigger Placed(s, c.nodes[v].table.calls[k])} ::
      0 <= k < |c.nodes[v].table.calls| ==> Placed(s, c.nodes[v].table.calls[k])
  }

  // -------------------------------------------------------------------- one event

  lemma SectionKeeps(node: Node, section: Section, v: nat, executed: set<(int, int)>)
    requires CanEnter(node, section) && node.peer.me == v && TableOk(node.table, v, executed) && DueOk(node.due, executed)
    ensures var y := AfterSection(node, section);
            TableOk(y.table, v, executed) && DueOk(y.due, executed) && CallsKept(node.table, y.table)
  {
    var t := node.table;
    match section
    case Entering(req) => EnterOk(t, v, executed, req);
    case Registering(k) => RegisterOk(t, v, executed, k);
    case Answering =>
      if node.due.AnswerDue? {
        AnswerOk(t, v, executed, node.due.index, node.due.id);
      } else {
        WakeSomeOk(t, v, executed, t.channels.Keys);
      }
    case Checking(term) => FailOk(t, v, executed, Earlier(t, term));
    case Hearing(k) => HearOk(t, v, executed, k);
    case Finishing(k) => FinishOk(t, v, executed, k);
  }

  lemma TableStep(c: Cluster, s: State, e: Event, v: nat)
    requires Simulates(c, s) && Possible(c, e) && NodeTableOk(c, v) && v < |c.nodes|
    ensures NodeTableOk(Step(c, e), v)
    ensures e != Restart(v) ==> CallsKept(c.nodes[v].table, Step(c, e).nodes[v].table)
  {
    var d, node := Step(c, e), c.nodes[v];
    assert NodeOk(s, v, node);
    assert Executed(c, v) <= Executed(d, v);
    MoreExecuted(node.table, v, Executed(c, v), Executed(d, v));
    if e.v == v {
      match e
      case Submit(_, command, k) =>
        var (q, index, term) := Start(node.peer, command);
        StartedOk(node.table, v, Executed(d, v), k, index, term, node.peer.role == Leader);
      case Above(_, section) => SectionKeeps(node, section, v, Executed(d, v));
      case Feed(_) => FedTable(c, v);
      case Restart(_) => assert d.nodes[v].table == EMPTY_TABLE;
      case _ => assert d.nodes[v].table == node.table && d.nodes[v].due == node.due;
    }
  }

  lemma FedTable(c: Cluster, v: nat)
    requires Possible(c, Feed(v))
    ensures Step(c, Feed(v)).nodes[v].table == c.nodes[v].table
    ensures DueOk(Step(c, Feed(v)).nodes[v].due, Executed(Step(c, Feed(v)), v))
  {
    var d, node := Step(c, Feed(v)), c.nodes[v];
    if node.applier.Batch? && |node.applier.entries| > 0 && node.applier.entries[0].command.Op? {
      var x := Delivery(v, node.applier.start, node.applier.entries[0].command);
      assert x in d.delivered;
      assert (x.index, x.command.id) in Executed(d, v);
    }
  }

  lemma PlacedStays(s: State, z: State, call: Call)
    requires Grows(s, z) && Placed(s, call)
    ensures Placed(z, call)
  {
    if call.stage != Named && call.index >= 0 {
      assert call.term in s.reigns && ReignGrows(s, z, call.term);
    }
  }

  // What Start appended is at the index it returned.
  lemma StartPlaces(c: Cluster, s: State, d: Cluster, z: State, v: nat, command: Command, k: nat)
    requires Simulates(c, s) && Possible(c, Submit(v, command, k)) && d == Step(c, Submit(v, command, k)) && Simulates(d, z)
    ensures Placed(z, d.nodes[v].table.calls[k])
  {
    var node, y := c.nodes[v], d.nodes[v];
    if node.peer.role == Leader {
      assert NodeOk(s, v, node) && NodeOk(z, v, y) && ServerOk(z, v);
      WindowTerms(y.peer.log, z.servers[v].base, z.servers[v].log);
      assert Last(y.peer.log) == Entry(node.peer.currentTerm, command);
      assert 0 < |node.peer.log|;
      assert y.peer.log[|y.peer.log| - 1] == z.servers[v].log[|z.servers[v].log| - 1];
    }
  }

  // Only Start places a call.
  ghost predicate NamedStays(t: Table, u: Table, k: nat) {
    k < |u.calls| && (k < |t.calls| ==> t.calls[k].stage == Named) ==> u.calls[k].stage == Named
  }

  lemma SectionPlacesNothing(node: Node, section: Section, k: nat)
    requires CanEnter(node, section) && Consistent(node.table, node.peer.me)
    ensures NamedStays(node.table, AfterSection(node, section).table, k)
  {
    if section.Answering? && node.due.AnswerDue? {
      assert RegisteredOk(node.table, node.due.index);
    }
  }

  lemma OnlyStartPlaces(c: Cluster, s: State, e: Event, v: nat, k: nat)
    requires Simulates(c, s) && Possible(c, e) && NodeTableOk(c, v) && v < |c.nodes|
    requires !(e.Submit? && e.v == v && e.call == k)
    ensures NamedStays(c.nodes[v].table, Step(c, e).nodes[v].table, k)
  {
    var node := c.nodes[v];
    assert NodeOk(s, v, node);
    if e.v == v {
      match e
      case Above(_, section) => SectionPlacesNothing(node, section, k);
      case Feed(_) => FedTable(c, v);
      case _ =>
    }
  }

  lemma PlacedStep(c: Cluster, s: State, e: Event, z: State, v: nat)
    requires Simulates(c, s) && Possible(c, e) && Simulates(Step(c, e), z) && Grows(s, z)
    requires NodeTableOk(c, v) && CallsPlaced(c, s, v) && v < |c.nodes|
    ensures CallsPlaced(Step(c, e), z, v)
  {
    var t, u := c.nodes[v].table, Step(c, e).nodes[v].table;
    forall k | 0 <= k < |u.calls|
      ensures Placed(z, u.calls[k])
    {
      if e.Submit? && e.v == v && e.call == k {
        StartPlaces(c, s, Step(c, e), z, v, e.c, k);
      } else {
        OnlyStartPlaces(c, s, e, v, k);
        CallStaysPlaced(c, s, e, z, v, k);
      }
    }
  }

  lemma CallStaysPlaced(c: Cluster, s: State, e: Event, z: State, v: nat, k: nat)
    requires Simulates(c, s) && Possible(c, e) && Grows(s, z)
    requires NodeTableOk(c, v) && CallsPlaced(c, s, v) && v < |c.nodes| && k < |Step(c, e).nodes[v].table.calls|
    requires NamedStays(c.nodes[v].table, Step(c, e).nodes[v].table, k)
    ensures Placed(z, Step(c, e).nodes[v].table.calls[k])
  {
    var t, u := c.nodes[v].table, Step(c, e).nodes[v].table;
    TableStep(c, s, e, v);
    if e != Restart(v) && k < |t.calls| {
      assert CallKept(t.calls[k], u.calls[k]) && Placed(s, t.calls[k]);
      PlacedStays(s, z, t.calls[k]);
    }
  }

  // ----------------------------------------------------------------- who is told what

  /** What the reader owes after a message: an answer at the index of the operation it has
      just executed, nothing after any other command, and after a snapshot, whose state it
      then has, an error to everyone. */
  lemma FeedOwes(c: Cluster, v: nat)
    requires Possible(c, Feed(v))
    ensures var (x, y) := (c.nodes[v], Step(c, Feed(v)).nodes[v]);
            match x.applier
            case SnapshotHeld(index, data) =>
              && y.due == WakeDue && y.handled == index && y.stream == x.stream + [ApplySnapshot(index, data)]
              && y.sessions == if data.Blob? then data.state else x.sessions
            case Batch(start, entries) => |entries| > 0 ==>
              && y.handled == start && y.stream == x.stream + [ApplyCommand(start, entries[0].command)]
              && (match entries[0].command
                  case Op(req, id) => y.due == AnswerDue(start, id) && y.sessions == DoOp(x.sessions, req)
                  case NoCommand => y.due == Nothing && y.sessions == x.sessions)
            case _ => true
  {
  }

  // Call k of server v before and after an event, and whether it was told something.
  ghost predicate Told(c: Cluster, d: Cluster, v: nat, k: nat, told: bool, r: OpResult)
    requires v < |c.nodes| && v < |d.nodes| && k < |c.nodes[v].table.calls|
  {
    && k < |d.nodes[v].table.calls|
    && var x := c.nodes[v].table.calls[k];
       d.nodes[v].table.calls[k] == if told then x.(sent := x.sent + [r]) else x
  }

  /** In every run the sections above a peer tell exactly those they should: an answer goes
      to the call registered at the index of the operation, Ok if it is its own; a snapshot
      fails every registered call; and the leader check every registered call of an earlier
      term, so that no call accepted in the peer's own term is ever failed by it. */
  lemma ToldExactly(n: nat, events: seq<Event>, states: seq<Cluster>, ss: seq<State>, i: nat, v: nat, section: Section, k: nat)
    requires Run(n, events, states) && Behind(states, ss) && i < |events| && events[i] == Above(v, section)
    requires v < |states[i].nodes| && k < |states[i].nodes[v].table.calls|
    ensures v < |states[i + 1].nodes|
    ensures var (node, call) := (states[i].nodes[v], states[i].nodes[v].table.calls[k]);
            var registered := Registered(node.table, k);
            match section
            case Answering =>
              states[i + 1].nodes[v].due == Nothing && !states[i + 1].nodes[v].compactable &&
              (match node.due
               case AnswerDue(index, id) =>
                 Told(states[i], states[i + 1], v, k, registered && call.index == index, if call.id == id then Ok else ErrWrongLeader)
               case WakeDue =>
                 Told(states[i], states[i + 1], v, k, registered, ErrWrongLeader) && states[i + 1].nodes[v].table.channels == map[]
               case Nothing => false)
            case Checking(term) =>
              && term <= node.peer.currentTerm
              && Told(states[i], states[i + 1], v, k, registered && call.term < term, ErrWrongLeader)
            case _ => true
  {
    CallsRun(n, events, states, ss, i, v);
    assert Possible(states[i], events[i]) && states[i + 1] == Step(states[i], events[i]);
    var t := states[i].nodes[v].table;
    assert Consistent(t, v);
    match section
    case Answering =>
      if states[i].nodes[v].due.AnswerDue? {
        AnsweredCall(t, v, states[i].nodes[v].due.index, states[i].nodes[v].due.id, k);
      } else {
        WokenCall(t, v, k);
      }
    case Checking(term) => CheckedCall(t, v, term, k);
    case _ =>
  }

  // --------------------------------------------------------------------- whole runs

  lemma CallsStep(c: Cluster, s: State, e: Event, z: State, v: nat)
    requires Simulates(c, s) && Possible(c, e) && Simulates(Step(c, e), z) && Grows(s, z)
    requires NodeTableOk(c, v) && CallsPlaced(c, s, v)
    ensures NodeTableOk(Step(c, e), v) && CallsPlaced(Step(c, e), z, v)
  {
    if v < |c.nodes| {
      TableStep(c, s, e, v);
      PlacedStep(c, s, e, z, v);
    }
  }

  lemma {:induction false} CallsRun(n: nat, events: seq<Event>, states: seq<Cluster>, ss: seq<State>, i: nat, v: nat)
    requires Run(n, events, states) && Behind(states, ss) && i < |states|
    ensures NodeTableOk(states[i], v) && CallsPlaced(states[i], ss[i], v)
  {
    if i == 0 {
      CallsAtStart(n, events, states, ss, v);
    } else {
      CallsRun(n, events, states, ss, i - 1, v);
      CallsAfter(n, events, states, ss, i, v);
    }
  }

  lemma CallsAtStart(n: nat, events: seq<Event>, states: seq<Cluster>, ss: seq<State>, v: nat)
    requires Run(n, events, states) && Behind(states, ss)
    ensures NodeTableOk(states[0], v) && CallsPlaced(states[0], ss[0], v)
  {
  }

  lemma CallsAfter(n: nat, events: seq<Event>, states: seq<Cluster>, ss: seq<State>, i: nat, v: nat)
    requires Run(n, events, states) && Behind(states, ss) && 0 < i < |states|
    requires NodeTableOk(states[i - 1], v) && CallsPlaced(states[i - 1], ss[i - 1], v)
    ensures NodeTableOk(states[i], v) && CallsPlaced(states[i], ss[i], v)
  {
    var e := events[i - 1];
    assert Simulates(states[i - 1], ss[i - 1]) && Simulates(states[i], ss[i]) && Grows(ss[i - 1], ss[i]);
    CallsStep(states[i - 1], ss[i - 1], e, ss[i], v);
  }

  ghost predicate NoRestart(events: seq<Event>, v: nat, i: nat, j: nat) {
    forall k {:trigger events[k]} :: i <= k < j && k < |events| ==> events[k] != Restart(v)
  }

  /** A call keeps its request, its id and its place as long as its server does not restart. */
  lemma {:induction false} CallsKeptBetween(n: nat, events: seq<Event>, states: seq<Cluster>, ss: seq<State>, v: nat, i: nat, j: nat)
    requires Run(n, events, states) && Behind(states, ss) && i <= j < |states| && v < n && NoRestart(events, v, i, j)
    ensures v < |states[i].nodes| && v < |states[j].nodes| && CallsKept(states[i].nodes[v].table, states[j].nodes[v].table)
    decreases j
  {
    SameSize(n, events, states, i);
    SameSize(n, events, states, j);
    if i < j {
      CallsKeptBetween(n, events, states, ss, v, i, j - 1);
      CallsRun(n, events, states, ss, j - 1, v);
      var e := events[j - 1];
      assert Simulates(states[j - 1], ss[j - 1]) && NodeTableOk(states[j - 1], v);
      TableStep(states[j - 1], ss[j - 1], e, v);
      KeptTwice(states[i].nodes[v].table, states[j - 1].nodes[v].table, states[j].nodes[v].table);
    }
  }

  lemma KeptTwice(t: Table, u: Table, w: Table)
    requires CallsKept(t, u) && CallsKept(u, w)
    ensures CallsKept(t, w)
  {
    forall k | 0 <= k < |t.calls|
      ensures CallKept(t.calls[k], w.calls[k])
    {
      assert CallKept(t.calls[k], u.calls[k]) && CallKept(u.calls[k], w.calls[k]);
    }
  }

  lemma {:induction false} SameSize(n: nat, events: seq<Event>, states: seq<Cluster>, i: nat)
    requires Run(n, events, states) && i < |states|
    ensures |states[i].nodes| == n
  {
    if i > 0 {
      SameSize(n, events, states, i - 1);
      assert Possible(states[i - 1], events[i - 1]) && states[i] == Step(states[i - 1], events[i - 1]);
    }
  }
}
