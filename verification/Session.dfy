/** The replicated state machine: collaborative editing sessions and the commands on them. */
module Session {

  newtype byte = x: int | 0 <= x < 256

  datatype Proposal = Proposal(id: string, author: string, replacement: string, originalText: string,
                               relStart: string, relEnd: string, startLine: int, endLine: int)

  datatype SessionState = SessionState(doc: seq<byte>, proposals: map<string, Proposal>,
                                       roles: map<string, string>, creator: string)

  // Sessions by invite code.
  type Sessions = map<string, SessionState>

  // The commands a replica executes. Any other value reaching it is an Unknown.
  datatype Request =
    | CrdtUpdate(code: string, update: seq<byte>)
    | ProposalCmd(code: string, proposal: Proposal, action: string)
    | RoleChange(code: string, user: string, role: string)
    | SessionCmd(code: string, user: string, action: string)
    | Unknown

  const NEW_SESSION: SessionState := SessionState([], map[], map[], "")

  function GetOrCreate(s: Sessions, code: string): SessionState {
    if code in s then s[code] else NEW_SESSION
  }

  // A session command creates its session even if it then changes nothing,
  // except a session command with an action other than create or join.
  predicate Touches(r: Request) {
    match r
    case Unknown => false
    case SessionCmd(_, _, action) => action == "create" || action == "join"
    case _ => true
  }

  // What a command does to the session it names.
  function Edit(x: SessionState, r: Request): SessionState {
    match r
    case CrdtUpdate(_, update) => x.(doc := update)
    case ProposalCmd(_, p, action) =>
      if action == "add" then x.(proposals := x.proposals[p.id := p])
      else if action == "accept" || action == "reject" then x.(proposals := x.proposals - {p.id})
      else x
    case RoleChange(_, user, role) => x.(roles := x.roles[user := role])
    case SessionCmd(_, user, action) =>
      if action == "create" then x.(creator := user, roles := x.roles[user := "editor"])
      else if action == "join" && user !in x.roles then x.(roles := x.roles[user := "viewer"])
      else x
    case Unknown => x
  }

  function DoOp(s: Sessions, r: Request): Sessions {
    if Touches(r) then s[r.code := Edit(GetOrCreate(s, r.code), r)] else s
  }

  // The bytes of a snapshot, or none. Decoding what was encoded gives it back.
  datatype Blob = NoBlob | Blob(state: Sessions)

  // ------------------------------------------------------------- command logs

  // The state a log of commands leads to from a state.
  function Apply(s: Sessions, log: seq<Request>): Sessions {
    if |log| == 0 then s else DoOp(Apply(s, log[..|log| - 1]), log[|log| - 1])
  }

  function Replay(log: seq<Request>): Sessions {
    Apply(map[], log)
  }

  // A command that names this session and does something to it.
  predicate Concerns(r: Request, code: string) {
    Touches(r) && r.code == code
  }

  // The commands of one session, in order.
  function Only(log: seq<Request>, code: string): seq<Request> {
    if |log| == 0 then []
    else
      var rest := Only(log[..|log| - 1], code);
      if Concerns(log[|log| - 1], code) then rest + [log[|log| - 1]] else rest
  }

  // Two states agree on one session, or neither has it.
  predicate AgreeOn(a: Sessions, b: Sessions, code: string) {
    (code in a <==> code in b) && (code in a ==> a[code] == b[code])
  }

  /** Sessions do not interfere: a log leaves a session as the session's own commands do. */
  lemma {:induction false} SessionDecomposition(log: seq<Request>, code: string)
    ensures AgreeOn(Replay(log), Replay(Only(log, code)), code)
    ensures code in Replay(log) <==> |Only(log, code)| > 0
  {
    if |log| > 0 {
      var front, last := log[..|log| - 1], log[|log| - 1];
      SessionDecomposition(front, code);
      if Concerns(last, code) {
        var only := Only(log, code);
        assert only[..|only| - 1] == Only(front, code) && only[|only| - 1] == last;
      }
    }
  }

  /** Logs that order every session's commands alike lead to the same state. */
  lemma ReorderingSessions(a: seq<Request>, b: seq<Request>)
    requires forall code :: Only(a, code) == Only(b, code)
    ensures Replay(a) == Replay(b)
  {
    forall code
      ensures AgreeOn(Replay(a), Replay(b), code)
    {
      SessionDecomposition(a, code);
      SessionDecomposition(b, code);
    }
    SameSessions(Replay(a), Replay(b));
  }

  lemma SameSessions(a: Sessions, b: Sessions)
    requires forall code :: AgreeOn(a, b, code)
    ensures a == b
  {
    forall code
      ensures code in a <==> code in b
      ensures code in a ==> a[code] == b[code]
    {
      assert AgreeOn(a, b, code);
    }
  }

  // ------------------------------------------------------------- closed forms

  // The commands that decide one part of a session.
  predicate SetsDoc(r: Request, code: string) {
    r.CrdtUpdate? && r.code == code
  }

  predicate SetsProposal(r: Request, code: string, id: string) {
    r.ProposalCmd? && r.code == code && r.proposal.id == id && r.action in {"add", "accept", "reject"}
  }

  predicate AssignsRole(r: Request, code: string, user: string) {
    (r.RoleChange? && r.code == code && r.user == user) ||
    (r.SessionCmd? && r.code == code && r.user == user && r.action == "create")
  }

  predicate Joins(r: Request, code: string, user: string) {
    r.SessionCmd? && r.code == code && r.user == user && r.action == "join"
  }

  predicate Creates(r: Request, code: string) {
    r.SessionCmd? && r.code == code && r.action == "create"
  }

  // The position of the last command with a property, -1 if there is none.
  function LastSuch(log: seq<Request>, p: Request -> bool): (k: int)
    ensures -1 <= k < |log|
    ensures k >= 0 ==> p(log[k])
    ensures forall j :: k < j < |log| ==> !p(log[j])
  {
    if |log| == 0 then -1
    else if p(log[|log| - 1]) then |log| - 1
    else LastSuch(log[..|log| - 1], p)
  }

  // A session after a log of commands from a state, the new session if there is none.
  function StateOf(s: Sessions, log: seq<Request>, code: string): SessionState {
    GetOrCreate(Apply(s, log), code)
  }

  /** A session exists if it did before, or a command concerned it. */
  lemma {:induction false} ExistsOnceConcerned(s: Sessions, log: seq<Request>, code: string)
    ensures code in Apply(s, log) <==> code in s || LastSuch(log, r => Concerns(r, code)) >= 0
  {
    if |log| > 0 {
      ExistsOnceConcerned(s, log[..|log| - 1], code);
    }
  }

  /** The document of a session is its last update. */
  lemma {:induction false} DocIsLastUpdate(s: Sessions, log: seq<Request>, code: string)
    ensures var k := LastSuch(log, r => SetsDoc(r, code));
            StateOf(s, log, code).doc == if k == -1 then GetOrCreate(s, code).doc else log[k].update
  {
    if |log| > 0 {
      var front := log[..|log| - 1];
      DocIsLastUpdate(s, front, code);
      var k := LastSuch(front, r => SetsDoc(r, code));
      assert k >= 0 ==> front[k] == log[k];
    }
  }

  /** The creator of a session is the last user who created it. */
  lemma {:induction false} CreatorIsLast(s: Sessions, log: seq<Request>, code: string)
    ensures var k := LastSuch(log, r => Creates(r, code));
            StateOf(s, log, code).creator == if k == -1 then GetOrCreate(s, code).creator else log[k].user
  {
    if |log| > 0 {
      var front := log[..|log| - 1];
      CreatorIsLast(s, front, code);
      var k := LastSuch(front, r => Creates(r, code));
      assert k >= 0 ==> front[k] == log[k];
    }
  }

  /** A proposal is pending exactly if the last command that added, accepted or
      rejected it added it, and then it is what was added. */
  lemma {:induction false} PendingProposals(s: Sessions, log: seq<Request>, code: string, id: string)
    ensures var k := LastSuch(log, r => SetsProposal(r, code, id));
            var before, after := GetOrCreate(s, code).proposals, StateOf(s, log, code).proposals;
            if k == -1 then (id in after <==> id in before) && (id in after ==> after[id] == before[id])
            else (id in after <==> log[k].action == "add") && (id in after ==> after[id] == log[k].proposal)
  {
    if |log| > 0 {
      var front := log[..|log| - 1];
      PendingProposals(s, front, code, id);
      var k := LastSuch(front, r => SetsProposal(r, code, id));
      assert k >= 0 ==> front[k] == log[k];
    }
  }

  // The role a command assigns.
  function Assigned(r: Request): string
    requires r.RoleChange? || r.SessionCmd?
  {
    if r.RoleChange? then r.role else "editor"
  }

  /** The role of a user is the last one assigned; joining only gives a viewer's
      role to a user who has none. */
  lemma {:induction false} RoleIsLastAssigned(s: Sessions, log: seq<Request>, code: string, user: string)
    ensures var k := LastSuch(log, r => AssignsRole(r, code, user));
            var joined := LastSuch(log, r => Joins(r, code, user)) >= 0;
            var before, after := GetOrCreate(s, code).roles, StateOf(s, log, code).roles;
            && (user in after <==> k >= 0 || joined || user in before)
            && (user in after ==>
                  after[user] == if k >= 0 then Assigned(log[k]) else if user in before then before[user] else "viewer")
  {
    if |log| > 0 {
      var front := log[..|log| - 1];
      RoleIsLastAssigned(s, front, code, user);
      var k := LastSuch(front, r => AssignsRole(r, code, user));
      assert k >= 0 ==> front[k] == log[k];
    }
  }

  // ------------------------------------------------------------- from nothing

  // A command that makes its session exist.
  predicate Opens(r: Request, code: string) {
    match r
    case CrdtUpdate(c, _) => c == code
    case ProposalCmd(c, _, _) => c == code
    case RoleChange(c, _, _) => c == code
    case SessionCmd(c, _, action) => c == code && action in {"create", "join"}
    case Unknown => false
  }

  predicate DocIs(doc: seq<byte>, log: seq<Request>, code: string) {
    var k := LastSuch(log, r => SetsDoc(r, code));
    doc == if k == -1 then [] else log[k].update
  }

  predicate CreatorIs(creator: string, log: seq<Request>, code: string) {
    var k := LastSuch(log, r => Creates(r, code));
    creator == if k == -1 then "" else log[k].user
  }

  predicate ProposalIs(proposals: map<string, Proposal>, log: seq<Request>, code: string, id: string) {
    var k := LastSuch(log, r => SetsProposal(r, code, id));
    && (id in proposals <==> k >= 0 && log[k].action == "add")
    && (id in proposals ==> proposals[id] == log[k].proposal)
  }

  predicate RoleIs(roles: map<string, string>, log: seq<Request>, code: string, user: string) {
    var k := LastSuch(log, r => AssignsRole(r, code, user));
    && (user in roles <==> k >= 0 || LastSuch(log, r => Joins(r, code, user)) >= 0)
    && (user in roles ==> roles[user] == if k == -1 then "viewer" else if log[k].RoleChange? then log[k].role else "editor")
  }

  // What a log alone says about one session.
  ghost predicate Described(s: Sessions, log: seq<Request>, code: string) {
    && (code in s <==> LastSuch(log, r => Opens(r, code)) >= 0)
    && (code in s ==>
          && DocIs(s[code].doc, log, code)
          && CreatorIs(s[code].creator, log, code)
          && (forall id {:trigger ProposalIs(s[code].proposals, log, code, id)} :: ProposalIs(s[code].proposals, log, code, id))
          && (forall user {:trigger RoleIs(s[code].roles, log, code, user)} :: RoleIs(s[code].roles, log, code, user)))
  }

  /** A session from nothing: it exists once a command opened it; its document is the last
      update, if any; its creator the last who created it, if anyone; a proposal is pending
      exactly if it was added last; a user has a role exactly if one was assigned, and then
      the last one, or the user joined, and then a viewer's. */
  lemma ReplayDescribed(log: seq<Request>, code: string)
    ensures Described(Replay(log), log, code)
  {
    OpenedOnce(log, code);
    if code in Replay(log) {
      DocIsLastUpdate(map[], log, code);
      CreatorIsLast(map[], log, code);
      var x := Replay(log)[code];
      forall id
        ensures ProposalIs(x.proposals, log, code, id)
      {
        PendingProposals(map[], log, code, id);
      }
      forall user
        ensures RoleIs(x.roles, log, code, user)
      {
        RoleIsLastAssigned(map[], log, code, user);
      }
    }
  }

  lemma {:induction false} OpenedOnce(log: seq<Request>, code: string)
    ensures code in Replay(log) <==> LastSuch(log, r => Opens(r, code)) >= 0
  {
    if |log| > 0 {
      OpenedOnce(log[..|log| - 1], code);
    }
  }

  // ------------------------------------------------------------ executing again

  lemma SameRoles(s: Sessions, log: seq<Request>, code: string)
    ensures var t := Apply(s, log); StateOf(t, log, code).roles == GetOrCreate(t, code).roles
  {
    var t := Apply(s, log);
    forall user
      ensures user in StateOf(t, log, code).roles <==> user in GetOrCreate(t, code).roles
      ensures user in GetOrCreate(t, code).roles ==> StateOf(t, log, code).roles[user] == GetOrCreate(t, code).roles[user]
    {
      RoleIsLastAssigned(s, log, code, user);
      RoleIsLastAssigned(t, log, code, user);
    }
  }

  lemma SameProposals(s: Sessions, log: seq<Request>, code: string)
    ensures var t := Apply(s, log); StateOf(t, log, code).proposals == GetOrCreate(t, code).proposals
  {
    var t := Apply(s, log);
    forall id
      ensures id in StateOf(t, log, code).proposals <==> id in GetOrCreate(t, code).proposals
      ensures id in GetOrCreate(t, code).proposals ==>
                StateOf(t, log, code).proposals[id] == GetOrCreate(t, code).proposals[id]
    {
      PendingProposals(s, log, code, id);
      PendingProposals(t, log, code, id);
    }
  }

  /** Executing a log of commands again, from the state it led to, changes nothing. */
  lemma ExecutingAgain(s: Sessions, log: seq<Request>)
    ensures Apply(Apply(s, log), log) == Apply(s, log)
  {
    var t := Apply(s, log);
    forall code
      ensures AgreeOn(Apply(t, log), t, code)
    {
      ExistsOnceConcerned(s, log, code);
      ExistsOnceConcerned(t, log, code);
      DocIsLastUpdate(s, log, code);
      DocIsLastUpdate(t, log, code);
      CreatorIsLast(s, log, code);
      CreatorIsLast(t, log, code);
      SameRoles(s, log, code);
      SameProposals(s, log, code);
    }
    SameSessions(Apply(t, log), t);
  }
}
