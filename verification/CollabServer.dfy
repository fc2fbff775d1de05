/** The collaborative editing server as an object: one record per session, updated in place. */
module CollabServers {
  import opened Session

  // One session of a running server.
  class SessionRecord {
    var doc: seq<byte>
    var proposals: map<string, Proposal>
    var roles: map<string, string>
    var creator: string

    constructor (s: SessionState)
      ensures Value() == s
    {
      doc, proposals, roles, creator := s.doc, s.proposals, s.roles, s.creator;
    }

    function Value(): SessionState
      reads this
    {
      SessionState(doc, proposals, roles, creator)
    }

    method Update(req: Request)
      requires req.CrdtUpdate?
      modifies this
      ensures Value() == Edit(old(Value()), req)
    {
      doc := req.update;
    }

    method ChangeProposal(req: Request)
      requires req.ProposalCmd?
      modifies this
      ensures Value() == Edit(old(Value()), req)
    {
      if req.action == "add" {
        proposals := proposals[req.proposal.id := req.proposal];
      } else if req.action == "accept" || req.action == "reject" {
        proposals := proposals - {req.proposal.id};
      }
    }

    method ChangeRole(req: Request)
      requires req.RoleChange?
      modifies this
      ensures Value() == Edit(old(Value()), req)
    {
      roles := roles[req.user := req.role];
    }

    method CreateOrJoin(req: Request)
      requires req.SessionCmd?
      modifies this
      ensures Value() == Edit(old(Value()), req)
    {
      if req.action == "create" {
        creator := req.user;
        roles := roles[req.user := "editor"];
      } else if req.action == "join" {
        if req.user !in roles {
          roles := roles[req.user := "viewer"];
        }
      }
    }

    method Perform(req: Request)
      requires Touches(req)
      modifies this
      ensures Value() == Edit(old(Value()), req)
    {
      match req
      case CrdtUpdate(_, _) => Update(req);
      case ProposalCmd(_, _, _) => ChangeProposal(req);
      case RoleChange(_, _, _) => ChangeRole(req);
      case SessionCmd(_, _, _) => CreateOrJoin(req);
    }
  }

  class CollabServer {
    var sessions: map<string, SessionRecord>

    // No two codes share a record.
    ghost predicate Valid()
      reads this
    {
      forall a, b :: a in sessions && b in sessions && a != b ==> sessions[a] != sessions[b]
    }

    function View(): Sessions
      reads this, sessions.Values
    {
      map code | code in sessions :: sessions[code].Value()
    }

    constructor ()
      ensures Valid() && View() == map[]
    {
      sessions := map[];
    }

    method GetOrCreate(code: string) returns (s: SessionRecord)
      requires Valid()
      modifies this
      ensures Valid() && code in sessions && sessions[code] == s
      ensures s.Value() == if code in old(View()) then old(View())[code] else SessionState([], map[], map[], "")
      ensures View() == old(View())[code := s.Value()]
      ensures forall c :: c in sessions ==> (c in old(sessions) && sessions[c] == old(sessions)[c]) || fresh(sessions[c])
    {
      if code in sessions {
        s := sessions[code];
        assert s in sessions.Values;
      } else {
        s := new SessionRecord(NEW_SESSION);
        sessions := sessions[code := s];
      }
    }

    method DoOp(req: Request)
      requires Valid()
      modifies this, sessions.Values
      ensures Valid() && View() == Session.DoOp(old(View()), req)
      ensures forall c :: c in sessions ==> (c in old(sessions) && sessions[c] == old(sessions)[c]) || fresh(sessions[c])
    {
      if Touches(req) {
        var s := GetOrCreate(req.code);
        assert req.code in old(sessions) || fresh(s);
        ChangeOne(s, req, old(View()));
      }
    }

    // Changing one record changes one session.
    method ChangeOne(s: SessionRecord, req: Request, ghost before: Sessions)
      requires Valid() && Touches(req) && req.code in sessions && sessions[req.code] == s
      requires View() == before[req.code := s.Value()]
      modifies s
      ensures Valid() && View() == before[req.code := Edit(old(s.Value()), req)]
    {
      s.Perform(req);
      assert forall code :: code in sessions && code != req.code ==> sessions[code].Value() == old(sessions[code].Value());
    }

    // ------------------------------------------------------------------ readers

    method GetRole(code: string, user: string) returns (role: string)
      requires Valid()
      ensures role == if code in View() && user in View()[code].roles then View()[code].roles[user] else "viewer"
    {
      if code !in sessions {
        return "viewer";
      }
      var s := sessions[code];
      if user in s.roles {
        return s.roles[user];
      }
      return "viewer";
    }

    method GetSession(code: string, user: string) returns (role: string, found: bool)
      requires Valid()
      ensures found <==> code in View()
      ensures !found ==> role == ""
      ensures found ==> role == if user in View()[code].roles then View()[code].roles[user] else "viewer"
    {
      if code !in sessions {
        return "", false;
      }
      var s := sessions[code];
      if user !in s.roles {
        return "viewer", true;
      }
      return s.roles[user], true;
    }

    // ---------------------------------------------------------------- snapshots

    method Snapshot() returns (data: Blob)
      requires Valid()
      ensures data == Blob(View())
    {
      data := Blob(View());
    }

    // Replaces every session by the ones in the snapshot; what does not decode changes nothing.
    method Restore(data: Blob)
      requires Valid()
      modifies this
      ensures Valid() && View() == if data.Blob? then data.state else old(View())
      ensures if data.Blob? then forall c :: c in sessions ==> fresh(sessions[c]) else sessions == old(sessions)
    {
      if data.NoBlob? {
        return;
      }
      var decoded: map<string, SessionRecord> := map[];
      var left := data.state.Keys;
      while left != {}
        invariant left <= data.state.Keys && decoded.Keys == data.state.Keys - left
        invariant forall code :: code in decoded ==> fresh(decoded[code]) && decoded[code].Value() == data.state[code]
        invariant forall a, b :: a in decoded && b in decoded && a != b ==> decoded[a] != decoded[b]
        decreases left
      {
        var code :| code in left;
        var s := new SessionRecord(data.state[code]);
        decoded := decoded[code := s];
        left := left - {code};
      }
      sessions := decoded;
    }
  }

  /** Handing over a snapshot: a server restored from it has exactly the sessions of the
      one that took it, whatever it had before, and from then on the two are independent:
      a command executed by one leaves the other as it is. */
  method HandOver(from: CollabServer, to: CollabServer, req: Request) returns (data: Blob)
    requires from != to && from.Valid() && to.Valid()
    modifies to
    ensures to.Valid() && to.View() == Session.DoOp(old(from.View()), req) && from.View() == old(from.View())
  {
    data := from.Snapshot();
    to.Restore(data);
    to.DoOp(req);
  }
}
