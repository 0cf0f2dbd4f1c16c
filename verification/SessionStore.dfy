// internal/server/sessions.go as written: three maps and heap sessions, changed
// in place. Each method is tied to its critical section in SessionModel.
module SessionStore {
  import opened Options
  import M = SessionModel
  type Conn = M.Conn
  type Code = M.Code

  class Session {
    const senderConn: Conn
    var receiverConn: Option<Conn>
    var expiresAt: int
    var receiverGone: bool

    constructor (conn: Conn, expiresAt: int)
      ensures senderConn == conn && receiverConn == None && !receiverGone && this.expiresAt == expiresAt
    {
      senderConn := conn;
      receiverConn := None;
      this.expiresAt := expiresAt;
      receiverGone := false;
    }

    ghost function View(): M.Sess
      reads this
    {
      M.Sess(senderConn, receiverConn, receiverGone, expiresAt)
    }
  }

  class SessionStore {
    var sessions: map<Code, Session>
    var connToCode: map<Conn, Code>
    var connToSide: map<Conn, M.Side>

    // No two codes share a session object.
    ghost predicate Valid()
      reads this
    {
      forall a, b :: a in sessions && b in sessions && a != b ==> sessions[a] != sessions[b]
    }

    ghost function View(): M.Store
      reads this, sessions.Values
    {
      M.Store(map code | code in sessions :: sessions[code].View(), connToCode, connToSide)
    }

    constructor ()
      ensures Valid() && View() == M.EmptyStore
    {
      sessions, connToCode, connToSide := map[], map[], map[];
    }

    method CreateSender(code: Code, conn: Conn, now: int) returns (s: Session)
      requires Valid()
      modifies this
      ensures Valid() && fresh(s) && sessions == old(sessions)[code := s]
      ensures View() == M.CreateSender(old(View()), code, conn, now)
    {
      s := new Session(conn, now + M.SessionTtl);
      ghost var st := View();
      sessions := sessions[code := s];
      assert View().sessions == st.sessions[code := s.View()];
      connToCode := connToCode[conn := code];
      connToSide := connToSide[conn := M.SideSender];
    }

    method Unmap(conn: Option<Conn>)
      requires Valid()
      modifies this
      ensures Valid() && sessions == old(sessions)
      ensures connToCode == if conn.Some? then old(connToCode) - {conn.value} else old(connToCode)
      ensures connToSide == if conn.Some? then old(connToSide) - {conn.value} else old(connToSide)
      ensures View() == M.Unmap(old(View()), conn)
    {
      if conn.Some? {
        connToCode := connToCode - {conn.value};
        connToSide := connToSide - {conn.value};
      }
    }

    // The writes of AddReceiver to the session itself.
    method Attach(code: Code, conn: Conn, now: int)
      requires Valid() && code in sessions
      modifies this, sessions.Values
      ensures Valid() && sessions == old(sessions)
      ensures sessions[code].receiverConn == Some(conn)
      ensures View() == M.Attach(old(View()), code, conn, now)
    {
      var s := sessions[code];
      assert View().sessions[code] == s.View();
      Unmap(s.receiverConn);
      s.receiverConn := Some(conn);
      s.receiverGone := false;
      s.expiresAt := now + M.SessionTtl;
    }

    method AddReceiver(code: Code, conn: Conn, now: int) returns (s: Session?, ok: bool)
      requires Valid()
      modifies this, sessions.Values
      ensures Valid() && sessions == old(sessions)
      ensures ok == M.Joinable(old(View()), code)
      ensures if ok then code in sessions && s == sessions[code] && s.receiverConn == Some(conn) else s == null
      ensures View() == M.AddReceiver(old(View()), code, conn, now)
    {
      if code !in sessions {
        return null, false;
      }
      s := sessions[code];
      assert View().sessions[code] == s.View();
      if s.receiverConn.Some? && !s.receiverGone {
        return null, false;
      }
      Attach(code, conn, now);
      connToCode := connToCode[conn := code];
      connToSide := connToSide[conn := M.SideReceiver];
      return s, true;
    }

    method Lookup(conn: Conn) returns (code: Code, s: Session?, side: M.Side, ok: bool)
      requires Valid()
      ensures ok <==> M.Lookup(View(), conn).Hit?
      ensures ok ==> M.Lookup(View(), conn) == M.Hit(code, if s == null then None else Some(s.View()), side)
      ensures ok && s != null ==> code in sessions && s == sessions[code]
    {
      if conn !in connToCode {
        return "", null, M.SideUnknown, false;
      }
      code := connToCode[conn];
      s := if code in sessions then sessions[code] else null;
      side := if conn in connToSide then connToSide[conn] else M.SideUnknown;
      return code, s, side, true;
    }

    method DisconnectReceiver(code: Code, now: int)
      requires Valid()
      modifies this, sessions.Values
      ensures Valid() && sessions == old(sessions)
      ensures View() == M.DisconnectReceiver(old(View()), code, now)
    {
      if code !in sessions {
        return;
      }
      var s := sessions[code];
      assert View().sessions[code] == s.View();
      if s.receiverConn.Some? {
        Unmap(s.receiverConn);
        s.receiverConn := None;
      }
      s.receiverGone := true;
      s.expiresAt := now + M.ReconnectTtl;
    }

    method Delete(code: Code)
      requires Valid()
      modifies this
      ensures Valid() && sessions == old(sessions) - {code}
      ensures View() == M.Delete(old(View()), code)
    {
      if code !in sessions {
        return;
      }
      var s := sessions[code];
      assert View().sessions[code] == s.View();
      Unmap(Some(s.senderConn));
      Unmap(s.receiverConn);
      ghost var st := View();
      sessions := sessions - {code};
      assert View().sessions == st.sessions - {code};
    }

    // The collecting half of evictExpired: the codes of expired sessions, in
    // whatever order the map yields them.
    method CollectExpired(now: int) returns (expired: seq<Code>)
      requires Valid()
      ensures forall k :: k in expired <==> k in M.Expired(View(), now)
    {
      expired := [];
      var unseen := sessions.Keys;
      while unseen != {}
        invariant unseen <= sessions.Keys
        invariant forall k :: k in expired <==> k in M.Expired(View(), now) && k !in unseen
        decreases unseen
      {
        var code :| code in unseen;
        assert View().sessions[code] == sessions[code].View();
        if now > sessions[code].expiresAt {
          expired := expired + [code];
        }
        unseen := unseen - {code};
      }
    }

    // evictExpired run without interruption: collect, then delete one after the
    // other.
    method EvictExpired(now: int)
      requires Valid()
      modifies this
      ensures Valid()
      ensures View() == M.EvictAll(old(View()), M.Expired(old(View()), now))
    {
      ghost var st := View();
      var expired := CollectExpired(now);
      ghost var gone: set<Code> := {};
      for i := 0 to |expired|
        invariant Valid() && forall k :: k in gone <==> k in expired[..i]
        invariant View() == M.EvictAll(st, gone)
      {
        Delete(expired[i]);
        M.EvictOneMore(st, gone, expired[i]);
        gone := gone + {expired[i]};
      }
      assert gone == M.Expired(st, now);
    }
  }
}
