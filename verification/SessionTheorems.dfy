// The signaling server over every run of its critical sections.
module SessionTheorems {
  import opened Options
  import opened SessionModel
  import opened SessionInvariant

  // ---- Tier one: codes are never reused -----------------------------------

  // A cleanup under way concerns the connection's own place in its session, or
  // a session that is gone.
  ghost predicate OwnCleanup(s: Server, conn: Conn)
    requires conn in s.handlers
  {
    match s.handlers[conn]
    case Cleaning(code, side) =>
      code in s.issued && (code in s.store.sessions ==> Holds(s.store, conn, code, side))
    case _ => true
  }

  ghost predicate TierOne(s: Server) {
    && Linked(s.store)
    && s.store.sessions.Keys <= s.issued
    && (forall conn :: conn in s.handlers ==> OwnCleanup(s, conn))
  }

  lemma JoinKeepsOwn(r: Rules, s: Server, a: Action)
    requires TierOne(s) && Enabled(r, s, a) && a.Join?
    ensures TierOne(Apply(r, s, a))
  {
  }

  lemma CreateKeepsOwn(r: Rules, s: Server, a: Action)
    requires r.freshCodes && TierOne(s) && Enabled(r, s, a) && a.Create?
    ensures TierOne(Apply(r, s, a))
  {
  }

  lemma CleanupKeepsOwn(r: Rules, s: Server, a: Action)
    requires TierOne(s) && Enabled(r, s, a) && a.Cleanup?
    ensures TierOne(Apply(r, s, a))
  {
  }

  lemma EvictKeepsOwn(r: Rules, s: Server, a: Action)
    requires TierOne(s) && Enabled(r, s, a) && a.Evict?
    ensures TierOne(Apply(r, s, a))
  {
  }

  lemma StepKeepsTierOne(r: Rules, s: Server, a: Action)
    requires r.freshCodes && TierOne(s)
    ensures TierOne(Step(r, s, a))
  {
    if Enabled(r, s, a) {
      match a
      case Create(_, _) => CreateKeepsOwn(r, s, a);
      case Join(_, _) => JoinKeepsOwn(r, s, a);
      case Cleanup(_) => CleanupKeepsOwn(r, s, a);
      case Evict(_) => EvictKeepsOwn(r, s, a);
      case Dial(_) =>
      case Hangup(_) =>
      case Pass(_) =>
      case Scan =>
    }
  }

  lemma {:induction false} RunKeepsTierOne(r: Rules, acts: seq<Action>)
    requires r.freshCodes
    ensures TierOne(Exec(r, Fresh, acts))
    decreases |acts|
  {
    if acts != [] {
      RunKeepsTierOne(r, acts[..|acts| - 1]);
      StepKeepsTierOne(r, Exec(r, Fresh, acts[..|acts| - 1]), acts[|acts| - 1]);
    }
  }

  // Whatever clients send, a lookup finds a live session holding the connection
  // on a known side, and a relay reaches the other end of that session only.
  lemma LookupNeverDangles(r: Rules, acts: seq<Action>, conn: Conn)
    requires r.freshCodes
    ensures var st := Exec(r, Fresh, acts).store;
      && st.codeOf.Keys == st.sideOf.Keys
      && !Dangling(st, conn)
      && match Lookup(st, conn)
         case Missing => RelayTarget(st, conn) == None
         case Hit(code, session, side) =>
           && code in st.sessions && session == Some(st.sessions[code])
           && ((side == SideSender && session.value.sender == conn &&
                RelayTarget(st, conn) == session.value.receiver)
            || (side == SideReceiver && session.value.receiver == Some(conn) &&
                RelayTarget(st, conn) == Some(session.value.sender)))
  {
    RunKeepsTierOne(r, acts);
  }

  // cleanupConn looks up and acts in two critical sections; in no interleaving
  // with joins, exits or evictions does a receiver's cleanup detach anyone but
  // that receiver, or a sender's delete a session that is not its own.
  lemma CleanupTouchesOwnSessionOnly(r: Rules, acts: seq<Action>, conn: Conn)
    requires r.freshCodes
    requires Enabled(r, Exec(r, Fresh, acts), Cleanup(conn))
    ensures var s := Exec(r, Fresh, acts);
      var h := s.handlers[conn];
      var st, st' := s.store, Apply(r, s, Cleanup(conn)).store;
      && (forall code :: code in st.sessions && code != h.code ==>
          code in st'.sessions && st'.sessions[code] == st.sessions[code])
      && (h.code !in st.sessions ==> st' == st)
      && (h.code in st.sessions && h.side.SideReceiver? ==>
          && st.sessions[h.code].receiver == Some(conn)
          && st'.sessions[h.code] == Sess(st.sessions[h.code].sender, None, true, s.now + ReconnectTtl)
          && st'.codeOf == st.codeOf - {conn} && st'.sideOf == st.sideOf - {conn})
      && (h.code in st.sessions && !h.side.SideReceiver? ==>
          st.sessions[h.code].sender == conn && h.code !in st'.sessions)
  {
    RunKeepsTierOne(r, acts);
    assert OwnCleanup(Exec(r, Fresh, acts), conn);
  }

  // Tier one does need fresh codes: after a collision the first sender is taken
  // for the second's, relays to its receiver and deletes its session on leaving.
  lemma CollisionMisleads(code: Code)
    ensures exists s ::
      && Reachable(Rules(false, true), s)
      && code in s.store.sessions && s.store.sessions[code].sender == 1
      && Lookup(s.store, 0) == Hit(code, Some(s.store.sessions[code]), SideSender)
      && Delete(s.store, code).sessions == map[]
  {
    var s := Collision(code);
  }

  lemma Collision(code: Code) returns (s: Server)
    ensures Reachable(Rules(false, true), s)
    ensures s.store.sessions == map[code := Sess(1, None, false, SessionTtl)]
    ensures s.store.codeOf == map[0 := code, 1 := code] && s.store.sideOf == map[0 := SideSender, 1 := SideSender]
    ensures s.handlers == map[0 := Reading, 1 := Reading]
  {
    var r := Rules(false, true);
    var s1 := Step(r, Fresh, Dial(0));
    var s2 := Step(r, s1, Create(0, code));
    var s3 := Step(r, s2, Dial(1));
    s := Step(r, s3, Create(1, code));
    FreshIsReachable(r);
    StepIsReachable(r, Fresh, Dial(0));
    StepIsReachable(r, s1, Create(0, code));
    StepIsReachable(r, s2, Dial(1));
    StepIsReachable(r, s3, Create(1, code));
  }

  // And when the second sender leaves, the first one's next relay panics.
  lemma CollisionPanics(code: Code)
    ensures exists s ::
      Reachable(Rules(false, true), s) && 0 in s.handlers && s.handlers[0] == Reading && Dangling(s.store, 0)
  {
    var r := Rules(false, true);
    var s := Collision(code);
    var s1 := Step(r, s, Hangup(1));
    var s2 := Step(r, s1, Cleanup(1));
    StepIsReachable(r, s, Hangup(1));
    StepIsReachable(r, s1, Cleanup(1));
    assert s1.handlers[1] == Cleaning(code, SideSender);
    assert s2.store == Delete(s.store, code);
    assert s2.store.sessions == map[] && s2.store.codeOf[0] == code && s2.store.sideOf[0] == SideSender;
  }

  // ---- Tier two: and one create or join per connection --------------------

  ghost predicate TierTwo(s: Server) {
    && TierOne(s)
    && Exact(s.store)
    && s.store.codeOf.Keys <= s.spoken
  }

  lemma StepKeepsTierTwo(r: Rules, s: Server, a: Action)
    requires r.freshCodes && r.oneRequest && TierTwo(s)
    ensures TierTwo(Step(r, s, a))
  {
    StepKeepsTierOne(r, s, a);
    if Enabled(r, s, a) {
      match a
      case Create(conn, code) => CreateKeepsExact(s.store, code, conn, s.now);
      case Join(conn, code) => JoinKeepsExact(s.store, code, conn, s.now);
      case Cleanup(conn) =>
        DisconnectKeepsExact(s.store, s.handlers[conn].code, s.now);
        DeleteKeepsExact(s.store, s.handlers[conn].code);
      case Evict(code) => DeleteKeepsExact(s.store, code);
      case Dial(_) =>
      case Hangup(_) =>
      case Pass(_) =>
      case Scan =>
    }
  }

  lemma {:induction false} RunKeepsTierTwo(r: Rules, acts: seq<Action>)
    requires r.freshCodes && r.oneRequest
    ensures TierTwo(Exec(r, Fresh, acts))
    decreases |acts|
  {
    if acts != [] {
      RunKeepsTierTwo(r, acts[..|acts| - 1]);
      StepKeepsTierTwo(r, Exec(r, Fresh, acts[..|acts| - 1]), acts[|acts| - 1]);
    }
  }

  ghost predicate Sits(st: Store, conn: Conn, code: Code, side: Side) {
    code in st.sessions && side != SideUnknown && Holds(st, conn, code, side)
  }

  // The index is exact in both directions: a connection sits in a session on a
  // side iff the maps say so. Hence it sits in one session, on one side, at most.
  lemma IndexIsExact(r: Rules, acts: seq<Action>, conn: Conn, code: Code, side: Side)
    requires r.freshCodes && r.oneRequest
    ensures var st := Exec(r, Fresh, acts).store;
      Sits(st, conn, code, side) <==> Indexed(st, conn, code, side)
  {
    RunKeepsTierTwo(r, acts);
    var st := Exec(r, Fresh, acts).store;
    if code in st.sessions { assert HeldIndexed(st, code); }
  }

  lemma OneSeatPerConnection(r: Rules, acts: seq<Action>, conn: Conn,
                             code: Code, side: Side, code': Code, side': Side)
    requires r.freshCodes && r.oneRequest
    requires Sits(Exec(r, Fresh, acts).store, conn, code, side)
    requires Sits(Exec(r, Fresh, acts).store, conn, code', side')
    ensures code == code' && side == side'
  {
    IndexIsExact(r, acts, conn, code, side);
    IndexIsExact(r, acts, conn, code', side');
  }

  lemma DeleteUnmapsItsOwn(st: Store, code: Code, conn: Conn)
    requires Exact(st)
    ensures var st' := Delete(st, code);
      conn in st'.codeOf <==> conn in st.codeOf && st.codeOf[conn] != code
  {
  }

  // Deleting a session (sender exit or eviction) removes it and exactly the
  // connections indexed under it; nobody else notices.
  lemma DeleteIsLocal(r: Rules, acts: seq<Action>, code: Code)
    requires r.freshCodes && r.oneRequest
    ensures var st := Exec(r, Fresh, acts).store;
      var st' := Delete(st, code);
      && st'.sessions == st.sessions - {code}
      && (forall conn :: conn in st'.codeOf <==> conn in st.codeOf && st.codeOf[conn] != code)
      && st'.codeOf.Keys == st'.sideOf.Keys
      && (forall conn :: conn in st'.codeOf ==>
          st'.codeOf[conn] == st.codeOf[conn] && conn in st.sideOf && st'.sideOf[conn] == st.sideOf[conn])
  {
    RunKeepsTierTwo(r, acts);
    var st := Exec(r, Fresh, acts).store;
    DeleteKeepsLinked(st, code);
    forall conn ensures conn in Delete(st, code).codeOf <==> conn in st.codeOf && st.codeOf[conn] != code {
      DeleteUnmapsItsOwn(st, code, conn);
    }
  }

  // Tier two does need its second rule: after joining two sessions, a
  // connection is cut off from the second when the first is deleted.
  lemma SecondJoinBreaksExactness(a: Code, b: Code)
    requires a != b
    ensures exists s ::
      Reachable(Rules(true, false), s) && Sits(s.store, 2, b, SideReceiver) && Lookup(s.store, 2) == Missing
  {
    var r := Rules(true, false);
    TwoSessions(a, b);
    var s :| Reachable(r, s) && HasTwo(s, a, b);
    var s1 := Step(r, s, Join(2, a));
    var s2 := Step(r, s1, Join(2, b));
    StepIsReachable(r, s, Join(2, a));
    StepIsReachable(r, s1, Join(2, b));
    assert Indexed(s2.store, 2, b, SideReceiver) && s2.store.sessions[a].receiver == Some(2);
    FirstSenderLeaves(r, s2, a, b);
  }

  lemma FirstSenderLeaves(r: Rules, s: Server, a: Code, b: Code)
    requires Reachable(r, s) && a != b && a in s.store.sessions && b in s.store.sessions
    requires s.store.sessions[a].receiver == Some(2) && s.store.sessions[b].receiver == Some(2)
    requires 0 in s.handlers && s.handlers[0] == Reading && Indexed(s.store, 0, a, SideSender)
    ensures exists s' :: Reachable(r, s') && Sits(s'.store, 2, b, SideReceiver) && Lookup(s'.store, 2) == Missing
  {
    var s1 := Step(r, s, Hangup(0));
    var s2 := Step(r, s1, Cleanup(0));
    StepIsReachable(r, s, Hangup(0));
    StepIsReachable(r, s1, Cleanup(0));
    assert s1.handlers[0] == Cleaning(a, SideSender);
    assert s2.store == Delete(s.store, a);
    assert 2 !in s2.store.codeOf;
    assert Sits(s2.store, 2, b, SideReceiver);
  }

  ghost predicate HasTwo(s: Server, a: Code, b: Code) {
    && s.store.sessions == map[a := Sess(0, None, false, SessionTtl), b := Sess(1, None, false, SessionTtl)]
    && s.store.codeOf == map[0 := a, 1 := b] && s.store.sideOf == map[0 := SideSender, 1 := SideSender]
    && s.handlers == map[0 := Reading, 1 := Reading, 2 := Reading]
  }

  lemma TwoSessions(a: Code, b: Code)
    requires a != b
    ensures exists s :: Reachable(Rules(true, false), s) && HasTwo(s, a, b)
  {
    var r := Rules(true, false);
    var s1 := Step(r, Fresh, Dial(0));
    var s2 := Step(r, s1, Create(0, a));
    var s3 := Step(r, s2, Dial(1));
    var s4 := Step(r, s3, Create(1, b));
    var s5 := Step(r, s4, Dial(2));
    FreshIsReachable(r);
    StepIsReachable(r, Fresh, Dial(0));
    StepIsReachable(r, s1, Create(0, a));
    StepIsReachable(r, s2, Dial(1));
    StepIsReachable(r, s3, Create(1, b));
    StepIsReachable(r, s4, Dial(2));
    assert HasTwo(s5, a, b);
  }

  // ---- Time ----------------------------------------------------------------

  // Each deadline, exactly: five minutes from the creation or from an accepted join,
  // a rejoin included, fifteen from the departure of the receiver. No other step
  // moves it.
  lemma DeadlinesMoveOnlySo(r: Rules, s: Server, a: Action, code: Code)
    requires Enabled(r, s, a)
    ensures var s' := Apply(r, s, a);
      code in s'.store.sessions ==>
        var deadline := s'.store.sessions[code].expiresAt;
        if a.Create? && a.code == code then deadline == s.now + 5 * 60
        else if a.Join? && a.code == code && Joinable(s.store, code) then deadline == s.now + 5 * 60
        else if a.Cleanup? && s.handlers[a.conn] == Cleaning(code, SideReceiver) then deadline == s.now + 15 * 60
        else code in s.store.sessions && deadline == s.store.sessions[code].expiresAt
  {
  }

  // Deadlines of the sessions that no eviction under way is about to delete.
  ghost predicate Timely(s: Server) {
    && s.lastScan <= s.now <= s.lastScan + CleanupInterval
    && (forall code :: code in s.store.sessions ==> s.store.sessions[code].expiresAt <= s.now + ReconnectTtl)
    && (forall code :: code in s.store.sessions && code !in s.evicting ==>
        s.lastScan <= s.store.sessions[code].expiresAt)
  }

  lemma StepKeepsTimely(r: Rules, s: Server, a: Action)
    requires Timely(s)
    ensures Timely(Step(r, s, a))
  {
  }

  lemma {:induction false} RunKeepsTimely(r: Rules, acts: seq<Action>)
    ensures Timely(Exec(r, Fresh, acts))
    decreases |acts|
  {
    if acts != [] {
      RunKeepsTimely(r, acts[..|acts| - 1]);
      StepKeepsTimely(r, Exec(r, Fresh, acts[..|acts| - 1]), acts[|acts| - 1]);
    }
  }

  // With ticks at most one interval apart, no session outlives its deadline by
  // more than one interval, except while the eviction that has collected it is
  // still deleting; and no deadline lies further ahead than the longest window.
  lemma NoSessionOverstays(r: Rules, acts: seq<Action>, code: Code)
    ensures var s := Exec(r, Fresh, acts);
      code in s.store.sessions ==>
        && s.store.sessions[code].expiresAt - s.now <= 15 * 60
        && (code !in s.evicting ==> s.now - s.store.sessions[code].expiresAt <= 60)
  {
    RunKeepsTimely(r, acts);
  }

  // evictExpired lets go of the lock between collecting and deleting: a session
  // that was collected, then rejoined, is deleted with its new deadline ahead.
  lemma RejoinedSessionCanBeEvicted(r: Rules, s: Server, code: Code, conn: Conn)
    requires code in s.evicting && Joinable(s.store, code) && MayAsk(r, s, conn)
    ensures var s1 := Step(r, s, Join(conn, code));
      var s2 := Step(r, s1, Evict(code));
      && code in s1.store.sessions && s1.store.sessions[code].receiver == Some(conn)
      && s1.store.sessions[code].expiresAt > s1.now
      && code !in s2.store.sessions && s2.now == s1.now
  {
  }

  // An uninterrupted eviction removes exactly the sessions past their deadline,
  // with exactly the connections indexed under them.
  lemma EvictionIsExact(r: Rules, acts: seq<Action>, conn: Conn, code: Code)
    requires r.freshCodes && r.oneRequest
    ensures var s := Exec(r, Fresh, acts);
      var st := s.store;
      var st' := EvictAll(st, Expired(st, s.now));
      && (code in st'.sessions <==> code in st.sessions && s.now <= st.sessions[code].expiresAt)
      && (code in st'.sessions ==> st'.sessions[code] == st.sessions[code])
      && (Indexed(st', conn, code, SideSender) <==> code in st'.sessions && st'.sessions[code].sender == conn)
      && (conn in st'.codeOf <==> conn in st.codeOf && st.codeOf[conn] in st'.sessions)
  {
    RunKeepsTierTwo(r, acts);
    var s := Exec(r, Fresh, acts);
    var st := s.store;
    if code in st.sessions { assert HeldIndexed(st, code); }
  }
}
