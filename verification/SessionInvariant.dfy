// What the session index keeps, in two tiers.
module SessionInvariant {
  import opened Options
  import opened SessionModel

  // ---- Tier one: what is indexed is true ----------------------------------

  ghost predicate Holds(st: Store, conn: Conn, code: Code, side: Side) {
    && code in st.sessions
    && match side
       case SideSender => st.sessions[code].sender == conn
       case SideReceiver => st.sessions[code].receiver == Some(conn)
       case SideUnknown => false
  }

  // Both maps have one domain, and every connection in it is held, on the side
  // the index says, by a live session. A dormant session holds no receiver.
  ghost predicate Linked(st: Store) {
    && st.codeOf.Keys == st.sideOf.Keys
    && (forall conn :: conn in st.codeOf ==> Holds(st, conn, st.codeOf[conn], st.sideOf[conn]))
    && (forall code :: code in st.sessions && st.sessions[code].gone ==> st.sessions[code].receiver.None?)
  }

  // ---- Tier two: and nothing else is held ---------------------------------

  ghost predicate Indexed(st: Store, conn: Conn, code: Code, side: Side) {
    conn in st.codeOf && st.codeOf[conn] == code && conn in st.sideOf && st.sideOf[conn] == side
  }

  ghost predicate HeldIndexed(st: Store, code: Code)
    requires code in st.sessions
  {
    var s := st.sessions[code];
    && Indexed(st, s.sender, code, SideSender)
    && (s.receiver.Some? ==> Indexed(st, s.receiver.value, code, SideReceiver))
  }

  // Every connection a session holds is indexed under it, on its side.
  ghost predicate Exact(st: Store) {
    Linked(st) && forall code :: code in st.sessions ==> HeldIndexed(st, code)
  }

  // ---- Store operations ----------------------------------------------------

  lemma JoinKeepsLinked(st: Store, code: Code, conn: Conn, now: int)
    requires Linked(st)
    ensures Linked(AddReceiver(st, code, conn, now))
  {
  }

  // Pointwise, on any store: after an accepted join the newcomer is indexed as the
  // receiver, whoever held that side before is not indexed any more, and nothing
  // else has changed.
  lemma JoinReplaces(st: Store, code: Code, conn: Conn, now: int, other: Conn, elsewhere: Code)
    requires Joinable(st, code) && other != conn && elsewhere != code
    ensures var st' := AddReceiver(st, code, conn, now);
      var s, s' := st.sessions[code], st'.sessions[code];
      && Indexed(st', conn, code, SideReceiver)
      && s' == Sess(s.sender, Some(conn), false, now + 5 * 60)
      && (other in st'.codeOf <==> other in st.codeOf && s.receiver != Some(other))
      && (other in st'.sideOf <==> other in st.sideOf && s.receiver != Some(other))
      && (other in st'.codeOf ==> st'.codeOf[other] == st.codeOf[other])
      && (other in st'.sideOf ==> st'.sideOf[other] == st.sideOf[other])
      && (elsewhere in st'.sessions <==> elsewhere in st.sessions)
      && (elsewhere in st.sessions ==> st'.sessions[elsewhere] == st.sessions[elsewhere])
  {
  }

  lemma DisconnectKeepsLinked(st: Store, code: Code, now: int)
    requires Linked(st)
    ensures Linked(DisconnectReceiver(st, code, now))
  {
  }

  lemma DeleteKeepsLinked(st: Store, code: Code)
    requires Linked(st)
    ensures Linked(Delete(st, code))
  {
  }

  // CreateSender overwrites whatever the code named before, so exactly: it keeps
  // the index true iff no other connection is indexed under that code.
  lemma CreateKeepsLinkedIff(st: Store, code: Code, conn: Conn, now: int)
    requires Linked(st)
    ensures Linked(CreateSender(st, code, conn, now)) <==>
      forall other :: other in st.codeOf && st.codeOf[other] == code ==> other == conn
  {
    var st' := CreateSender(st, code, conn, now);
    if Linked(st') {
      forall other | other in st.codeOf && st.codeOf[other] == code ensures other == conn {
        assert other in st'.codeOf;
      }
    }
  }

  lemma CreateKeepsExact(st: Store, code: Code, conn: Conn, now: int)
    requires Exact(st) && code !in st.sessions && conn !in st.codeOf
    ensures Exact(CreateSender(st, code, conn, now))
  {
    var st' := CreateSender(st, code, conn, now);
    forall k | k in st'.sessions ensures HeldIndexed(st', k) {
      if k != code { assert HeldIndexed(st, k); }
    }
  }

  lemma JoinKeepsExact(st: Store, code: Code, conn: Conn, now: int)
    requires Exact(st) && conn !in st.codeOf
    ensures Exact(AddReceiver(st, code, conn, now))
  {
    JoinKeepsLinked(st, code, conn, now);
    var st' := AddReceiver(st, code, conn, now);
    if Joinable(st, code) {
      assert st.sessions[code].receiver.None?;
      forall k | k in st'.sessions ensures HeldIndexed(st', k) {
        assert HeldIndexed(st, k);
      }
    }
  }

  lemma DisconnectKeepsExact(st: Store, code: Code, now: int)
    requires Exact(st)
    ensures Exact(DisconnectReceiver(st, code, now))
  {
    DisconnectKeepsLinked(st, code, now);
    var st' := DisconnectReceiver(st, code, now);
    forall k | k in st'.sessions ensures HeldIndexed(st', k) {
      assert HeldIndexed(st, k);
      if code in st.sessions { assert HeldIndexed(st, code); }
    }
  }

  lemma DeleteKeepsExact(st: Store, code: Code)
    requires Exact(st)
    ensures Exact(Delete(st, code))
  {
    DeleteKeepsLinked(st, code);
    var st' := Delete(st, code);
    forall k | k in st'.sessions ensures HeldIndexed(st', k) {
      assert HeldIndexed(st, k);
      if code in st.sessions { assert HeldIndexed(st, code); }
    }
  }
}
