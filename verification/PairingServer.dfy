// The server of the pairing model is the session store seen from one session:
// what its slot says is what the index says about the sender's connection s and
// the present receiver's connection v, and what it relays goes where
// handleRelay sends it.
module PairingServer {
  import opened Options
  import opened PairingModel
  import I = SessionInvariant
  import M = SessionModel

  ghost predicate Mirrors(st: M.Store, n: Net, s: M.Conn, v: M.Conn) {
    && I.Exact(st) && s != v
    && (n.live <==> n.code in st.sessions)
    && (if n.live then st.sessions[n.code].sender == s else s !in st.codeOf)
    && (n.live ==> SlotMirrors(st.sessions[n.code], n.slot, v))
    && (!n.live || n.slot.Vacant? || n.slot.Leaving? ==> v !in st.codeOf)
  }

  // Until its clean-up has run, a receiver that is gone still holds the session.
  ghost predicate SlotMirrors(sess: M.Sess, slot: Slot, v: M.Conn) {
    match slot
    case Vacant => sess.receiver == None
    case Leaving => sess.receiver.Some? && sess.receiver != Some(v) && !sess.gone
    case _ => sess.receiver == Some(v) && !sess.gone
  }

  // The critical sections behind the server's steps.
  function StoreStep(st: M.Store, n: Net, a: Action, v: M.Conn, now: int): M.Store {
    match a
    case ServeReceiver =>
      if n.r2v != [] && n.r2v[0].kind.JoinSession? && n.r2v[0].code == n.code
      then M.AddReceiver(st, n.code, v, now) else st
    case Detach => M.DisconnectReceiver(st, n.code, now)
    case Close => M.Delete(st, n.code)
    case Expire => M.Delete(st, n.code)
    case _ => st
  }

  lemma JoinMirrors(st: M.Store, n: Net, s: M.Conn, v: M.Conn, now: int)
    requires Mirrors(st, n, s, v)
    ensures M.Joinable(st, n.code) <==> n.live && n.slot.Vacant?
    ensures n.live && n.slot.Vacant? ==>
      Mirrors(M.AddReceiver(st, n.code, v, now), n.(slot := Slot.Attached), s, v)
  {
    if n.live && n.slot.Vacant? {
      I.JoinKeepsExact(st, n.code, v, now);
    }
  }

  lemma DetachMirrors(st: M.Store, n: Net, s: M.Conn, v: M.Conn, now: int)
    requires Mirrors(st, n, s, v) && n.slot.Leaving?
    ensures Mirrors(M.DisconnectReceiver(st, n.code, now), n.(slot := Vacant), s, v)
  {
    I.DisconnectKeepsExact(st, n.code, now);
  }

  lemma DeleteMirrors(st: M.Store, n: Net, s: M.Conn, v: M.Conn)
    requires Mirrors(st, n, s, v) && n.live
    ensures Mirrors(M.Delete(st, n.code), n.(live := false), s, v)
  {
    I.DeleteKeepsExact(st, n.code);
    assert I.HeldIndexed(st, n.code);
  }

  // Only the session's own fields are mirrored.
  lemma SameSessionMirrors(st: M.Store, n: Net, n': Net, s: M.Conn, v: M.Conn)
    requires Mirrors(st, n, s, v) && n'.code == n.code && n'.live == n.live
    requires n'.slot == n.slot || (Taken(n.slot) && Taken(n'.slot))
    ensures Mirrors(st, n', s, v)
  {
  }

  predicate Taken(slot: Slot) { slot.Attached? || slot.ToldOne? || slot.Paired? }

  // The steps that are none of the store's.
  lemma OtherStepsMirror(r: Rules, n: Net, a: Action)
    requires Enabled(r, n, a) && !a.Depart? && !a.ServeReceiver? && !a.Detach? && !a.Close? && !a.Expire?
    ensures var n' := Apply(r, n, a);
      && n'.code == n.code && n'.live == n.live
      && (n'.slot == n.slot || (Taken(n.slot) && Taken(n'.slot)))
  {
  }

  lemma ServeMirrors(r: Rules, st: M.Store, n: Net, s: M.Conn, v: M.Conn, now: int)
    requires Mirrors(st, n, s, v) && Enabled(r, n, ServeReceiver)
    ensures Mirrors(StoreStep(st, n, ServeReceiver, v, now), Apply(r, n, ServeReceiver), s, v)
  {
    JoinMirrors(st, n, s, v, now);
    var n' := Apply(r, n, ServeReceiver);
    if n.r2v[0].kind.JoinSession? && n.r2v[0].code == n.code && n.live && n.slot.Vacant? {
      SameSessionMirrors(M.AddReceiver(st, n.code, v, now), n.(slot := Slot.Attached), n', s, v);
    } else {
      SameSessionMirrors(st, n, n', s, v);
    }
  }

  // Every step is one of the store's critical sections, or touches no session.
  lemma StoreFollows(r: Rules, st: M.Store, n: Net, a: Action, s: M.Conn, v: M.Conn, now: int)
    requires Mirrors(st, n, s, v) && Enabled(r, n, a) && !a.Depart?
    ensures Mirrors(StoreStep(st, n, a, v, now), Apply(r, n, a), s, v)
  {
    if a.ServeReceiver? {
      ServeMirrors(r, st, n, s, v, now);
    } else if a.Detach? {
      DetachMirrors(st, n, s, v, now);
    } else if a.Close? || a.Expire? {
      DeleteMirrors(st, n, s, v);
    } else {
      OtherStepsMirror(r, n, a);
      SameSessionMirrors(st, n, Apply(r, n, a), s, v);
    }
  }

  // A receiver that goes leaves its connection in the index; the next one comes
  // with a connection the store has not seen.
  lemma DepartFollows(r: Rules, st: M.Store, n: Net, s: M.Conn, v: M.Conn, next: M.Conn)
    requires Mirrors(st, n, s, v) && Enabled(r, n, Depart)
    requires next !in st.codeOf && next != s && next != v
    ensures Mirrors(st, Apply(r, n, Depart), s, next)
  {
    if n.live {
      assert I.HeldIndexed(st, n.code);
    }
  }

  // Relays go to the other end exactly when the slot says so; at other times
  // there is no target, or one that is gone: that write fails, or is lost.
  lemma RelaysFollow(st: M.Store, n: Net, s: M.Conn, v: M.Conn)
    requires Mirrors(st, n, s, v)
    ensures M.RelayTarget(st, s) == Some(v) <==> Connected(n)
    ensures M.RelayTarget(st, s).Some? ==> n.live && (Connected(n) || n.slot.Leaving?)
    ensures M.RelayTarget(st, v) == if Connected(n) then Some(s) else None
  {
    if n.live {
      assert I.HeldIndexed(st, n.code);
    }
  }

  // What happens to other sessions does not show.
  lemma OthersDoNotShow(st: M.Store, n: Net, s: M.Conn, v: M.Conn, code: M.Code, conn: M.Conn, now: int)
    requires Mirrors(st, n, s, v) && code != n.code && conn != s && conn != v && conn !in st.codeOf
    ensures code !in st.sessions ==> Mirrors(M.CreateSender(st, code, conn, now), n, s, v)
    ensures Mirrors(M.AddReceiver(st, code, conn, now), n, s, v)
    ensures Mirrors(M.DisconnectReceiver(st, code, now), n, s, v)
    ensures Mirrors(M.Delete(st, code), n, s, v)
  {
    if code !in st.sessions { I.CreateKeepsExact(st, code, conn, now); }
    I.JoinKeepsExact(st, code, conn, now);
    I.DisconnectKeepsExact(st, code, now);
    I.DeleteKeepsExact(st, code);
  }

  // ---- Whole runs ----------------------------------------------------------

  // The store and the present receiver's connection along a run: the sender's
  // connection is 0, receivers come with 1, 2 and so on. `at` is the clock.
  ghost function Follow(r: Rules, n: Net, acts: seq<Action>, at: nat -> int): (M.Store, nat) {
    if acts == [] then (M.CreateSender(M.EmptyStore, n.code, 0, at(0)), 1)
    else
      var front, a := acts[..|acts| - 1], acts[|acts| - 1];
      var (st, v) := Follow(r, n, front, at);
      var n1 := Exec(r, n, front);
      if !Enabled(r, n1, a) then (st, v)
      else if a.Depart? then (st, v + 1)
      else (StoreStep(st, n1, a, v, at(|acts|)), v)
  }

  lemma StoreStepAdds(st: M.Store, n: Net, a: Action, v: M.Conn, now: int)
    ensures StoreStep(st, n, a, v, now).codeOf.Keys <= st.codeOf.Keys + {v}
  {
  }

  // In every run the pairing model's server mirrors a store that has gone
  // through its critical sections, and its relays are that store's.
  lemma {:induction false} RunMirrors(r: Rules, code: string, p: Params, acts: seq<Action>, at: nat -> int)
    ensures var n := Exec(r, Opened(code, p), acts);
      var (st, v) := Follow(r, Opened(code, p), acts, at);
      && Mirrors(st, n, 0, v)
      && v > 0 && (forall conn :: conn in st.codeOf ==> conn <= v)
      && (M.RelayTarget(st, 0) == Some(v) <==> Connected(n))
      && M.RelayTarget(st, v) == (if Connected(n) then Some(0) else None)
    decreases |acts|
  {
    var n := Exec(r, Opened(code, p), acts);
    var (st, v) := Follow(r, Opened(code, p), acts, at);
    if acts == [] {
      I.CreateKeepsExact(M.EmptyStore, code, 0, at(0));
      assert Mirrors(st, n, 0, v);
    } else {
      var front, a := acts[..|acts| - 1], acts[|acts| - 1];
      RunMirrors(r, code, p, front, at);
      var n1 := Exec(r, Opened(code, p), front);
      var (st1, v1) := Follow(r, Opened(code, p), front, at);
      if Enabled(r, n1, a) {
        if a.Depart? {
          DepartFollows(r, st1, n1, 0, v1, v1 + 1);
        } else {
          StoreFollows(r, st1, n1, a, 0, v1, at(|acts|));
          StoreStepAdds(st1, n1, a, v1, at(|acts|));
        }
      }
    }
    RelaysFollow(st, n, 0, v);
  }
}
