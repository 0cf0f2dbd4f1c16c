// What the conditions of PairingInvariant are worth: with the opposite order of
// notifications, or receivers that leave halfway, a message that is needed can
// be thrown away; then, and when the session expires, a setup can stand still.
module PairingHazards {
  import opened Options
  import opened Messages
  import opened PairingModel
  import opened PairingInvariant
  import opened PairingTheorems
  import opened PairingExpiry

  const P0 := Params(0, "", "", [])
  const Begin := Opened("c", P0)
  const Start: Msg := Wire(Relay, Some(Share(RoleSender, "c", 0)))

  // A receiver has knocked and the server has attached it; the sender's first
  // SPAKE2 message is on its way to the server.
  ghost predicate AttachedTooLate(r: Rules, n: Net) {
    && Reaches(r, Begin, n)
    && n.slot == (if r.receiverFirst then Attached else ToldOne)
    && n.spc == SExchange && n.rpc == RJoining && n.live
    && n.s2v == [Start] && n.v2s == [] && n.r2v == [] && n.v2r == []
    && n.discarded == []
  }

  lemma Knock(r: Rules, n: Net) returns (n': Net)
    requires Reaches(r, Begin, n) && n.rpc == RAbsent && n.slot == Vacant && n.code == "c"
    requires n.r2v == [] && n.v2r == [] && n.live
    ensures n' == n.(slot := Attached, rpc := RJoining, rcode := "c", rp := P0, rk := Nothing)
    ensures Reaches(r, Begin, n')
  {
    var n1 := n.(rpc := RJoin, rcode := "c", rp := P0, rk := Nothing);
    assert Step(r, n, Arrive("c", P0)) == n1;
    ReachesStep(r, Begin, n, Arrive("c", P0), n1);
    var n2 := n1.(rpc := RJoining, r2v := [JoinMsg("c")]);
    assert Step(r, n1, ReceiverSends) == n2;
    ReachesStep(r, Begin, n1, ReceiverSends, n2);
    n' := n2.(slot := Attached, r2v := []);
    assert Step(r, n2, ServeReceiver) == n';
    ReachesStep(r, Begin, n2, ServeReceiver, n');
  }

  // The sender takes its session_ready and speaks.
  lemma SpeakUp(r: Rules, n: Net) returns (n': Net)
    requires Reaches(r, Begin, n) && n.spc == SWaitPeer && n.v2s == [Ready] && n.s2v == []
    requires n.code == "c" && n.sp == P0
    ensures n' == n.(spc := SExchange, sk := Nothing, v2s := [], s2v := [Start])
    ensures Reaches(r, Begin, n')
  {
    var n1 := n.(spc := SStart, sk := Nothing, v2s := []);
    assert Step(r, n, SenderReads) == n1;
    ReachesStep(r, Begin, n, SenderReads, n1);
    n' := n1.(spc := SExchange, s2v := [Start]);
    assert Step(r, n1, SenderSends) == n';
    ReachesStep(r, Begin, n1, SenderSends, n');
  }

  // Notifying the sender first is one way there.
  lemma SenderToldFirst(r: Rules)
    requires !r.receiverFirst
    ensures exists n :: AttachedTooLate(r, n)
  {
    ReachesSelf(r, Begin);
    var n1 := Knock(r, Begin);
    var n2 := n1.(slot := ToldOne, v2s := [Ready]);
    assert Step(r, n1, Notify) == n2;
    ReachesStep(r, Begin, n1, Notify, n2);
    var n3 := SpeakUp(r, n2);
    assert AttachedTooLate(r, n3);
  }

  // The server tells both.
  lemma BothTold(r: Rules, n: Net) returns (n': Net)
    requires Reaches(r, Begin, n) && r.receiverFirst
    requires n.slot == Attached && n.v2r == [] && n.v2s == []
    ensures n' == n.(slot := Paired, v2r := [Ready], v2s := [Ready])
    ensures Reaches(r, Begin, n')
  {
    var n1 := n.(slot := ToldOne, v2r := [Ready]);
    assert Step(r, n, Notify) == n1;
    ReachesStep(r, Begin, n, Notify, n1);
    n' := n1.(slot := Paired, v2s := [Ready]);
    assert Step(r, n1, Notify) == n';
    ReachesStep(r, Begin, n1, Notify, n');
  }

  // A receiver joins, is paired, and leaves.
  lemma ComeAndGo(r: Rules, n: Net) returns (n': Net)
    requires Reaches(r, Begin, n) && r.receiverFirst && r.mayLeave
    requires n.slot == Attached && n.rpc == RJoining && n.r2v == [] && n.v2r == [] && n.v2s == []
    ensures n' == n.(rpc := RAbsent, slot := Vacant, v2s := [Ready])
    ensures Reaches(r, Begin, n')
  {
    var n3 := BothTold(r, n);
    var n4 := n3.(rpc := RAbsent, slot := Leaving, v2r := []);
    assert Step(r, n3, Depart) == n4;
    ReachesStep(r, Begin, n3, Depart, n4);
    n' := n4.(slot := Vacant);
    assert Step(r, n4, Detach) == n';
    ReachesStep(r, Begin, n4, Detach, n');
  }

  // The other: a receiver joins and leaves again while the sender is elsewhere;
  // its session_ready sets the sender going while the next one is joining.
  lemma StaleReady(r: Rules)
    requires r.receiverFirst && r.mayLeave
    ensures exists n :: AttachedTooLate(r, n)
  {
    ReachesSelf(r, Begin);
    var n1 := Knock(r, Begin);
    var n2 := ComeAndGo(r, n1);
    var n3 := SpeakUp(r, n2);
    var n4 := Knock(r, n3);
    assert AttachedTooLate(r, n4);
  }

  lemma TooLate(r: Rules) returns (n: Net)
    requires !r.receiverFirst || r.mayLeave
    ensures AttachedTooLate(r, n)
  {
    if !r.receiverFirst { SenderToldFirst(r); } else { StaleReady(r); }
    n :| AttachedTooLate(r, n);
  }

  // ---- Setups that stand still ---------------------------------------------

  // The clients and the server get from one state to the other on their own.
  ghost predicate Goes(r: Rules, n: Net, n': Net) {
    exists more :: Proceeds(r, n, more) && After(r, n, more) == n'
  }

  lemma GoesSelf(r: Rules, n: Net)
    ensures Goes(r, n, n)
  {
    assert Proceeds(r, n, []) && After(r, n, []) == n;
  }

  lemma GoesFirst(r: Rules, n: Net, a: Action, n1: Net, n': Net)
    requires Programmed(a) && Enabled(r, n, a) && Step(r, n, a) == n1 && Goes(r, n1, n')
    ensures Goes(r, n, n')
  {
    var more :| Proceeds(r, n1, more) && After(r, n1, more) == n';
    assert ([a] + more)[1..] == more;
    assert Proceeds(r, n, [a] + more) && After(r, n, [a] + more) == n';
  }

  // A setup under way that comes to stand before it is done.
  ghost predicate Stranded(r: Rules, n: Net, n': Net) {
    && Reaches(r, Begin, n) && UnderSetup(n)
    && Goes(r, n, n') && Stuck(r, n') && !SetUpDone(n')
  }

  // Once the sender's share is lost, both sides wait for each other.
  lemma BothWait(r: Rules, n: Net)
    requires n.spc == SExchange && n.rpc == RClient && n.slot == Paired
    requires n.s2v == [] && n.v2s == [] && n.r2v == [] && n.v2r == []
    ensures Stuck(r, n) && !SetUpDone(n)
  {
  }

  // The receiver comes to wait for a share it has thrown away.
  lemma ReceiverWaits(r: Rules, n: Net) returns (n': Net)
    requires n.rpc == RJoining && n.v2r == [Start, Ready]
    ensures n' == n.(v2r := [], rpc := RClient, discarded := n.discarded + [Start])
    ensures Goes(r, n, n')
  {
    var n1 := n.(v2r := [Ready], discarded := n.discarded + [Start]);
    n' := n1.(v2r := [], rpc := RClient);
    GoesSelf(r, n');
    assert Step(r, n1, ReceiverReads) == n';
    GoesFirst(r, n1, ReceiverReads, n', n');
    assert Step(r, n, ReceiverReads) == n1;
    GoesFirst(r, n, ReceiverReads, n1, n');
  }

  lemma {:induction false} GoesTrans(r: Rules, n: Net, n1: Net, n2: Net, more: seq<Action>)
    requires Proceeds(r, n, more) && After(r, n, more) == n1 && Goes(r, n1, n2)
    ensures Goes(r, n, n2)
    decreases |more|
  {
    if more == [] {
    } else {
      GoesTrans(r, Step(r, n, more[0]), n1, n2, more[1..]);
      GoesFirst(r, n, more[0], Step(r, n, more[0]), n2);
    }
  }

  lemma ThenGoes(r: Rules, n: Net, n1: Net, n2: Net)
    requires Goes(r, n, n1) && Goes(r, n1, n2)
    ensures Goes(r, n, n2)
  {
    var more :| Proceeds(r, n, more) && After(r, n, more) == n1;
    GoesTrans(r, n, n1, n2, more);
  }

  // The share is relayed before the receiver is told.
  lemma ShareComesEarly(r: Rules, n: Net) returns (n': Net)
    requires AttachedTooLate(r, n)
    ensures n' == n.(s2v := [], v2r := [Start, Ready], slot := Paired, v2s := n'.v2s)
    ensures n'.v2s == if r.receiverFirst then [Ready] else []
    ensures Goes(r, n, n')
  {
    var n1 := n.(s2v := [], v2r := [Start]);
    assert Step(r, n, ServeSender) == n1;
    n' := n1.(v2r := [Start, Ready], slot := Paired, v2s := if r.receiverFirst then [Ready] else []);
    GoesSelf(r, n');
    if r.receiverFirst {
      var n2 := n1.(v2r := [Start, Ready], slot := ToldOne);
      assert Step(r, n2, Notify) == n';
      GoesFirst(r, n2, Notify, n', n');
      assert Step(r, n1, Notify) == n2;
      GoesFirst(r, n1, Notify, n2, n');
    } else {
      assert Step(r, n1, Notify) == n';
      GoesFirst(r, n1, Notify, n', n');
    }
    GoesFirst(r, n, ServeSender, n1, n');
  }

  lemma {:induction false} GoesReaches(r: Rules, n: Net, more: seq<Action>)
    requires Reaches(r, Begin, n) && Proceeds(r, n, more)
    ensures Reaches(r, Begin, After(r, n, more))
    decreases |more|
  {
    if more == [] {
    } else {
      assert more[0] in [more[0]];
      ReachesStep(r, Begin, n, more[0], Step(r, n, more[0]));
      GoesReaches(r, Step(r, n, more[0]), more[1..]);
    }
  }

  // From there the receiver can come to wait for a share it has thrown away.
  lemma StartIsSwallowed(r: Rules, n: Net)
    requires AttachedTooLate(r, n)
    ensures exists n' :: Reaches(r, Begin, n') && n'.discarded == [Start] && n'.rpc.RClient? && n'.spc.SExchange?
  {
    var n1 := ShareComesEarly(r, n);
    var n2 := ReceiverWaits(r, n1);
    ThenGoes(r, n, n1, n2);
    var more :| Proceeds(r, n, more) && After(r, n, more) == n2;
    GoesReaches(r, n, more);
  }

  // So the two conditions are exactly right: readUntil never discards anything,
  // in any run, iff the receiver is told first and nobody leaves halfway. That
  // the session may expire makes no difference.
  lemma NothingDiscardedIff(r: Rules)
    ensures (forall code, p, acts :: ValidParams(p) && ValidActions(acts) ==>
              Exec(r, Opened(code, p), acts).discarded == [])
       <==> r.receiverFirst && !r.mayLeave
  {
    if r.receiverFirst && !r.mayLeave {
      forall code, p, acts | ValidParams(p) && ValidActions(acts)
        ensures Exec(r, Opened(code, p), acts).discarded == []
      {
        NothingIsDiscarded(r, code, p, acts);
      }
    } else {
      var n := TooLate(r);
      StartIsSwallowed(r, n);
      var n' :| Reaches(r, Begin, n') && n'.discarded != [];
      var acts :| ValidActions(acts) && Exec(r, Begin, acts) == n';
      assert Exec(r, Opened("c", P0), acts).discarded != [];
    }
  }

  lemma SwallowedStrands(r: Rules)
    requires !r.receiverFirst || r.mayLeave
    ensures exists n, n' :: Stranded(r, n, n')
  {
    var n := TooLate(r);
    var n1 := ShareComesEarly(r, n);
    var n2 := ReceiverWaits(r, n1);
    ThenGoes(r, n, n1, n2);
    var n3 := n2.(v2s := [], discarded := if r.receiverFirst then n2.discarded + [Ready] else n2.discarded);
    GoesSelf(r, n3);
    if r.receiverFirst {
      assert Step(r, n2, SenderReads) == n3;
      GoesFirst(r, n2, SenderReads, n3, n3);
    }
    ThenGoes(r, n, n2, n3);
    BothWait(r, n3);
    assert Stranded(r, n, n3);
  }

  // The receiver has heard that the session is ready; the sender, busy with its
  // scan, has not looked yet, and the session expires.
  lemma ExpiresEarly(r: Rules) returns (n: Net)
    requires r.receiverFirst && r.mayExpire
    ensures Reaches(r, Begin, n) && UnderSetup(n)
    ensures n == Begin.(rpc := RClient, rcode := "c", slot := Paired, live := false, v2s := [Ready])
  {
    ReachesSelf(r, Begin);
    var n1 := Knock(r, Begin);
    var n3 := BothTold(r, n1);
    var n4 := n3.(rpc := RClient, v2r := []);
    assert Step(r, n3, ReceiverReads) == n4;
    ReachesStep(r, Begin, n3, ReceiverReads, n4);
    n := n4.(live := false);
    assert Step(r, n4, Expire) == n;
    ReachesStep(r, Begin, n4, Expire, n);
  }

  // The sender's share is answered with an error, the sender fails, and nobody
  // ever speaks to the receiver again.
  lemma ExpiryStrands(r: Rules)
    requires r.receiverFirst && r.mayExpire
    ensures exists n, n' :: Stranded(r, n, n')
  {
    var n := ExpiresEarly(r);
    var n4 := SenderIsTurnedAway(r, n);
    assert Stuck(r, n4) && !SetUpDone(n4);
    assert Stranded(r, n, n4);
  }

  lemma SenderIsTurnedAway(r: Rules, n: Net) returns (n4: Net)
    requires n == Begin.(rpc := RClient, rcode := "c", slot := Paired, live := false, v2s := [Ready])
    ensures Goes(r, n, n4)
    ensures n4 == n.(spc := SFailed, v2s := [])
  {
    var n1 := n.(spc := SStart, v2s := []);
    var n2 := n1.(spc := SExchange, s2v := [Start]);
    var n3 := n2.(s2v := [], v2s := [ErrorMsg("relay: receiver not yet connected")]);
    n4 := n3.(v2s := [], spc := SFailed);
    GoesSelf(r, n4);
    assert Step(r, n3, SenderReads) == n4;
    GoesFirst(r, n3, SenderReads, n4, n4);
    assert Step(r, n2, ServeSender) == n3;
    GoesFirst(r, n2, ServeSender, n3, n4);
    assert Step(r, n1, SenderSends) == n2;
    GoesFirst(r, n1, SenderSends, n2, n4);
    assert Step(r, n, SenderReads) == n1;
    GoesFirst(r, n, SenderReads, n1, n4);
  }

  // Every setup under way is completed by the clients and the server alone, in
  // every run.
  ghost predicate AllComplete(r: Rules) {
    forall code, p, n, n' ::
      ValidParams(p) && Reaches(r, Opened(code, p), n) && UnderSetup(n) && Goes(r, n, n') && Stuck(r, n') ==>
        SetUpDone(n')
  }

  // Exactly when: the receiver is told first, no receiver leaves halfway, and
  // the session does not expire.
  lemma SetupsCompleteIff(r: Rules)
    ensures AllComplete(r) <==> r == Served
  {
    if r == Served {
      forall code, p, n, n' |
        ValidParams(p) && Reaches(r, Opened(code, p), n) && UnderSetup(n) && Goes(r, n, n') && Stuck(r, n')
        ensures SetUpDone(n')
      {
        var acts :| ValidActions(acts) && Exec(r, Opened(code, p), acts) == n;
        var more :| Proceeds(r, n, more) && After(r, n, more) == n';
        EverySetupCompletes(code, p, acts, more);
      }
    } else {
      if !r.receiverFirst || r.mayLeave { SwallowedStrands(r); } else { ExpiryStrands(r); }
      var n, n' :| Stranded(r, n, n');
      assert Reaches(r, Opened("c", P0), n);
    }
  }
}
