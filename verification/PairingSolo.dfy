// The clients' methods over a relay that does as it likes. A method sees nothing
// but its own inbox, and what it does over that inbox is its script's run by
// itself; so the agreement of the two scripts is agreement of the two methods.
module PairingSolo {
  import opened Options
  import opened PairingModel
  import opened PairingScripts
  import opened PairingAgreement
  import A = PairingAgreement

  // ---- The sender ------------------------------------------------------------

  // The sender's script alone in the world, with this inbox.
  function SenderSolo(n: Net, inbox: seq<Msg>): Net {
    Opened(n.code, n.sp).(spc := n.spc, sk := n.sk, v2s := inbox)
  }

  // The script ends from n where it ends from m, folded up as in SenderLeads.
  ghost predicate SenderAgrees(n: Net, m: Net) {
    forall k: int {:trigger Unfold(k)} :: Unfold(k) ==>
      SenderAlone(n).spc == SenderAlone(m).spc && SenderAlone(n).sk == SenderAlone(m).sk
  }

  lemma SenderAgreesOn(n: Net, m: Net, l: Net)
    requires SenderAgrees(n, m) && (SenderAgrees(m, l) || SenderAgrees(l, m))
    ensures SenderAgrees(n, l)
  {
    assert Unfold(0);
  }

  lemma SenderLeadsAgrees(n: Net, m: Net)
    requires SenderFollows(n, m)
    ensures SenderAgrees(n, m) && SenderAgrees(m, n)
  {
    assert Unfold(0);
  }

  ghost predicate SameSender(n: Net, m: Net) {
    n.spc == m.spc && n.sk == m.sk && n.code == m.code && n.sp == m.sp
  }

  lemma SenderTakesAlike(n: Net, n1: Net, m: Msg)
    requires SameSender(n, n1)
    ensures SameSender(SenderTake(n, m), SenderTake(n1, m))
  {
  }

  lemma SenderReadsAlike(n: Net, n1: Net, m: Msg)
    requires SameSender(n, n1) && n.v2s != [] && n1.v2s != []
    ensures SameSender(SenderRead(n, m), SenderRead(n1, m))
    ensures SenderRead(n, m).v2s == n.v2s[1..] && SenderRead(n1, m).v2s == n1.v2s[1..]
  {
    SenderTakesAlike(n.(v2s := n.v2s[1..]), n1.(v2s := n1.v2s[1..]), m);
  }

  lemma SenderSaidSolo(n: Net)
    requires SenderOut(n).Some?
    ensures var n1 := SenderSolo(n, n.v2s);
      SenderOut(n1).Some? && SenderSolo(SenderSaid(n), n.v2s) == SenderSolo(SenderSaid(n1), n.v2s)
  {
  }

  // Nothing else matters to it.
  lemma {:induction false} SenderAloneSolo(n: Net)
    ensures SenderAgrees(n, SenderSolo(n, n.v2s))
    decreases |n.v2s|, SenderAhead(n)
  {
    var n1 := SenderSolo(n, n.v2s);
    if SenderOut(n).Some? {
      SenderSaidSolo(n);
      SenderSaysOn(n);
      SenderSaysOn(n1);
      SenderAloneSolo(SenderSaid(n));
      SenderAloneSolo(SenderSaid(n1));
      SenderMeet(n, SenderSaid(n), n1, SenderSaid(n1), SenderSolo(SenderSaid(n), n.v2s));
    } else if SenderWants(n.spc).Some? && n.v2s != [] {
      var m := n.v2s[0];
      SenderReadsAlike(n, n1, m);
      assert SenderSolo(SenderRead(n, m), n.v2s[1..]) == SenderSolo(SenderRead(n1, m), n.v2s[1..]);
      SenderReadsOn(n);
      SenderReadsOn(n1);
      SenderAloneSolo(SenderRead(n, m));
      SenderAloneSolo(SenderRead(n1, m));
      SenderMeet(n, SenderRead(n, m), n1, SenderRead(n1, m), SenderSolo(SenderRead(n, m), n.v2s[1..]));
    } else {
      assert SenderAlone(n) == n && SenderAlone(n1) == n1;
    }
  }

  lemma SenderMeet(n: Net, n': Net, m: Net, m': Net, solo: Net)
    requires SenderFollows(n, n') && SenderFollows(m, m') && SenderAgrees(n', solo) && SenderAgrees(m', solo)
    ensures SenderAgrees(n, m)
  {
    assert Unfold(0);
  }

  // What the relay has given to the sender.
  function SenderHeard(w: Wild, moves: seq<Move>): seq<Msg> {
    if moves == [] then []
    else
      var front, a := moves[..|moves| - 1], moves[|moves| - 1];
      SenderHeard(w, front) + if a.ToSender? && CanMove(Play(w, front), a) then [a.m] else []
  }

  // One move, seen from the sender's script.
  lemma SenderSeesMove(w: Wild, a: Move, rest: seq<Msg>)
    requires CanMove(w, a)
    ensures var inbox := if a.ToSender? then [a.m] + rest else rest;
      SenderAgrees(SenderSolo(w.net, inbox), SenderSolo(Moved(w, a).net, rest))
  {
    var n, n' := w.net, Moved(w, a).net;
    if a.SenderSays? {
      var n1 := SenderSolo(n, rest);
      SenderSaysOn(n1);
      SenderLeadsAgrees(n1, SenderSaid(n1));
      SenderAloneSolo(SenderSaid(n1));
      assert SenderSolo(SenderSaid(n1), rest) == SenderSolo(n', rest);
      SenderAgreesOn(n1, SenderSaid(n1), SenderSolo(n', rest));
    } else if a.ToSender? {
      var inbox := [a.m] + rest;
      var n1 := SenderSolo(n, inbox);
      assert inbox[0] == a.m && inbox[1..] == rest;
      var n2 := SenderRead(n1, a.m);
      SenderReadsOn(n1);
      SenderLeadsAgrees(n1, n2);
      SenderAloneSolo(n2);
      SenderReadsAlike(n.(v2s := [a.m]), n1, a.m);
      assert SenderSolo(n2, rest) == SenderSolo(n', rest);
      SenderAgreesOn(n1, n2, SenderSolo(n', rest));
    } else {
      SenderUntouched(w, a);
    }
  }

  lemma SenderUntouched(w: Wild, a: Move)
    requires CanMove(w, a) && !a.SenderSays? && !a.ToSender?
    ensures var n, n' := w.net, Moved(w, a).net;
      n'.spc == n.spc && n'.sk == n.sk && n'.code == n.code && n'.sp == n.sp
  {
  }

  lemma SenderHeardMore(w: Wild, moves: seq<Move>, rest: seq<Msg>)
    requires moves != [] && CanMove(Play(w, moves[..|moves| - 1]), moves[|moves| - 1])
    ensures var a := moves[|moves| - 1];
      var inbox := if a.ToSender? then [a.m] + rest else rest;
      SenderHeard(w, moves) + rest == SenderHeard(w, moves[..|moves| - 1]) + inbox
  {
  }

  // So at any time the script stands where what it has heard has brought it.
  lemma {:induction false} SenderSeesPlay(w: Wild, moves: seq<Move>, rest: seq<Msg>)
    ensures SenderAgrees(SenderSolo(w.net, SenderHeard(w, moves) + rest), SenderSolo(Play(w, moves).net, rest))
    decreases |moves|
  {
    if moves == [] {
      assert [] + rest == rest;
    } else {
      var front, a := moves[..|moves| - 1], moves[|moves| - 1];
      var w1 := Play(w, front);
      if CanMove(w1, a) {
        var inbox := if a.ToSender? then [a.m] + rest else rest;
        SenderSeesPlay(w, front, inbox);
        SenderSeesMove(w1, a, rest);
        SenderHeardMore(w, moves, rest);
        SenderAgreesOn(SenderSolo(w.net, SenderHeard(w, front) + inbox), SenderSolo(w1.net, inbox),
                      SenderSolo(Moved(w1, a).net, rest));
      } else {
        SenderSeesPlay(w, front, rest);
        assert SenderHeard(w, moves) == SenderHeard(w, front);
      }
    }
  }

  // With nothing left to read it is through only if it was already.
  lemma {:induction false} SenderThrough(n: Net)
    requires n.v2s == [] && SenderAlone(n).spc.SSetUp?
    ensures SenderAlone(n) == n
    decreases SenderAhead(n)
  {
    if SenderOut(n).Some? {
      SenderThrough(SenderSaid(n));
    }
  }

  // ---- The receiver ------------------------------------------------------------

  // The receiver's script alone in the world, with this inbox.
  function ReceiverSolo(n: Net, inbox: seq<Msg>): Net {
    Opened(n.rcode, n.rp).(rpc := n.rpc, rcode := n.rcode, rk := n.rk, v2r := inbox)
  }

  // The script ends from n where it ends from m, folded up as in SenderLeads.
  ghost predicate ReceiverAgrees(n: Net, m: Net) {
    forall k: int {:trigger Unfold(k)} :: Unfold(k) ==>
      ReceiverAlone(n).rpc == ReceiverAlone(m).rpc && ReceiverAlone(n).rk == ReceiverAlone(m).rk
  }

  lemma ReceiverAgreesOn(n: Net, m: Net, l: Net)
    requires ReceiverAgrees(n, m) && (ReceiverAgrees(m, l) || ReceiverAgrees(l, m))
    ensures ReceiverAgrees(n, l)
  {
    assert Unfold(0);
  }

  lemma ReceiverLeadsAgrees(n: Net, m: Net)
    requires ReceiverFollows(n, m)
    ensures ReceiverAgrees(n, m) && ReceiverAgrees(m, n)
  {
    assert Unfold(0);
  }

  ghost predicate SameReceiver(n: Net, m: Net) {
    n.rpc == m.rpc && n.rk == m.rk && n.rcode == m.rcode && n.rp == m.rp
  }

  lemma ReceiverTakesAlike(n: Net, n1: Net, m: Msg)
    requires SameReceiver(n, n1)
    ensures SameReceiver(ReceiverTake(n, m), ReceiverTake(n1, m))
  {
  }

  lemma ReceiverReadsAlike(n: Net, n1: Net, m: Msg)
    requires SameReceiver(n, n1) && n.v2r != [] && n1.v2r != []
    ensures SameReceiver(ReceiverRead(n, m), ReceiverRead(n1, m))
    ensures ReceiverRead(n, m).v2r == n.v2r[1..] && ReceiverRead(n1, m).v2r == n1.v2r[1..]
  {
    ReceiverTakesAlike(n.(v2r := n.v2r[1..]), n1.(v2r := n1.v2r[1..]), m);
  }

  lemma ReceiverSaidSolo(n: Net)
    requires ReceiverOut(n).Some?
    ensures var n1 := ReceiverSolo(n, n.v2r);
      ReceiverOut(n1).Some? && ReceiverSolo(ReceiverSaid(n), n.v2r) == ReceiverSolo(ReceiverSaid(n1), n.v2r)
  {
  }

  // Nothing else matters to it.
  lemma {:induction false} ReceiverAloneSolo(n: Net)
    ensures ReceiverAgrees(n, ReceiverSolo(n, n.v2r))
    decreases |n.v2r|, ReceiverAhead(n)
  {
    var n1 := ReceiverSolo(n, n.v2r);
    if ReceiverOut(n).Some? {
      ReceiverSaidSolo(n);
      ReceiverSaysOn(n);
      ReceiverSaysOn(n1);
      ReceiverAloneSolo(ReceiverSaid(n));
      ReceiverAloneSolo(ReceiverSaid(n1));
      ReceiverMeet(n, ReceiverSaid(n), n1, ReceiverSaid(n1), ReceiverSolo(ReceiverSaid(n), n.v2r));
    } else if ReceiverWants(n.rpc).Some? && n.v2r != [] {
      var m := n.v2r[0];
      ReceiverReadsAlike(n, n1, m);
      assert ReceiverSolo(ReceiverRead(n, m), n.v2r[1..]) == ReceiverSolo(ReceiverRead(n1, m), n.v2r[1..]);
      ReceiverReadsOn(n);
      ReceiverReadsOn(n1);
      ReceiverAloneSolo(ReceiverRead(n, m));
      ReceiverAloneSolo(ReceiverRead(n1, m));
      ReceiverMeet(n, ReceiverRead(n, m), n1, ReceiverRead(n1, m), ReceiverSolo(ReceiverRead(n, m), n.v2r[1..]));
    } else {
      assert ReceiverAlone(n) == n && ReceiverAlone(n1) == n1;
    }
  }

  lemma ReceiverMeet(n: Net, n': Net, m: Net, m': Net, solo: Net)
    requires ReceiverFollows(n, n') && ReceiverFollows(m, m') && ReceiverAgrees(n', solo) && ReceiverAgrees(m', solo)
    ensures ReceiverAgrees(n, m)
  {
    assert Unfold(0);
  }

  // What the relay has given to the receiver.
  function ReceiverHeard(w: Wild, moves: seq<Move>): seq<Msg> {
    if moves == [] then []
    else
      var front, a := moves[..|moves| - 1], moves[|moves| - 1];
      ReceiverHeard(w, front) + if a.ToReceiver? && CanMove(Play(w, front), a) then [a.m] else []
  }

  // One move, seen from the receiver's script.
  lemma ReceiverSeesMove(w: Wild, a: Move, rest: seq<Msg>)
    requires CanMove(w, a)
    ensures var inbox := if a.ToReceiver? then [a.m] + rest else rest;
      ReceiverAgrees(ReceiverSolo(w.net, inbox), ReceiverSolo(Moved(w, a).net, rest))
  {
    var n, n' := w.net, Moved(w, a).net;
    if a.ReceiverSays? {
      var n1 := ReceiverSolo(n, rest);
      ReceiverSaysOn(n1);
      ReceiverLeadsAgrees(n1, ReceiverSaid(n1));
      ReceiverAloneSolo(ReceiverSaid(n1));
      assert ReceiverSolo(ReceiverSaid(n1), rest) == ReceiverSolo(n', rest);
      ReceiverAgreesOn(n1, ReceiverSaid(n1), ReceiverSolo(n', rest));
    } else if a.ToReceiver? {
      var inbox := [a.m] + rest;
      var n1 := ReceiverSolo(n, inbox);
      assert inbox[0] == a.m && inbox[1..] == rest;
      var n2 := ReceiverRead(n1, a.m);
      ReceiverReadsOn(n1);
      ReceiverLeadsAgrees(n1, n2);
      ReceiverAloneSolo(n2);
      ReceiverReadsAlike(n.(v2r := [a.m]), n1, a.m);
      assert ReceiverSolo(n2, rest) == ReceiverSolo(n', rest);
      ReceiverAgreesOn(n1, n2, ReceiverSolo(n', rest));
    } else {
      ReceiverUntouched(w, a);
    }
  }

  lemma ReceiverUntouched(w: Wild, a: Move)
    requires CanMove(w, a) && !a.ReceiverSays? && !a.ToReceiver?
    ensures var n, n' := w.net, Moved(w, a).net;
      n'.rpc == n.rpc && n'.rk == n.rk && n'.rcode == n.rcode && n'.rp == n.rp
  {
  }

  lemma ReceiverHeardMore(w: Wild, moves: seq<Move>, rest: seq<Msg>)
    requires moves != [] && CanMove(Play(w, moves[..|moves| - 1]), moves[|moves| - 1])
    ensures var a := moves[|moves| - 1];
      var inbox := if a.ToReceiver? then [a.m] + rest else rest;
      ReceiverHeard(w, moves) + rest == ReceiverHeard(w, moves[..|moves| - 1]) + inbox
  {
  }

  // So at any time the script stands where what it has heard has brought it.
  lemma {:induction false} ReceiverSeesPlay(w: Wild, moves: seq<Move>, rest: seq<Msg>)
    ensures ReceiverAgrees(ReceiverSolo(w.net, ReceiverHeard(w, moves) + rest), ReceiverSolo(Play(w, moves).net, rest))
    decreases |moves|
  {
    if moves == [] {
      assert [] + rest == rest;
    } else {
      var front, a := moves[..|moves| - 1], moves[|moves| - 1];
      var w1 := Play(w, front);
      if CanMove(w1, a) {
        var inbox := if a.ToReceiver? then [a.m] + rest else rest;
        ReceiverSeesPlay(w, front, inbox);
        ReceiverSeesMove(w1, a, rest);
        ReceiverHeardMore(w, moves, rest);
        ReceiverAgreesOn(ReceiverSolo(w.net, ReceiverHeard(w, front) + inbox), ReceiverSolo(w1.net, inbox),
                      ReceiverSolo(Moved(w1, a).net, rest));
      } else {
        ReceiverSeesPlay(w, front, rest);
        assert ReceiverHeard(w, moves) == ReceiverHeard(w, front);
      }
    }
  }

  // With nothing left to read it is through only if it was already.
  lemma {:induction false} ReceiverThrough(n: Net)
    requires n.v2r == [] && ReceiverAlone(n).rpc.RSetUp?
    ensures ReceiverAlone(n) == n
    decreases ReceiverAhead(n)
  {
    if ReceiverOut(n).Some? {
      ReceiverThrough(ReceiverSaid(n));
    }
  }

  // ---- Agreement of the methods --------------------------------------------

  // SetUpSender over what the relay gives it after session_ready; `sent` is what
  // its connection has sent before.
  function SenderDoes(w: Wild, moves: seq<Move>, sent: seq<Msg>): Net {
    SenderAlone(Opened(w.net.code, w.net.sp).(v2s := [Ready] + SenderHeard(w, moves), s2v := sent))
  }

  // SetUpReceiver likewise.
  function ReceiverDoes(w: Wild, moves: seq<Move>, sent: seq<Msg>): Net {
    var n := Opened(w.net.rcode, w.net.rp);
    ReceiverAlone(n.(rpc := RJoin, rcode := n.code, v2r := [Ready] + ReceiverHeard(w, moves), r2v := sent))
  }

  lemma SenderMethodIsScript(w: Wild, moves: seq<Move>, sent: seq<Msg>)
    requires Begins(w) && SenderDoes(w, moves, sent).spc.SSetUp?
    ensures var s, n := SenderDoes(w, moves, sent), Play(w, moves).net; s.spc == n.spc && s.sk == n.sk
  {
    var heard := SenderHeard(w, moves);
    var n0 := Opened(w.net.code, w.net.sp).(v2s := [Ready] + heard, s2v := sent);
    assert n0.v2s[0] == Ready && n0.v2s[1..] == heard;
    var n1 := SenderRead(n0, Ready);
    SenderReadsOn(n0);
    SenderLeadsAgrees(n0, n1);
    SenderAloneSolo(n1);
    assert SenderSolo(n1, heard) == SenderSolo(w.net, heard);
    SenderAgreesOn(n0, n1, SenderSolo(w.net, heard));
    assert heard + [] == heard;
    SenderSeesPlay(w, moves, []);
    var last := SenderSolo(Play(w, moves).net, []);
    SenderAgreesOn(n0, SenderSolo(w.net, heard), last);
    SenderStays(n0, last);
  }

  lemma SenderStays(n: Net, last: Net)
    requires SenderAgrees(n, last) && last.v2s == [] && SenderAlone(n).spc.SSetUp?
    ensures SenderAlone(n).spc == last.spc && SenderAlone(n).sk == last.sk
  {
    assert Unfold(0);
    SenderThrough(last);
  }

  lemma ReceiverMethodIsScript(w: Wild, moves: seq<Move>, sent: seq<Msg>)
    requires Begins(w) && ReceiverDoes(w, moves, sent).rpc.RSetUp?
    ensures var v, n := ReceiverDoes(w, moves, sent), Play(w, moves).net; v.rpc == n.rpc && v.rk == n.rk
  {
    var heard := ReceiverHeard(w, moves);
    var n0 := Opened(w.net.rcode, w.net.rp).(rpc := RJoin, rcode := w.net.rcode, v2r := [Ready] + heard, r2v := sent);
    ReceiverEnters(n0, heard);
    assert ReceiverSolo(n0, heard).(rpc := RClient) == ReceiverSolo(w.net, heard);
    assert heard + [] == heard;
    ReceiverSeesPlay(w, moves, []);
    var last := ReceiverSolo(Play(w, moves).net, []);
    ReceiverAgreesOn(n0, ReceiverSolo(w.net, heard), last);
    ReceiverStays(n0, last);
  }

  // JoinSession, when session_ready is first in line.
  lemma ReceiverEnters(n: Net, heard: seq<Msg>)
    requires n.rpc.RJoin? && n.v2r == [Ready] + heard
    ensures ReceiverAgrees(n, ReceiverSolo(n, heard).(rpc := RClient))
  {
    var n1 := ReceiverSaid(n);
    assert n1.v2r[0] == Ready && n1.v2r[1..] == heard;
    var n2 := ReceiverRead(n1, Ready);
    ReceiverSaysOn(n);
    ReceiverReadsOn(n1);
    ReceiverFollowsOn(n, n1, n2);
    ReceiverLeadsAgrees(n, n2);
    ReceiverAloneSolo(n2);
    assert ReceiverSolo(n2, heard) == ReceiverSolo(n, heard).(rpc := RClient);
    ReceiverAgreesOn(n, n2, ReceiverSolo(n2, heard));
  }

  lemma ReceiverStays(n: Net, last: Net)
    requires ReceiverAgrees(n, last) && last.v2r == [] && ReceiverAlone(n).rpc.RSetUp?
    ensures ReceiverAlone(n).rpc == last.rpc && ReceiverAlone(n).rk == last.rk
  {
    assert Unfold(0);
    ReceiverThrough(last);
  }

  lemma ThroughMeansShared(w: Wild, moves: seq<Move>)
    requires Begins(w)
    ensures var w' := Play(w, moves);
      && (w'.net.spc.SSetUp? ==>
          w'.net.sk.secret.Some? && (A.Paired(w'.net) || HeldElsewhere(w', w'.net.sk.secret, RoleReceiver, PongLabel)))
      && (w'.net.rpc.RSetUp? ==>
          w'.net.rk.secret.Some? && (A.Paired(w'.net) || HeldElsewhere(w', w'.net.rk.secret, RoleSender, PingLabel)))
  {
    NilMeansSharedSecret(w, moves);
  }

  // Whatever the relay did: a setup method that succeeds holds the secret of its
  // peer, which is the other of the two or a script elsewhere that has said
  // confirmation and MAC under this very secret.
  lemma SenderMethodAgrees(w: Wild, moves: seq<Move>, sent: seq<Msg>)
    requires Begins(w) && SenderDoes(w, moves, sent).spc.SSetUp?
    ensures var w', s := Play(w, moves), SenderDoes(w, moves, sent);
      && s.sk.secret.Some? && s.sk.secret == w'.net.sk.secret
      && (A.Paired(w'.net) || HeldElsewhere(w', s.sk.secret, RoleReceiver, PongLabel))
  {
    SenderMethodIsScript(w, moves, sent);
    ThroughMeansShared(w, moves);
  }

  lemma ReceiverMethodAgrees(w: Wild, moves: seq<Move>, sent: seq<Msg>)
    requires Begins(w) && ReceiverDoes(w, moves, sent).rpc.RSetUp?
    ensures var w', v := Play(w, moves), ReceiverDoes(w, moves, sent);
      && v.rk.secret.Some? && v.rk.secret == w'.net.rk.secret
      && (A.Paired(w'.net) || HeldElsewhere(w', v.rk.secret, RoleSender, PingLabel))
  {
    ReceiverMethodIsScript(w, moves, sent);
    ThroughMeansShared(w, moves);
  }

  // With nobody else about, two that succeed hold the same.
  lemma MethodsAgree(w: Wild, moves: seq<Move>, sent: seq<Msg>, sent': seq<Msg>)
    requires Begins(w) && forall a :: a in moves ==> !a.OtherSays?
    requires SenderDoes(w, moves, sent).spc.SSetUp? && ReceiverDoes(w, moves, sent').rpc.RSetUp?
    ensures SenderDoes(w, moves, sent).sk.secret.Some?
    ensures SenderDoes(w, moves, sent).sk.secret == ReceiverDoes(w, moves, sent').rk.secret
  {
    SenderMethodAgrees(w, moves, sent);
    ReceiverMethodIsScript(w, moves, sent');
    EitherNilMeansPaired(w, moves);
  }
}
