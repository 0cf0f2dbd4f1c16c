// A session can expire under a setup: five minutes after the last join
// evictExpired deletes it, whether or not its receiver is connected. Then every
// relay is answered with an error. Still nothing is discarded, but a setup can
// be left standing.
module PairingExpiry {
  import opened PairingModel
  import opened PairingInvariant

  // The queue holds the log from got up to cut, and then nothing or first an
  // error.
  ghost predicate Cut(log: Log, got: nat, cut: nat, q: seq<Msg>) {
    && got <= cut <= log.Length() && cut - got <= |q|
    && (forall k :: 0 <= k < cut - got ==> q[k] == log.At(got + k))
    && (cut - got < |q| ==> q[cut - got].kind.Error?)
  }

  lemma CutAppend(log: Log, got: nat, cut: nat, q: seq<Msg>, m: Msg)
    requires Cut(log, got, cut, q) && (m.kind.Error? || |q| > cut - got)
    ensures Cut(log, got, cut, q + [m])
  {
  }

  // Reading: the next entry of the log, or an error.
  lemma CutRead(log: Log, got: nat, cut: nat, q: seq<Msg>)
    requires Cut(log, got, cut, q) && q != []
    ensures if got < cut then q[0] == log.At(got) && Cut(log, got + 1, cut, q[1..]) else q[0].kind.Error?
  {
  }

  // What may stand in the sender's queue once the session is gone.
  ghost predicate SenderTail(n: Net, c: Chat, cut: nat) {
    && SenderIn(n, c) && ValidParams(c.r) && SenderKnows(n.spc, n.sk, c)
    && Cut(ForSender(c), SenderGot(n.spc, n.sk, c), cut, n.v2s)
    && (!SenderInSetup(n.spc) ==> cut <= 1)
    && (MidJoin(n) ==> cut == 0)
  }

  ghost predicate ReceiverTail(n: Net, c: Chat, cut: nat) {
    && ReceiverIn(n, c) && ValidParams(c.s) && ReceiverKnows(n.rpc, n.rk, c)
    && Cut(ForReceiver(c), ReceiverGot(n.rpc, n.rk, c), cut, n.v2r)
    && (n.slot.Attached? ==> cut == 0)
  }

  // Both sides on their own.
  ghost predicate Ended(n: Net) {
    && n.discarded == [] && !n.live
    && ValidParams(n.sp) && ValidParams(n.rp)
    && (n.spc.SFailed? || exists c, cut :: SenderTail(n, c, cut))
    && (InSetup(n.rpc) ==> exists c, cut :: ReceiverTail(n, c, cut))
    && (n.rpc.RAbsent? ==> n.v2r == [] && n.r2v == [])
    && (n.rpc.RJoin? ==> n.v2r == [] && n.r2v == [] && n.rk == Nothing)
    && (MidJoin(n) ==> InSetup(n.rpc) || n.rpc.RFailed?)
  }

  // Eviction cuts both directions where they are.
  lemma CutOfWay(log: Log, got: nat, due: nat, near: seq<Msg>, far: seq<Msg>)
    requires UnderWay(log, got, due, near, far)
    ensures Cut(log, got, got + |near|, near)
  {
  }

  lemma ExpiryCutsSender(n: Net)
    requires Talking(n) && ValidParams(n.rp)
    ensures exists c, cut :: SenderTail(n.(live := false), c, cut)
  {
    var c, n' := ChatOf(n), n.(live := false);
    var got := SenderGot(n.spc, n.sk, c);
    CutOfWay(ForSender(c), got, SenderDue(n.slot, ReceiverSent(n.rpc, c)), n.v2s, n.r2v);
    if !SenderInSetup(n.spc) { NothingSaid(n); }
    assert MidJoin(n) ==> got + |n.v2s| == 0;
    assert SenderTail(n', c, got + |n.v2s|);
  }

  lemma QuietSenderTail(n: Net)
    requires n.v2s == [] && !SenderInSetup(n.spc) && !n.spc.SFailed? && ValidParams(n.rp)
    ensures exists c, cut :: SenderTail(n, c, cut)
  {
    var c := Chat(n.code, n.sp, n.rp);
    assert SenderTail(n, c, 0);
  }

  lemma ExpiryCutsReceiver(n: Net)
    requires Talking(n) && ValidParams(n.sp)
    ensures exists c, cut :: ReceiverTail(n.(live := false), c, cut)
  {
    var c, n' := ChatOf(n), n.(live := false);
    var got := ReceiverGot(n.rpc, n.rk, c);
    CutOfWay(ForReceiver(c), got, ReceiverDue(n.slot, SenderSent(n.spc, c)), n.v2r, n.s2v);
    assert ReceiverTail(n', c, got + |n.v2r|);
  }

  // A receiver that is still asking has got nothing, or was refused.
  lemma JoinerTail(n: Net)
    requires n.rpc.RJoining? && n.rk == Nothing && ValidParams(n.sp)
    requires n.v2r == [] || n.v2r[0].kind.Error?
    ensures exists c, cut :: ReceiverTail(n, c, cut)
  {
    var c := Chat(n.rcode, n.sp, n.rp);
    assert ReceiverTail(n, c, 0);
  }

  lemma ExpiryEnds(n: Net)
    requires Inv(n)
    ensures Ended(n.(live := false))
  {
    if Talking(n) {
      ExpiryCutsSender(n);
      ExpiryCutsReceiver(n);
    } else {
      QuietSenderTail(n.(live := false));
      if InSetup(n.rpc) { JoinerTail(n.(live := false)); }
    }
  }

  // ---- Steps after the end -------------------------------------------------

  // The other side's fields do not matter to a side.
  lemma SenderApart(n: Net, n': Net)
    requires n.spc == n'.spc && n.sp == n'.sp && n.sk == n'.sk && n.code == n'.code && n.v2s == n'.v2s
    requires MidJoin(n') ==> MidJoin(n)
    requires exists c, cut :: SenderTail(n, c, cut)
    ensures exists c, cut :: SenderTail(n', c, cut)
  {
    var c, cut :| SenderTail(n, c, cut);
    assert SenderTail(n', c, cut);
  }

  lemma ReceiverApart(n: Net, n': Net)
    requires n.rpc == n'.rpc && n.rp == n'.rp && n.rk == n'.rk && n.rcode == n'.rcode && n.v2r == n'.v2r
    requires n'.slot.Attached? ==> n.slot.Attached?
    requires exists c, cut :: ReceiverTail(n, c, cut)
    ensures exists c, cut :: ReceiverTail(n', c, cut)
  {
    var c, cut :| ReceiverTail(n, c, cut);
    assert ReceiverTail(n', c, cut);
  }

  lemma SenderSendsOn(n: Net)
    requires SenderOut(n).Some? && exists c, cut :: SenderTail(n, c, cut)
    ensures exists c, cut :: SenderTail(n.(spc := SenderAfterSend(n), s2v := n.s2v + [SenderOut(n).value]), c, cut)
  {
    var c, cut :| SenderTail(n, c, cut);
    SenderSaysLog(n, c);
    assert SenderTail(n.(spc := SenderAfterSend(n), s2v := n.s2v + [SenderOut(n).value]), c, cut);
  }

  lemma SenderGetsError(n: Net, n': Net, m: Msg)
    requires m.kind.Error? && n'.v2s == n.v2s + [m] && n' == n.(v2s := n'.v2s, s2v := n'.s2v)
    requires exists c, cut :: SenderTail(n, c, cut)
    ensures exists c, cut :: SenderTail(n', c, cut)
  {
    var c, cut :| SenderTail(n, c, cut);
    CutAppend(ForSender(c), SenderGot(n.spc, n.sk, c), cut, n.v2s, m);
    assert SenderTail(n', c, cut);
  }

  lemma SenderIsTold(n: Net)
    requires MidJoin(n) && exists c, cut :: SenderTail(n, c, cut)
    ensures exists c, cut :: SenderTail(n.(v2s := n.v2s + [Ready], slot := Paired), c, cut)
  {
    var c, cut :| SenderTail(n, c, cut);
    var n' := n.(v2s := n.v2s + [Ready], slot := Paired);
    if n.v2s == [] {
      assert SenderTail(n', c, 1);
    } else {
      CutAppend(ForSender(c), 0, 0, n.v2s, Ready);
      assert SenderTail(n', c, 0);
    }
  }

  lemma SenderReadsOn(r: Rules, n: Net)
    requires Enabled(r, n, SenderReads) && n.discarded == []
    requires exists c, cut :: SenderTail(n, c, cut)
    ensures var n' := Apply(r, n, SenderReads);
      && n' == n.(v2s := n.v2s[1..], spc := n'.spc, sk := n'.sk)
      && (n'.spc.SFailed? || exists c, cut :: SenderTail(n', c, cut))
  {
    var c, cut :| SenderTail(n, c, cut);
    var got := SenderGot(n.spc, n.sk, c);
    CutRead(ForSender(c), got, cut, n.v2s);
    if got < cut {
      var n1 := n.(v2s := n.v2s[1..]);
      SenderTakesLog(n1, c, n.v2s[0]);
      assert SenderTail(SenderTake(n1, n.v2s[0]), c, cut);
    }
  }

  lemma ReceiverSendsOn(n: Net)
    requires ReceiverOut(n).Some? && InSetup(n.rpc) && exists c, cut :: ReceiverTail(n, c, cut)
    ensures var n' := n.(r2v := n.r2v + [ReceiverOut(n).value],
                         rpc := ReceiverAfterSend(n).0, rk := ReceiverAfterSend(n).1);
      InSetup(n'.rpc) && exists c, cut :: ReceiverTail(n', c, cut)
  {
    var c, cut :| ReceiverTail(n, c, cut);
    ReceiverSaysLog(n, c);
    assert ReceiverTail(n.(r2v := n.r2v + [ReceiverOut(n).value],
                           rpc := ReceiverAfterSend(n).0, rk := ReceiverAfterSend(n).1), c, cut);
  }

  lemma ReceiverGetsError(n: Net, n': Net, m: Msg)
    requires m.kind.Error? && n'.v2r == n.v2r + [m] && n' == n.(v2r := n'.v2r, r2v := n'.r2v)
    requires exists c, cut :: ReceiverTail(n, c, cut)
    ensures exists c, cut :: ReceiverTail(n', c, cut)
  {
    var c, cut :| ReceiverTail(n, c, cut);
    CutAppend(ForReceiver(c), ReceiverGot(n.rpc, n.rk, c), cut, n.v2r, m);
    assert ReceiverTail(n', c, cut);
  }

  lemma ReceiverIsTold(n: Net)
    requires n.slot.Attached? && exists c, cut :: ReceiverTail(n, c, cut)
    ensures exists c, cut :: ReceiverTail(n.(v2r := n.v2r + [Ready], slot := ToldOne), c, cut)
  {
    var c, cut :| ReceiverTail(n, c, cut);
    var n' := n.(v2r := n.v2r + [Ready], slot := ToldOne);
    if n.v2r == [] {
      assert ReceiverTail(n', c, 1);
    } else {
      CutAppend(ForReceiver(c), 0, 0, n.v2r, Ready);
      assert ReceiverTail(n', c, 0);
    }
  }

  lemma ReceiverReadsOn(r: Rules, n: Net)
    requires Enabled(r, n, ReceiverReads) && n.discarded == []
    requires exists c, cut :: ReceiverTail(n, c, cut)
    ensures var n' := Apply(r, n, ReceiverReads);
      && n' == n.(v2r := n.v2r[1..], rpc := n'.rpc, rk := n'.rk)
      && (n'.rpc.RFailed? || (InSetup(n'.rpc) && exists c, cut :: ReceiverTail(n', c, cut)))
  {
    var c, cut :| ReceiverTail(n, c, cut);
    var got := ReceiverGot(n.rpc, n.rk, c);
    CutRead(ForReceiver(c), got, cut, n.v2r);
    if got < cut {
      var n1 := n.(v2r := n.v2r[1..]);
      ReceiverTakesLog(n1, c, n.v2r[0]);
      assert ReceiverTail(ReceiverTake(n1, n.v2r[0]), c, cut);
    }
  }

  // A side outside setup has been told at most that a peer is ready.
  lemma SenderElsewhere(n: Net, n': Net)
    requires !SenderInSetup(n'.spc) && !n'.spc.SFailed? && ValidParams(n'.sp)
    requires n'.code == n.code && n'.v2s == n.v2s && n'.slot == n.slot
    requires n.spc.SSetUp? || !SenderInSetup(n.spc)
    requires exists c, cut :: SenderTail(n, c, cut)
    ensures exists c, cut :: SenderTail(n', c, cut)
  {
    var c, cut :| SenderTail(n, c, cut);
    var c' := c.(s := n'.sp);
    if n.spc.SSetUp? {
      assert SenderTail(n', c', 0);
    } else {
      assert SenderTail(n', c', cut);
    }
  }

  lemma EndedStepSender(r: Rules, n: Net, a: Action)
    requires r.receiverFirst && Ended(n) && Enabled(r, n, a)
    requires a.SenderSends? || a.SenderReads? || a.ServeSender?
    ensures Ended(Apply(r, n, a))
  {
    var n' := Apply(r, n, a);
    if !n.spc.SFailed? {
      match a
      case SenderSends => SenderSendsOn(n);
      case SenderReads => SenderReadsOn(r, n);
      case ServeSender => SenderGetsError(n, n', ErrorMsg("relay: receiver not yet connected"));
    }
    if InSetup(n.rpc) { ReceiverApart(n, n'); }
  }

  lemma EndedStepReceiver(r: Rules, n: Net, a: Action)
    requires r.receiverFirst && Ended(n) && Enabled(r, n, a)
    requires a.ReceiverSends? || a.ReceiverReads? || a.ServeReceiver?
    ensures Ended(Apply(r, n, a))
  {
    ReceiverGoesOn(r, n, a);
    ReceiverAlone(n, Apply(r, n, a));
  }

  // Only the receiver and its queues have changed.
  lemma ReceiverAlone(n: Net, n': Net)
    requires Ended(n) && n' == n.(rpc := n'.rpc, rk := n'.rk, v2r := n'.v2r, r2v := n'.r2v)
    requires n'.rpc.RFailed? || n'.rpc == n.rpc || InSetup(n'.rpc)
    requires !n'.rpc.RAbsent? && !n'.rpc.RJoin?
    requires InSetup(n'.rpc) ==> exists c, cut :: ReceiverTail(n', c, cut)
    ensures Ended(n')
  {
    if !n.spc.SFailed? { SenderApart(n, n'); }
  }

  lemma ReceiverGoesOn(r: Rules, n: Net, a: Action)
    requires Ended(n) && Enabled(r, n, a)
    requires a.ReceiverSends? || a.ReceiverReads? || a.ServeReceiver?
    ensures var n' := Apply(r, n, a);
      && n' == n.(rpc := n'.rpc, rk := n'.rk, v2r := n'.v2r, r2v := n'.r2v)
      && (n'.rpc.RFailed? || n'.rpc == n.rpc || InSetup(n'.rpc))
      && !n'.rpc.RAbsent? && !n'.rpc.RJoin?
      && (InSetup(n'.rpc) ==> exists c, cut :: ReceiverTail(n', c, cut))
  {
    if n.rpc.RJoin? {
      JoinerTail(Apply(r, n, a));
    } else if InSetup(n.rpc) {
      if a.ReceiverSends? {
        ReceiverSendsOn(n);
      } else if a.ReceiverReads? {
        ReceiverReadsOn(r, n);
      } else {
        ServedAnError(r, n);
      }
    }
  }

  lemma ServedAnError(r: Rules, n: Net)
    requires !n.live && Enabled(r, n, ServeReceiver) && InSetup(n.rpc)
    requires exists c, cut :: ReceiverTail(n, c, cut)
    ensures exists c, cut :: ReceiverTail(Apply(r, n, ServeReceiver), c, cut)
  {
    var n' := Apply(r, n, ServeReceiver);
    ReceiverGetsError(n, n', n'.v2r[|n.v2r|]);
  }

  lemma EndedNotify(r: Rules, n: Net)
    requires r.receiverFirst && Ended(n) && Enabled(r, n, Notify)
    ensures Ended(Apply(r, n, Notify))
  {
    var n' := Apply(r, n, Notify);
    if n.slot.Attached? {
      if InSetup(n.rpc) { ReceiverIsTold(n); }
      if !n.spc.SFailed? { SenderApart(n, n'); }
    } else {
      if InSetup(n.rpc) { ReceiverApart(n, n'); }
      if !n.spc.SFailed? { SenderIsTold(n); }
    }
  }

  lemma EndedStepOther(r: Rules, n: Net, a: Action)
    requires !r.mayLeave && Ended(n) && Enabled(r, n, a) && ValidAction(a) && !Programmed(a)
    ensures Ended(Apply(r, n, a))
  {
    var n' := Apply(r, n, a);
    if a.EnterTransfer? || a.LoopBack? || a.SenderReturns? {
      SenderElsewhere(n, n');
      if InSetup(n'.rpc) { ReceiverApart(n, n'); }
    } else {
      if !n.spc.SFailed? { SenderApart(n, n'); }
      if InSetup(n'.rpc) { ReceiverApart(n, n'); }
    }
  }

  lemma EndedStep(r: Rules, n: Net, a: Action)
    requires r.receiverFirst && !r.mayLeave && Ended(n) && ValidAction(a)
    ensures Ended(Step(r, n, a))
  {
    if Enabled(r, n, a) {
      if a.SenderSends? || a.SenderReads? || a.ServeSender? {
        EndedStepSender(r, n, a);
      } else if a.ReceiverSends? || a.ReceiverReads? || a.ServeReceiver? {
        EndedStepReceiver(r, n, a);
      } else if a.Notify? {
        EndedNotify(r, n);
      } else {
        EndedStepOther(r, n, a);
      }
    }
  }

  ghost predicate Regular(n: Net) { Inv(n) || Ended(n) }

  lemma RegularStep(r: Rules, n: Net, a: Action)
    requires r.receiverFirst && !r.mayLeave && Regular(n) && ValidAction(a)
    ensures Regular(Step(r, n, a))
  {
    if Ended(n) {
      EndedStep(r, n, a);
    } else if a.Expire? {
      ExpiryEnds(n);
    } else {
      StepKeeps(r, n, a);
    }
  }

  lemma {:induction false} RunRegular(r: Rules, code: string, p: Params, acts: seq<Action>)
    requires r.receiverFirst && !r.mayLeave
    requires ValidParams(p) && ValidActions(acts)
    ensures Regular(Exec(r, Opened(code, p), acts))
    decreases |acts|
  {
    if acts == [] {
      assert Quiet(Opened(code, p));
    } else {
      var front, a := acts[..|acts| - 1], acts[|acts| - 1];
      assert acts == front + [a] && a in acts;
      RunRegular(r, code, p, front);
      RegularStep(r, Exec(r, Opened(code, p), front), a);
    }
  }

  // Nothing is discarded, whether or not the session expires, as long as the
  // receiver is told first and none leaves halfway.
  lemma NothingIsDiscarded(r: Rules, code: string, p: Params, acts: seq<Action>)
    requires r.receiverFirst && !r.mayLeave
    requires ValidParams(p) && ValidActions(acts)
    ensures Exec(r, Opened(code, p), acts).discarded == []
  {
    RunRegular(r, code, p, acts);
  }
}
