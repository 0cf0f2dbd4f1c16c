// What pairing and the ICE exchange guarantee, over every interleaving of every
// sequence of setups in which no receiver leaves halfway.
module PairingTheorems {
  import opened Options
  import opened PairingModel
  import opened PairingInvariant

  ghost function Run(code: string, p: Params, acts: seq<Action>): Net {
    Exec(Served, Opened(code, p), acts)
  }

  // readUntil never throws anything away, and the k-th message a side reads is
  // the k-th its counterpart's script sends it, session_ready first.
  lemma EveryReadGetsItsMessage(code: string, p: Params, acts: seq<Action>)
    requires ValidParams(p) && ValidActions(acts)
    ensures var n := Run(code, p, acts);
      var c := ChatOf(n);
      && n.discarded == []
      && (Enabled(Served, n, SenderReads) ==>
          && SenderWants(n.spc) == Some(n.v2s[0].kind)
          && SenderGot(n.spc, n.sk, c) < ForSender(c).Length()
          && n.v2s[0] == ForSender(c).At(SenderGot(n.spc, n.sk, c)))
      && (Enabled(Served, n, ReceiverReads) && !n.v2r[0].kind.Error? ==>
          && ReceiverWants(n.rpc) == Some(n.v2r[0].kind)
          && ReceiverGot(n.rpc, n.rk, c) < ForReceiver(c).Length()
          && n.v2r[0] == ForReceiver(c).At(ReceiverGot(n.rpc, n.rk, c)))
  {
    RunKeeps(code, p, acts);
    var n := Run(code, p, acts);
    var c := ChatOf(n);
    if Enabled(Served, n, SenderReads) {
      SenderReadsKeeps(Served, n);
      WireRead(ForSender(c), SenderGot(n.spc, n.sk, c), SenderDue(n.slot, ReceiverSent(n.rpc, c)), n.v2s, n.r2v);
    }
    if Enabled(Served, n, ReceiverReads) && !n.v2r[0].kind.Error? {
      ReceiverReadsKeeps(Served, n);
      WireRead(ForReceiver(c), ReceiverGot(n.rpc, n.rk, c), ReceiverDue(n.slot, SenderSent(n.spc, c)), n.v2r, n.s2v);
    }
  }

  // Where SharedSecret is called: in PingPong and WaitAndPong, and for QUIC.
  predicate SenderUsesSecret(pc: SenderPc) { pc.SPing? || pc.SPong? || pc.SSetUp? }

  predicate ReceiverUsesSecret(pc: ReceiverPc) { pc.RPing? || pc.RPong? || pc.RSetUp? }

  // When both sides have paired, they hold the same secret; and whenever
  // SharedSecret is called the secret is set, so it never panics.
  lemma PairedSidesAgree(code: string, p: Params, acts: seq<Action>)
    requires ValidParams(p) && ValidActions(acts)
    ensures var n := Run(code, p, acts);
      && (SenderUsesSecret(n.spc) ==> n.sk.secret.Some?)
      && (ReceiverUsesSecret(n.rpc) ==> n.rk.secret.Some?)
      && (SenderInSetup(n.spc) && SenderGot(n.spc, n.sk, ChatOf(n)) >= 4 &&
          InSetup(n.rpc) && ReceiverSent(n.rpc, ChatOf(n)) >= 3 ==>
            n.sk.secret.Some? && n.sk.secret == n.rk.secret && n.rcode == n.code)
  {
    RunKeeps(code, p, acts);
  }

  // What the read loops end with is the other side's credentials and candidates
  // (PairingIce has this for every rule), and the sender's stay so when its
  // receiver has gone on to the transfer or has left.
  lemma SetUpsExchangeIce(code: string, p: Params, acts: seq<Action>)
    requires ValidParams(p) && ValidActions(acts)
    ensures var n := Run(code, p, acts);
      && (n.spc.SSetUp? ==>
          n.sk.creds == Some(Credentials(n.rp.ufrag, n.rp.pwd)) && n.sk.cands == n.rp.cands)
      && (n.rpc.RSetUp? ==>
          n.rk.creds == Some(Credentials(n.sp.ufrag, n.sp.pwd)) && n.rk.cands == n.sp.cands)
  {
    RunKeeps(code, p, acts);
  }

  // With complete setups there is even at most one session_ready before a sender
  // that waits, that of the receiver that is there now.
  lemma OneReadyAtMost(code: string, p: Params, acts: seq<Action>)
    requires ValidParams(p) && ValidActions(acts)
    ensures var n := Run(code, p, acts);
      n.spc.SWaitPeer? ==>
        && n.s2v == []
        && (n.v2s == [] || (n.v2s == [Ready] && n.slot.Paired?))
        && forall m :: m in n.r2v ==> m == JoinMsg(n.rcode)
  {
    RunKeeps(code, p, acts);
    var n := Run(code, p, acts);
    if Talking(n) && n.spc.SWaitPeer? {
      NothingSaid(n);
    }
  }

  // ---- No deadlock ---------------------------------------------------------

  ghost predicate SetUpDone(n: Net) { n.spc.SSetUp? && n.rpc.RSetUp? }

  // A receiver holds the slot, and the sender is there for it.
  ghost predicate SettingUp(n: Net) {
    Talking(n) && !n.spc.STransfer? && !n.spc.SExit?
  }

  // Of two sides that both wait, one has something on its way.
  lemma SomethingUnderWay(n: Net)
    requires SettingUp(n) && !SetUpDone(n) && n.slot.Paired?
    requires SenderOut(n).None? && ReceiverOut(n).None?
    ensures n.s2v != [] || n.r2v != [] || n.v2s != [] || n.v2r != []
    ensures n.v2s != [] ==> SenderWants(n.spc).Some?
    ensures n.v2r != [] ==> ReceiverWants(n.rpc).Some?
  {
  }

  // While a setup is not done, some client or the server can move.
  lemma NoDeadlock(n: Net)
    requires SettingUp(n) && !SetUpDone(n)
    ensures exists a :: Programmed(a) && Enabled(Served, n, a)
  {
    if MidJoin(n) {
      assert Enabled(Served, n, Notify);
    } else if SenderOut(n).Some? {
      assert Enabled(Served, n, SenderSends);
    } else if ReceiverOut(n).Some? {
      assert Enabled(Served, n, ReceiverSends);
    } else {
      SomethingUnderWay(n);
      if n.s2v != [] {
        assert Enabled(Served, n, ServeSender);
      } else if n.r2v != [] {
        assert Enabled(Served, n, ServeReceiver);
      } else if n.v2s != [] {
        assert Enabled(Served, n, SenderReads);
      } else {
        assert Enabled(Served, n, ReceiverReads);
      }
    }
  }

  // Messages unsent, on the first hop, on the second hop; notifications due.
  ghost function Measure(n: Net): int {
    3 * (|n.sp.cands| + 5 - SenderSent(n.spc, ChatOf(n)) + |n.rp.cands| + 5 - ReceiverSent(n.rpc, ChatOf(n)))
    + 2 * (|n.s2v| + |n.r2v|) + |n.v2s| + |n.v2r|
    + if n.slot.Attached? then 4 else if n.slot.ToldOne? then 2 else 0
  }

  lemma MeasureIsBounded(n: Net)
    requires Talking(n)
    ensures Measure(n) >= 0
  {
  }

  // One step nearer the end, and still in the same setup.
  ghost predicate Closer(n: Net, n': Net) {
    && Measure(n') < Measure(n)
    && (MidJoin(n') || n'.slot.Paired?) && InSetup(n'.rpc)
    && !n'.spc.STransfer? && !n'.spc.SExit?
  }

  lemma SenderSendIsCloser(n: Net)
    requires SettingUp(n) && Enabled(Served, n, SenderSends)
    ensures Closer(n, Apply(Served, n, SenderSends))
  {
  }

  lemma ReceiverSendIsCloser(n: Net)
    requires SettingUp(n) && Enabled(Served, n, ReceiverSends)
    ensures Closer(n, Apply(Served, n, ReceiverSends))
  {
  }

  lemma SenderReadIsCloser(n: Net)
    requires Inv(n) && SettingUp(n) && Enabled(Served, n, SenderReads)
    ensures Closer(n, Apply(Served, n, SenderReads))
  {
    var c := ChatOf(n);
    WireRead(ForSender(c), SenderGot(n.spc, n.sk, c), SenderDue(n.slot, ReceiverSent(n.rpc, c)), n.v2s, n.r2v);
    LogIsRelayable(ForSender(c), SenderGot(n.spc, n.sk, c));
    var n1 := n.(v2s := n.v2s[1..]);
    SenderTakesLog(n1, c, n.v2s[0]);
    assert Apply(Served, n, SenderReads) == SenderTake(n1, n.v2s[0]);
  }

  lemma ReceiverReadIsCloser(n: Net)
    requires Inv(n) && SettingUp(n) && Enabled(Served, n, ReceiverReads)
    ensures Closer(n, Apply(Served, n, ReceiverReads))
  {
    var c := ChatOf(n);
    WireRead(ForReceiver(c), ReceiverGot(n.rpc, n.rk, c), ReceiverDue(n.slot, SenderSent(n.spc, c)), n.v2r, n.s2v);
    LogIsRelayable(ForReceiver(c), ReceiverGot(n.rpc, n.rk, c));
    ReceiverTakesLog(n.(v2r := n.v2r[1..]), c, n.v2r[0]);
  }

  lemma ServeSenderIsCloser(n: Net)
    requires Inv(n) && SettingUp(n) && Enabled(Served, n, ServeSender)
    ensures Closer(n, Apply(Served, n, ServeSender))
  {
    SenderIsServed(Served, n);
  }

  lemma ServeReceiverIsCloser(n: Net)
    requires Inv(n) && SettingUp(n) && Enabled(Served, n, ServeReceiver)
    ensures Closer(n, Apply(Served, n, ServeReceiver))
  {
    ReceiverIsServed(Served, n);
  }

  lemma NotifyIsCloser(n: Net)
    requires SettingUp(n) && Enabled(Served, n, Notify)
    ensures Closer(n, Apply(Served, n, Notify))
  {
  }

  lemma EveryStepIsCloser(n: Net, a: Action)
    requires Inv(n) && SettingUp(n) && Programmed(a) && Enabled(Served, n, a)
    ensures Closer(n, Apply(Served, n, a))
  {
    match a
    case SenderSends => SenderSendIsCloser(n);
    case SenderReads => SenderReadIsCloser(n);
    case ReceiverSends => ReceiverSendIsCloser(n);
    case ReceiverReads => ReceiverReadIsCloser(n);
    case ServeSender => ServeSenderIsCloser(n);
    case ServeReceiver => ServeReceiverIsCloser(n);
    case Notify => NotifyIsCloser(n);
  }

  lemma StillSettingUp(n: Net, n': Net)
    requires Inv(n') && Closer(n, n')
    ensures SettingUp(n')
  {
  }

  lemma EveryStepMakesProgress(n: Net, a: Action)
    requires Inv(n) && SettingUp(n) && Programmed(a) && Enabled(Served, n, a)
    ensures Inv(Step(Served, n, a)) && SettingUp(Step(Served, n, a))
    ensures Measure(Step(Served, n, a)) < Measure(n)
  {
    StepKeeps(Served, n, a);
    EveryStepIsCloser(n, a);
    StillSettingUp(n, Step(Served, n, a));
  }

  // A run of the clients and the server alone, every step of it real.
  ghost predicate Proceeds(r: Rules, n: Net, acts: seq<Action>)
    decreases |acts|
  {
    acts == [] ||
    (Programmed(acts[0]) && Enabled(r, n, acts[0]) && Proceeds(r, Step(r, n, acts[0]), acts[1..]))
  }

  ghost function After(r: Rules, n: Net, acts: seq<Action>): Net
    decreases |acts|
  {
    if acts == [] then n else After(r, Step(r, n, acts[0]), acts[1..])
  }

  // Setup terminates: no run of it is longer than the measure allows, and one
  // that cannot be extended has completed the setup on both sides.
  lemma {:induction false} SetupTerminates(n: Net, acts: seq<Action>)
    requires Inv(n) && SettingUp(n) && Proceeds(Served, n, acts)
    ensures var n' := After(Served, n, acts);
      && |acts| <= Measure(n)
      && Inv(n') && SettingUp(n')
      && (SetUpDone(n') || exists a :: Programmed(a) && Enabled(Served, n', a))
    decreases |acts|
  {
    MeasureIsBounded(n);
    if acts == [] {
      if !SetUpDone(n) { NoDeadlock(n); }
    } else {
      EveryStepMakesProgress(n, acts[0]);
      SetupTerminates(Step(Served, n, acts[0]), acts[1..]);
    }
  }

  // A receiver holds the slot and is in its setup; the sender has not left.
  ghost predicate UnderSetup(n: Net) {
    (MidJoin(n) || n.slot.Paired?) && InSetup(n.rpc) && !n.spc.STransfer? && !n.spc.SExit?
  }

  // Same secret, and each has the other's ICE side.
  ghost predicate Agreed(n: Net) {
    && n.discarded == []
    && n.sk.secret.Some? && n.sk.secret == n.rk.secret
    && n.sk.creds == Some(Credentials(n.rp.ufrag, n.rp.pwd)) && n.sk.cands == n.rp.cands
    && n.rk.creds == Some(Credentials(n.sp.ufrag, n.sp.pwd)) && n.rk.cands == n.sp.cands
  }

  lemma SetUpMeansAgreed(n: Net)
    requires Inv(n) && SettingUp(n) && SetUpDone(n)
    ensures Agreed(n)
  {
  }

  lemma UnderSetupIsSettingUp(n: Net)
    requires Inv(n) && UnderSetup(n)
    ensures SettingUp(n)
  {
  }

  ghost predicate Stuck(r: Rules, n: Net) {
    forall a :: Programmed(a) ==> !Enabled(r, n, a)
  }

  // Both together, from any state a run can reach: once a setup is under way
  // the clients and the server can take only so many steps, and where they
  // stop, both sides are done and agree.
  lemma EverySetupCompletes(code: string, p: Params, acts: seq<Action>, more: seq<Action>)
    requires ValidParams(p) && ValidActions(acts)
    requires UnderSetup(Run(code, p, acts)) && Proceeds(Served, Run(code, p, acts), more)
    ensures |more| <= Measure(Run(code, p, acts))
    ensures var n' := After(Served, Run(code, p, acts), more);
      Stuck(Served, n') ==> SetUpDone(n') && Agreed(n')
  {
    RunKeeps(code, p, acts);
    var n := Run(code, p, acts);
    UnderSetupIsSettingUp(n);
    SetupTerminates(n, more);
    var n' := After(Served, n, more);
    if Stuck(Served, n') {
      assert SetUpDone(n');
      SetUpMeansAgreed(n');
    }
  }
}
