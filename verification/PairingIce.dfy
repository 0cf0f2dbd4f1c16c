// That the ICE exchange arrives whole, whatever the order of notifications,
// whoever leaves when, and whether the session expires: nothing of an earlier
// receiver, and no eviction, gets between a side and what its peer says.
module PairingIce {
  import opened Options
  import opened PairingModel
  import opened PairingRejoin

  // ---- What a side says, by position --------------------------------------

  // Share, confirmation and MAC, then credentials, candidates, sentinel.
  predicate SaidAt(m: Msg, i: int, p: Params) {
    && 0 <= i < |p.cands| + 5
    && (if i < 3 then m.kind.Relay?
        else if i == 3 then m == CredsMsg(p)
        else if i < |p.cands| + 4 then m == CandMsg(p.cands[i - 4])
        else m == Sentinel)
  }

  ghost predicate Says(q: seq<Msg>, from: int, p: Params) {
    forall k :: 0 <= k < |q| ==> SaidAt(q[k], from + k, p)
  }

  function TalkOf(q: seq<Msg>): seq<Msg> {
    if q == [] then []
    else (if Talk(q[0]) then [q[0]] else []) + TalkOf(q[1..])
  }

  lemma {:induction false} TalkOfConcat(a: seq<Msg>, b: seq<Msg>)
    ensures TalkOf(a + b) == TalkOf(a) + TalkOf(b)
  {
    if a == [] {
      assert a + b == b;
    } else {
      var head := if Talk(a[0]) then [a[0]] else [];
      var rest := TalkOf(a[1..]);
      assert TalkOf(a) == head + rest;
      assert TalkOf(a + b) == head + (rest + TalkOf(b)) by {
        TalkOfConcat(a[1..], b);
        assert (a + b)[0] == a[0] && (a + b)[1..] == a[1..] + b;
      }
    }
  }

  lemma TalkOfOne(q: seq<Msg>, m: Msg)
    ensures TalkOf(q + [m]) == TalkOf(q) + if Talk(m) then [m] else []
  {
    TalkOfConcat(q, [m]);
    assert [m][1..] == [];
  }

  lemma {:induction false} TalkOfNone(q: seq<Msg>)
    requires NoTalk(q)
    ensures TalkOf(q) == []
  {
    if q != [] {
      TalkOfNone(q[1..]);
    }
  }

  lemma SaysParts(a: seq<Msg>, b: seq<Msg>, from: int, p: Params)
    ensures Says(a + b, from, p) <==> Says(a, from, p) && Says(b, from + |a|, p)
  {
    var q := a + b;
    assert forall k :: 0 <= k < |a| ==> q[k] == a[k];
    assert forall k :: 0 <= k < |b| ==> q[|a| + k] == b[k];
    if Says(q, from, p) {
      forall k | 0 <= k < |a| ensures SaidAt(a[k], from + k, p) { assert SaidAt(q[k], from + k, p); }
      forall k | 0 <= k < |b| ensures SaidAt(b[k], from + |a| + k, p) {
        assert SaidAt(q[|a| + k], from + (|a| + k), p);
      }
    }
    if Says(a, from, p) && Says(b, from + |a|, p) {
      forall k | 0 <= k < |q| ensures SaidAt(q[k], from + k, p) {
        if k >= |a| { assert SaidAt(b[k - |a|], from + |a| + (k - |a|), p); }
      }
    }
  }

  // ---- One direction -------------------------------------------------------

  // The near queue holds what is said from position `got` on. While the session
  // lives the far queue goes on from there, up to where the speaker is; of one
  // that has failed (sent < 0) that is not known.
  ghost predicate Way(near: seq<Msg>, far: seq<Msg>, got: int, sent: int, live: bool, p: Params) {
    && Says(TalkOf(near), got, p)
    && (live ==> Says(TalkOf(far), got + |TalkOf(near)|, p))
    && (live && sent >= 0 ==> got + |TalkOf(near)| + |TalkOf(far)| == sent)
  }

  lemma WaySay(near: seq<Msg>, far: seq<Msg>, got: int, sent: int, live: bool, p: Params, m: Msg)
    requires Way(near, far, got, sent, live, p) && sent >= 0 && Talk(m) && SaidAt(m, sent, p)
    ensures Way(near, far + [m], got, sent + 1, live, p)
  {
    TalkOfOne(far, m);
    if live {
      assert Says([m], sent, p);
      SaysParts(TalkOf(far), [m], got + |TalkOf(near)|, p);
    }
  }

  lemma WayHop(near: seq<Msg>, far: seq<Msg>, got: int, sent: int, p: Params)
    requires Way(near, far, got, sent, true, p) && far != []
    ensures Way(near + [far[0]], far[1..], got, sent, true, p)
  {
    TalkOfOne(near, far[0]);
    if Talk(far[0]) {
      assert TalkOf(far) == [far[0]] + TalkOf(far[1..]);
      SaysParts([far[0]], TalkOf(far[1..]), got + |TalkOf(near)|, p);
      SaysParts(TalkOf(near), [far[0]], got, p);
      assert |TalkOf(near + [far[0]])| == |TalkOf(near)| + |[far[0]]|;
    } else {
      assert TalkOf(far) == TalkOf(far[1..]) && TalkOf(near + [far[0]]) == TalkOf(near);
    }
  }

  lemma WayInsert(near: seq<Msg>, far: seq<Msg>, got: int, sent: int, live: bool, p: Params, m: Msg)
    requires Way(near, far, got, sent, live, p) && !Talk(m)
    ensures Way(near + [m], far, got, sent, live, p)
  {
    TalkOfOne(near, m);
    assert TalkOf(near + [m]) == TalkOf(near);
  }

  lemma WaySkip(near: seq<Msg>, far: seq<Msg>, got: int, sent: int, live: bool, p: Params)
    requires Way(near, far, got, sent, live, p) && far != [] && (!live || !Talk(far[0]))
    ensures Way(near, far[1..], got, sent, live, p)
  {
    if live {
      assert TalkOf(far) == TalkOf(far[1..]);
    }
  }

  lemma WayRead(near: seq<Msg>, far: seq<Msg>, got: int, sent: int, live: bool, p: Params)
    requires Way(near, far, got, sent, live, p) && near != []
    ensures if Talk(near[0]) then SaidAt(near[0], got, p) && Way(near[1..], far, got + 1, sent, live, p)
            else Way(near[1..], far, got, sent, live, p)
  {
    if Talk(near[0]) {
      SaysParts([near[0]], TalkOf(near[1..]), got, p);
      assert SaidAt([near[0]][0], got + 0, p);
      assert got + |TalkOf(near)| == got + 1 + |TalkOf(near[1..])|;
    } else {
      assert TalkOf(near) == TalkOf(near[1..]);
    }
  }

  lemma WayEmpty(near: seq<Msg>, far: seq<Msg>, got: int, live: bool, p: Params)
    requires NoTalk(near + far)
    ensures Way(near, far, got, got, live, p)
  {
    NoTalkInParts(near, far);
    TalkOfNone(near);
    TalkOfNone(far);
  }

  // ---- Where the scripts are ----------------------------------------------

  // How much of the sender's talk a receiver that has heard the share has heard,
  // and how much of it has been said; likewise the other way.
  function ReceiverHeard(pc: ReceiverPc, k: Known): int {
    match pc
    case RReply => 1
    case RConfirm => 1
    case RAnswer => 2
    case RPing => 2
    case RReadCands => 4 + |k.cands|
    case _ => 3
  }

  function SenderSaid(pc: SenderPc, p: Params): int {
    match pc
    case SExchange => 1
    case SFinish => 1
    case SVerify => 2
    case SPing => 2
    case SPong => 3
    case SCreds => 3
    case SCands(i) => 4 + i
    case SReadCreds => |p.cands| + 5
    case SReadCands => |p.cands| + 5
    case SSetUp => |p.cands| + 5
    case _ => -1
  }

  function SenderHeard(pc: SenderPc, k: Known): int {
    match pc
    case SExchange => 0
    case SFinish => 1
    case SVerify => 1
    case SPing => 2
    case SPong => 2
    case SReadCands => 4 + |k.cands|
    case _ => 3
  }

  function ReceiverSaid(pc: ReceiverPc, p: Params): int {
    match pc
    case RReply => 0
    case RConfirm => 1
    case RAnswer => 1
    case RPing => 2
    case RPong => 2
    case RCreds => 3
    case RCands(i) => 4 + i
    case RReadCreds => |p.cands| + 5
    case RReadCands => |p.cands| + 5
    case RSetUp => |p.cands| + 5
    case _ => -1
  }

  // What a side has learnt of its peer's ICE side, done or on the way.
  ghost predicate Learnt(k: Known, p: Params) {
    k.creds == Some(Credentials(p.ufrag, p.pwd)) && k.cands == p.cands
  }

  ghost predicate Learning(k: Known, reading: bool, p: Params) {
    if reading then k.creds == Some(Credentials(p.ufrag, p.pwd)) && k.cands <= p.cands else k.cands == []
  }

  // Loops stay in bounds, and candidates are first heard when they are read.
  ghost predicate SenderTidy(pc: SenderPc, p: Params, k: Known) {
    && (pc.SCands? ==> pc.i <= |p.cands|)
    && (k.cands == [] || pc.SWaitPeer? || pc.STransfer? || pc.SExit? || pc.SFailed? || pc.SReadCands? || pc.SSetUp?)
  }

  ghost predicate ReceiverTidy(pc: ReceiverPc, p: Params, k: Known) {
    && (pc.RCands? ==> pc.i <= |p.cands|)
    && (k.cands == [] || pc.RAbsent? || pc.RTransfer? || pc.RFailed? || pc.RReadCands? || pc.RSetUp?)
  }

  ghost predicate Tidy(n: Net) {
    SenderTidy(n.spc, n.sp, n.sk) && ReceiverTidy(n.rpc, n.rp, n.rk)
  }

  ghost predicate ReceiverWhole(n: Net) {
    && (n.rpc.RSetUp? ==> Learnt(n.rk, n.sp))
    && (Spoken(n.rpc) && !n.rpc.RSetUp? ==>
      && Learning(n.rk, n.rpc.RReadCands?, n.sp)
      && Way(n.v2r, n.s2v, ReceiverHeard(n.rpc, n.rk), SenderSaid(n.spc, n.sp), n.live, n.sp))
  }

  ghost predicate SenderWhole(n: Net) {
    && (n.spc.SSetUp? && Spoken(n.rpc) ==> Learnt(n.sk, n.rp))
    && (Spoken(n.rpc) && !n.spc.SSetUp? && !n.spc.SFailed? ==>
      && Learning(n.sk, n.spc.SReadCands?, n.rp)
      && Way(n.v2s, n.r2v, SenderHeard(n.spc, n.sk), ReceiverSaid(n.rpc, n.rp), n.live, n.rp))
  }

  ghost predicate Whole(n: Net) {
    Tidy(n) && ReceiverWhole(n) && SenderWhole(n)
  }

  // ---- Every step keeps it -------------------------------------------------

  lemma SpokenMeansUnderWay(n: Net)
    requires Clear(n) && Spoken(n.rpc)
    ensures !Fresh(n.spc) && !n.slot.Vacant? && !n.slot.Leaving?
  {
  }

  lemma StepTidy(r: Rules, n: Net, a: Action)
    requires Tidy(n) && Enabled(r, n, a)
    ensures Tidy(Apply(r, n, a))
  {
    if a.SenderSends? || a.SenderReads? {
      SenderStaysTidy(r, n, a);
    } else if a.ReceiverSends? || a.ReceiverReads? {
      ReceiverStaysTidy(r, n, a);
    }
  }

  lemma SenderStaysTidy(r: Rules, n: Net, a: Action)
    requires Tidy(n) && Enabled(r, n, a) && (a.SenderSends? || a.SenderReads?)
    ensures Tidy(Apply(r, n, a))
  {
  }

  lemma ReceiverStaysTidy(r: Rules, n: Net, a: Action)
    requires Tidy(n) && Enabled(r, n, a) && (a.ReceiverSends? || a.ReceiverReads?)
    ensures Tidy(Apply(r, n, a))
  {
  }

  lemma SenderSendsWhole(r: Rules, n: Net)
    requires Clear(n) && Whole(n) && Enabled(r, n, SenderSends) && Spoken(n.rpc)
    ensures ReceiverWhole(Apply(r, n, SenderSends)) && SenderWhole(Apply(r, n, SenderSends))
  {
    var n', m := Apply(r, n, SenderSends), SenderOut(n).value;
    SpokenMeansUnderWay(n);
    assert SenderSaid(n'.spc, n.sp) == SenderSaid(n.spc, n.sp) + 1 && SaidAt(m, SenderSaid(n.spc, n.sp), n.sp);
    if !n.rpc.RSetUp? {
      WaySay(n.v2r, n.s2v, ReceiverHeard(n.rpc, n.rk), SenderSaid(n.spc, n.sp), n.live, n.sp, m);
    }
    assert SenderHeard(n'.spc, n.sk) == SenderHeard(n.spc, n.sk);
  }

  lemma ReceiverSendsWhole(r: Rules, n: Net)
    requires Clear(n) && Whole(n) && Enabled(r, n, ReceiverSends) && Spoken(n.rpc)
    ensures ReceiverWhole(Apply(r, n, ReceiverSends)) && SenderWhole(Apply(r, n, ReceiverSends))
  {
    var n', m := Apply(r, n, ReceiverSends), ReceiverOut(n).value;
    SpokenMeansUnderWay(n);
    assert ReceiverSaid(n'.rpc, n.rp) == ReceiverSaid(n.rpc, n.rp) + 1 && SaidAt(m, ReceiverSaid(n.rpc, n.rp), n.rp);
    if !n.spc.SSetUp? && !n.spc.SFailed? {
      WaySay(n.v2s, n.r2v, SenderHeard(n.spc, n.sk), ReceiverSaid(n.rpc, n.rp), n.live, n.rp, m);
    }
    assert ReceiverHeard(n'.rpc, n'.rk) == ReceiverHeard(n.rpc, n.rk);
  }

  // The message at hand is the one the script waits for; it learns what it says.
  lemma SenderTakesSaid(n: Net, m: Msg)
    requires SenderWants(n.spc).Some? && !n.spc.SWaitPeer? && ValidParams(n.rp)
    requires Learning(n.sk, n.spc.SReadCands?, n.rp) && SaidAt(m, SenderHeard(n.spc, n.sk), n.rp)
    ensures SenderWants(n.spc) == Some(m.kind)
    ensures var n' := SenderTake(n, m);
      && n' == n.(spc := n'.spc, sk := n'.sk)
      && (n'.spc.SFailed?
          || (n'.spc.SSetUp? && Learnt(n'.sk, n.rp))
          || (!n'.spc.SSetUp? && Learning(n'.sk, n'.spc.SReadCands?, n.rp)
              && SenderHeard(n'.spc, n'.sk) == SenderHeard(n.spc, n.sk) + 1))
      && (n'.spc.SFailed? || SenderSaid(n'.spc, n.sp) == SenderSaid(n.spc, n.sp))
  {
    if n.spc.SReadCands? && |n.sk.cands| < |n.rp.cands| {
      assert n.rp.cands[|n.sk.cands|] in n.rp.cands;
    }
  }

  lemma ReceiverTakesSaid(n: Net, m: Msg)
    requires ReceiverWants(n.rpc).Some? && Spoken(n.rpc) && ValidParams(n.sp)
    requires Learning(n.rk, n.rpc.RReadCands?, n.sp) && SaidAt(m, ReceiverHeard(n.rpc, n.rk), n.sp)
    ensures ReceiverWants(n.rpc) == Some(m.kind)
    ensures var n' := ReceiverTake(n, m);
      && n' == n.(rpc := n'.rpc, rk := n'.rk)
      && (n'.rpc.RFailed?
          || (n'.rpc.RSetUp? && Learnt(n'.rk, n.sp))
          || (!n'.rpc.RSetUp? && Spoken(n'.rpc) && Learning(n'.rk, n'.rpc.RReadCands?, n.sp)
              && ReceiverHeard(n'.rpc, n'.rk) == ReceiverHeard(n.rpc, n.rk) + 1))
      && (n'.rpc.RFailed? || ReceiverSaid(n'.rpc, n.rp) == ReceiverSaid(n.rpc, n.rp))
  {
    if n.rpc.RReadCands? && |n.rk.cands| < |n.sp.cands| {
      assert n.sp.cands[|n.rk.cands|] in n.sp.cands;
    }
  }

  // Whatever the sender does on a read, it stays where it is, fails, or has
  // taken the next thing its peer said.
  ghost predicate SenderGoesOn(n: Net, n': Net) {
    && n' == n.(v2s := n'.v2s, spc := n'.spc, sk := n'.sk, discarded := n'.discarded)
    && (n'.spc.SFailed?
        || (SenderSaid(n'.spc, n.sp) == SenderSaid(n.spc, n.sp)
            && (n'.spc.SSetUp? ==> Learnt(n'.sk, n.rp))
            && (!n'.spc.SSetUp? ==>
                && Learning(n'.sk, n'.spc.SReadCands?, n.rp)
                && Way(n'.v2s, n.r2v, SenderHeard(n'.spc, n'.sk), ReceiverSaid(n.rpc, n.rp), n.live, n.rp))))
  }

  lemma SenderGoesOnWhole(n: Net, n': Net)
    requires ReceiverWhole(n) && SenderGoesOn(n, n')
    ensures ReceiverWhole(n') && SenderWhole(n')
  {
  }

  lemma SenderReadsOn(r: Rules, n: Net)
    requires Clear(n) && SenderWhole(n) && Enabled(r, n, SenderReads) && Spoken(n.rpc)
    ensures SenderGoesOn(n, Apply(r, n, SenderReads))
  {
    SpokenMeansUnderWay(n);
    var n1, m := n.(v2s := n.v2s[1..]), n.v2s[0];
    WayRead(n.v2s, n.r2v, SenderHeard(n.spc, n.sk), ReceiverSaid(n.rpc, n.rp), n.live, n.rp);
    if Talk(m) {
      SenderTakesSaid(n1, m);
      assert Apply(r, n, SenderReads) == SenderTake(n1, m);
    } else {
      assert m.kind.Error? || m == Ready;
    }
  }

  lemma SenderReadsWhole(r: Rules, n: Net)
    requires Clear(n) && Whole(n) && Enabled(r, n, SenderReads) && Spoken(n.rpc)
    ensures ReceiverWhole(Apply(r, n, SenderReads)) && SenderWhole(Apply(r, n, SenderReads))
  {
    SenderReadsOn(r, n);
    SenderGoesOnWhole(n, Apply(r, n, SenderReads));
  }

  ghost predicate ReceiverGoesOn(n: Net, n': Net) {
    && n' == n.(v2r := n'.v2r, rpc := n'.rpc, rk := n'.rk, discarded := n'.discarded)
    && (n'.rpc.RFailed?
        || (ReceiverSaid(n'.rpc, n.rp) == ReceiverSaid(n.rpc, n.rp)
            && (n'.rpc.RSetUp? ==> Learnt(n'.rk, n.sp))
            && (!n'.rpc.RSetUp? ==>
                && Learning(n'.rk, n'.rpc.RReadCands?, n.sp)
                && Way(n'.v2r, n.s2v, ReceiverHeard(n'.rpc, n'.rk), SenderSaid(n.spc, n.sp), n.live, n.sp))))
  }

  lemma ReceiverGoesOnWhole(n: Net, n': Net)
    requires SenderWhole(n) && Spoken(n.rpc) && ReceiverGoesOn(n, n')
    ensures ReceiverWhole(n') && SenderWhole(n')
  {
  }

  lemma ReceiverReadsOn(r: Rules, n: Net)
    requires Clear(n) && ReceiverWhole(n) && Enabled(r, n, ReceiverReads) && Spoken(n.rpc)
    ensures ReceiverGoesOn(n, Apply(r, n, ReceiverReads))
  {
    var n1, m := n.(v2r := n.v2r[1..]), n.v2r[0];
    WayRead(n.v2r, n.s2v, ReceiverHeard(n.rpc, n.rk), SenderSaid(n.spc, n.sp), n.live, n.sp);
    if Talk(m) {
      ReceiverTakesSaid(n1, m);
      assert Apply(r, n, ReceiverReads) == ReceiverTake(n1, m);
    }
  }

  lemma ReceiverReadsWhole(r: Rules, n: Net)
    requires Clear(n) && Whole(n) && Enabled(r, n, ReceiverReads) && Spoken(n.rpc)
    ensures ReceiverWhole(Apply(r, n, ReceiverReads)) && SenderWhole(Apply(r, n, ReceiverReads))
  {
    ReceiverReadsOn(r, n);
    ReceiverGoesOnWhole(n, Apply(r, n, ReceiverReads));
  }

  // The share is heard: so far nobody has said anything else.
  lemma ShareIsHeard(r: Rules, n: Net)
    requires Clear(n) && Tidy(n) && Enabled(r, n, ReceiverReads) && !Spoken(n.rpc)
    ensures ReceiverWhole(Apply(r, n, ReceiverReads)) && SenderWhole(Apply(r, n, ReceiverReads))
  {
    var n' := Apply(r, n, ReceiverReads);
    if Spoken(n'.rpc) {
      Take(n.v2r, n.s2v);
      assert n.spc.SExchange? && n'.rpc.RReply?;
      WayEmpty(n'.v2r, n'.s2v, 1, n'.live, n'.sp);
      WayEmpty(n'.v2s, n'.r2v, 0, n'.live, n'.rp);
    }
  }

  lemma ServeSenderWhole(r: Rules, n: Net)
    requires Clear(n) && Whole(n) && Enabled(r, n, ServeSender) && Spoken(n.rpc)
    ensures ReceiverWhole(Apply(r, n, ServeSender)) && SenderWhole(Apply(r, n, ServeSender))
  {
    SpokenMeansUnderWay(n);
    var heard, said := ReceiverHeard(n.rpc, n.rk), SenderSaid(n.spc, n.sp);
    assert n.s2v[0] == Wire(n.s2v[0].kind, n.s2v[0].payload);
    if Connected(n) {
      if !n.rpc.RSetUp? { WayHop(n.v2r, n.s2v, heard, said, n.sp); }
    } else {
      if !n.rpc.RSetUp? { WaySkip(n.v2r, n.s2v, heard, said, n.live, n.sp); }
      if !n.spc.SSetUp? && !n.spc.SFailed? {
        WayInsert(n.v2s, n.r2v, SenderHeard(n.spc, n.sk), ReceiverSaid(n.rpc, n.rp), n.live, n.rp,
                  ErrorMsg("relay: receiver not yet connected"));
      }
    }
  }

  // Something that is no talk is added to the receiver's queue.
  lemma ReceiverWholeInsert(n: Net, m: Msg)
    requires ReceiverWhole(n) && !Talk(m)
    ensures ReceiverWhole(n.(v2r := n.v2r + [m]))
  {
    if Spoken(n.rpc) && !n.rpc.RSetUp? {
      WayInsert(n.v2r, n.s2v, ReceiverHeard(n.rpc, n.rk), SenderSaid(n.spc, n.sp), n.live, n.sp, m);
    }
  }

  lemma SenderWholeInsert(n: Net, m: Msg)
    requires SenderWhole(n) && !Talk(m)
    ensures SenderWhole(n.(v2s := n.v2s + [m]))
  {
    if Spoken(n.rpc) && !n.spc.SSetUp? && !n.spc.SFailed? {
      WayInsert(n.v2s, n.r2v, SenderHeard(n.spc, n.sk), ReceiverSaid(n.rpc, n.rp), n.live, n.rp, m);
    }
  }

  lemma ServeReceiverWhole(r: Rules, n: Net)
    requires Clear(n) && Whole(n) && Enabled(r, n, ServeReceiver) && Spoken(n.rpc)
    ensures ReceiverWhole(Apply(r, n, ServeReceiver)) && SenderWhole(Apply(r, n, ServeReceiver))
  {
    SpokenMeansUnderWay(n);
    var heard, said := SenderHeard(n.spc, n.sk), ReceiverSaid(n.rpc, n.rp);
    ReceiverWholeInsert(n, ErrorMsg("join_session: session not found or already joined"));
    ReceiverWholeInsert(n, ErrorMsg("relay: connection not associated with any session"));
    if !n.spc.SSetUp? && !n.spc.SFailed? {
      if !n.r2v[0].kind.JoinSession? && n.live {
        WayHop(n.v2s, n.r2v, heard, said, n.rp);
      } else {
        WaySkip(n.v2s, n.r2v, heard, said, n.live, n.rp);
      }
    }
  }

  lemma NotifyWhole(r: Rules, n: Net)
    requires ReceiverWhole(n) && SenderWhole(n) && Enabled(r, n, Notify)
    ensures ReceiverWhole(Apply(r, n, Notify)) && SenderWhole(Apply(r, n, Notify))
  {
    ReceiverWholeInsert(n, Ready);
    SenderWholeInsert(n, Ready);
  }

  // Only by hearing the share does a receiver come to speak.
  lemma OthersStayUnspoken(r: Rules, n: Net, a: Action)
    requires !Spoken(n.rpc) && Enabled(r, n, a) && !a.ReceiverReads?
    ensures !Spoken(Apply(r, n, a).rpc) && !Apply(r, n, a).rpc.RSetUp?
  {
  }

  lemma ProgramWhole(r: Rules, n: Net, a: Action)
    requires Clear(n) && Whole(n) && Programmed(a) && Enabled(r, n, a)
    ensures ReceiverWhole(Apply(r, n, a)) && SenderWhole(Apply(r, n, a))
  {
    if a.Notify? {
      NotifyWhole(r, n);
    } else if a.ReceiverReads? && !Spoken(n.rpc) {
      ShareIsHeard(r, n);
    } else if Spoken(n.rpc) {
      match a
      case SenderSends => SenderSendsWhole(r, n);
      case SenderReads => SenderReadsWhole(r, n);
      case ReceiverSends => ReceiverSendsWhole(r, n);
      case ReceiverReads => ReceiverReadsWhole(r, n);
      case ServeSender => ServeSenderWhole(r, n);
      case ServeReceiver => ServeReceiverWhole(r, n);
    } else {
      OthersStayUnspoken(r, n, a);
    }
  }

  // Arrivals, departures, the sender's loop, the end of the session.
  lemma OthersWhole(r: Rules, n: Net, a: Action)
    requires Clear(n) && Whole(n) && !Programmed(a) && Enabled(r, n, a)
    ensures ReceiverWhole(Apply(r, n, a)) && SenderWhole(Apply(r, n, a))
  {
  }

  lemma StepWhole(r: Rules, n: Net, a: Action)
    requires Clear(n) && Whole(n)
    ensures Whole(Step(r, n, a))
  {
    if Enabled(r, n, a) {
      StepTidy(r, n, a);
      if Programmed(a) { ProgramWhole(r, n, a); } else { OthersWhole(r, n, a); }
    }
  }

  lemma {:induction false} RunWhole(r: Rules, code: string, p: Params, acts: seq<Action>)
    requires ValidParams(p) && ValidActions(acts)
    ensures Whole(Exec(r, Opened(code, p), acts))
    decreases |acts|
  {
    if acts == [] {
    } else {
      var front, a := acts[..|acts| - 1], acts[|acts| - 1];
      assert acts == front + [a] && a in acts;
      RunWhole(r, code, p, front);
      RunClear(r, code, p, front);
      StepWhole(r, Exec(r, Opened(code, p), front), a);
    }
  }

  // Each read loop of GatherAndConnect ends at the sentinel with exactly the
  // other side's credentials and candidates, in order: the receiver's with those
  // of the sender's present attempt, the sender's with those of the receiver it
  // has been talking to.
  lemma IceArrivesWhole(r: Rules, code: string, p: Params, acts: seq<Action>)
    requires ValidParams(p) && ValidActions(acts)
    ensures var n := Exec(r, Opened(code, p), acts);
      && (n.rpc.RSetUp? ==>
          n.rk.creds == Some(Credentials(n.sp.ufrag, n.sp.pwd)) && n.rk.cands == n.sp.cands)
      && (n.spc.SSetUp? && Spoken(n.rpc) ==>
          n.sk.creds == Some(Credentials(n.rp.ufrag, n.rp.pwd)) && n.sk.cands == n.rp.cands)
  {
    RunWhole(r, code, p, acts);
  }
}
