// What holds whatever the server's order of notifications is, whoever leaves
// when, and whether the session expires: a sender that waits for a peer has
// nothing of an earlier receiver before it.
module PairingRejoin {
  import opened PairingModel

  // ---- Messages for a peer -------------------------------------------------

  predicate Talk(m: Msg) {
    m.kind.Relay? || m.kind.IceCandidate? || m.kind.IceCredentials?
  }

  // The sender's share opens what it says in an attempt, the sentinel ends what
  // either side says.
  predicate First(m: Msg) {
    m.kind.Relay? && m.payload.Some? && m.payload.value.Share? && m.payload.value.role.RoleSender?
  }

  predicate Last(m: Msg) {
    m.kind.IceCandidate? && EmptyPayload(m.payload)
  }

  ghost predicate NoTalk(q: seq<Msg>) {
    forall i :: 0 <= i < |q| ==> !Talk(q[i])
  }

  ghost predicate NoError(q: seq<Msg>) {
    forall i :: 0 <= i < |q| ==> !q[i].kind.Error?
  }

  ghost predicate HasFirst(q: seq<Msg>) {
    exists i :: 0 <= i < |q| && First(q[i])
  }

  ghost predicate HasLast(q: seq<Msg>) {
    exists i :: 0 <= i < |q| && Last(q[i])
  }

  // No share after anything, nothing after a sentinel.
  ghost predicate Ordered(q: seq<Msg>) {
    forall i, j :: 0 <= i < j < |q| && Talk(q[i]) && Talk(q[j]) ==> !Last(q[i]) && !First(q[j])
  }

  ghost predicate OneTalk(q: seq<Msg>) {
    forall i, j :: 0 <= i < j < |q| ==> !(Talk(q[i]) && Talk(q[j]))
  }

  // ---- Queues of two hops --------------------------------------------------

  // q' is q without some of its messages, and with some that are no talk.
  ghost predicate Thinner(q: seq<Msg>, q': seq<Msg>) {
    && (Ordered(q) ==> Ordered(q'))
    && (OneTalk(q) ==> OneTalk(q'))
    && (NoTalk(q) ==> NoTalk(q'))
    && (HasFirst(q') ==> HasFirst(q))
    && (HasLast(q') ==> HasLast(q))
  }

  lemma Insert(near: seq<Msg>, far: seq<Msg>, m: Msg)
    requires !Talk(m)
    ensures Thinner(near + far, (near + [m]) + far)
  {
    var q, q' := near + far, (near + [m]) + far;
    assert forall i :: 0 <= i < |q'| && i != |near| ==> q'[i] == q[if i < |near| then i else i - 1];
    assert q'[|near|] == m;
  }

  lemma Append(near: seq<Msg>, far: seq<Msg>, m: Msg)
    requires !Talk(m)
    ensures Thinner(near + far, near + (far + [m]))
  {
    assert near + (far + [m]) == (near + far) + [m];
  }

  lemma Drop(near: seq<Msg>, far: seq<Msg>)
    requires far != []
    ensures Thinner(near + far, near + far[1..])
    ensures OneTalk(near + far) && Talk(far[0]) ==> NoTalk(near + far[1..])
    ensures Ordered(near + far) && Talk(far[0]) ==> !HasLast(near)
  {
    var q, q' := near + far, near + far[1..];
    assert forall i :: 0 <= i < |q'| ==> q'[i] == q[if i < |near| then i else i + 1];
    assert q[|near|] == far[0];
    assert forall i :: 0 <= i < |near| ==> q[i] == near[i];
  }

  lemma Take(near: seq<Msg>, far: seq<Msg>)
    requires near != []
    ensures Thinner(near + far, near[1..] + far)
    ensures OneTalk(near + far) && Talk(near[0]) ==> NoTalk(near[1..] + far)
    ensures Ordered(near + far) && Last(near[0]) ==> NoTalk(near[1..] + far)
    ensures First(near[0]) ==> HasFirst(near + far)
    ensures Last(near[0]) ==> HasLast(near + far)
  {
    var q, q' := near + far, near[1..] + far;
    assert forall i :: 0 <= i < |q'| ==> q'[i] == q[i + 1];
    assert q[0] == near[0];
  }

  lemma Suffix(q: seq<Msg>, k: nat)
    requires k <= |q|
    ensures Thinner(q, q[k..])
  {
  }

  lemma Forget(near: seq<Msg>, far: seq<Msg>)
    ensures Thinner(near + far, [] + far)
  {
    assert (near + far)[|near|..] == far == [] + far;
    Suffix(near + far, |near|);
  }

  lemma Say(near: seq<Msg>, far: seq<Msg>, m: Msg)
    requires Ordered(near + far) && !HasLast(near + far) && (First(m) ==> NoTalk(near + far))
    ensures Ordered(near + (far + [m]))
    ensures HasFirst(near + (far + [m])) ==> HasFirst(near + far) || First(m)
    ensures HasLast(near + (far + [m])) ==> Last(m)
    ensures NoTalk(near + far) ==> OneTalk(near + (far + [m]))
  {
    assert near + (far + [m]) == (near + far) + [m];
  }

  lemma Hop(near: seq<Msg>, far: seq<Msg>)
    requires far != []
    ensures (near + [far[0]]) + far[1..] == near + far
  {
  }

  lemma NoTalkInParts(near: seq<Msg>, far: seq<Msg>)
    ensures NoTalk(near + far) <==> NoTalk(near) && NoTalk(far)
  {
    var q := near + far;
    assert forall i :: 0 <= i < |near| ==> q[i] == near[i];
    assert forall i :: 0 <= i < |far| ==> q[|near| + i] == far[i];
  }

  // ---- The invariant -------------------------------------------------------

  ghost function ToReceiver(n: Net): seq<Msg> { n.v2r + n.s2v }

  ghost function ToSender(n: Net): seq<Msg> { n.v2s + n.r2v }

  // The sender is between attempts, or has not spoken in this one.
  predicate Fresh(pc: SenderPc) { pc.SWaitPeer? || pc.SStart? || pc.STransfer? }

  // It has said everything, or says no more.
  predicate SenderDone(pc: SenderPc) { pc.SReadCreds? || pc.SReadCands? || pc.SSetUp? || pc.SFailed? }

  // The receiver has heard the sender's share.
  predicate Spoken(pc: ReceiverPc) {
    pc.RReply? || pc.RConfirm? || pc.RAnswer? || pc.RPing? || pc.RPong? || pc.RCreds? || pc.RCands?
    || pc.RReadCreds? || pc.RReadCands? || pc.RSetUp?
  }

  predicate ReceiverDone(pc: ReceiverPc) { pc.RReadCreds? || pc.RReadCands? || pc.RSetUp? }

  ghost predicate Relays(q: seq<Msg>) {
    forall i :: 0 <= i < |q| ==> Talk(q[i]) && q[i] == Wire(q[i].kind, q[i].payload)
  }

  ghost predicate Asks(q: seq<Msg>) {
    forall i :: 0 <= i < |q| ==> q[i].kind.JoinSession? || (Talk(q[i]) && q[i] == Wire(q[i].kind, q[i].payload))
  }

  ghost predicate Answers(q: seq<Msg>) {
    forall i :: 0 <= i < |q| ==> q[i] == Ready || q[i].kind.Error? || Talk(q[i])
  }

  ghost predicate Kinds(n: Net) {
    Relays(n.s2v) && Asks(n.r2v) && Answers(n.v2s)
  }

  // Nobody has said anything for the sender to hear.
  ghost predicate Silent(n: Net) {
    NoTalk(ToSender(n)) && NoError(n.v2s) && !Spoken(n.rpc)
  }

  ghost predicate Outward(n: Net) {
    && Ordered(ToReceiver(n))
    && (HasLast(ToReceiver(n)) ==> SenderDone(n.spc))
    && (HasFirst(ToReceiver(n)) ==> n.spc.SExchange? && Silent(n) && OneTalk(ToReceiver(n)))
    && (Fresh(n.spc) ==> NoTalk(ToReceiver(n)) && Silent(n))
    && (n.rpc.RSetUp? ==> NoTalk(ToReceiver(n)) && SenderDone(n.spc))
    && (n.slot.Vacant? || n.slot.Leaving? ==> NoTalk(n.v2r))
  }

  // The only receiver that speaks in an attempt is the one that has heard the
  // share; and what it missed because the session expired it never gets.
  ghost predicate Inward(n: Net) {
    Spoken(n.rpc) ==>
      && (MidJoin(n) || n.slot.Paired?)
      && Ordered(ToSender(n))
      && (HasLast(ToSender(n)) ==> ReceiverDone(n.rpc))
      && (n.spc.SSetUp? ==> NoTalk(ToSender(n)) && ReceiverDone(n.rpc))
      && (NoError(n.v2s) || (!n.live && !HasLast(n.v2r) && !n.rpc.RSetUp?))
  }

  ghost predicate Clear(n: Net) {
    && ValidParams(n.sp) && ValidParams(n.rp)
    && Kinds(n) && Outward(n) && Inward(n)
  }

  // ---- Every step keeps it -------------------------------------------------

  lemma SenderSendsClear(r: Rules, n: Net)
    requires Clear(n) && Enabled(r, n, SenderSends)
    ensures Clear(Apply(r, n, SenderSends))
  {
    var m := SenderOut(n).value;
    assert n.spc.SCands? && n.spc.i < |n.sp.cands| ==> n.sp.cands[n.spc.i] in n.sp.cands;
    assert Last(m) ==> SenderDone(SenderAfterSend(n));
    assert First(m) ==> n.spc.SStart?;
    Say(n.v2r, n.s2v, m);
  }

  // A sender's script that reads one message may move so.
  ghost predicate SenderMoves(n: Net, n': Net) {
    && n.v2s != [] && n' == n.(v2s := n.v2s[1..], spc := n'.spc, sk := n'.sk, discarded := n'.discarded)
    && (Fresh(n'.spc) ==> Fresh(n.spc))
    && (SenderDone(n.spc) ==> SenderDone(n'.spc))
    && (n'.spc.SSetUp? ==> Last(n.v2s[0]))
    && (n.spc.SExchange? && !Talk(n.v2s[0]) && !n.v2s[0].kind.Error? ==> n'.spc.SExchange?)
  }

  lemma SenderMovesClear(n: Net, n': Net)
    requires Clear(n) && SenderMoves(n, n')
    ensures Clear(n')
  {
    Take(n.v2s, n.r2v);
    assert n.v2s[0] == ToSender(n)[0];
  }

  lemma SenderReadsClear(r: Rules, n: Net)
    requires Clear(n) && Enabled(r, n, SenderReads)
    ensures Clear(Apply(r, n, SenderReads))
  {
    SenderMovesClear(n, Apply(r, n, SenderReads));
  }

  lemma ReceiverSendsClear(r: Rules, n: Net)
    requires Clear(n) && Enabled(r, n, ReceiverSends)
    ensures Clear(Apply(r, n, ReceiverSends))
  {
    var m := ReceiverOut(n).value;
    if Spoken(n.rpc) {
      assert n.rpc.RCands? && n.rpc.i < |n.rp.cands| ==> n.rp.cands[n.rpc.i] in n.rp.cands;
      Say(n.v2s, n.r2v, m);
    } else {
      Append(n.v2s, n.r2v, m);
    }
  }

  ghost predicate ReceiverMoves(n: Net, n': Net) {
    && n.v2r != [] && n' == n.(v2r := n.v2r[1..], rpc := n'.rpc, rk := n'.rk, discarded := n'.discarded)
    && (n'.rpc.RSetUp? ==> Spoken(n.rpc) && Last(n.v2r[0]))
    && (Spoken(n'.rpc) && !Spoken(n.rpc) ==> First(n.v2r[0]))
    && (Spoken(n'.rpc) && ReceiverDone(n.rpc) ==> ReceiverDone(n'.rpc))
  }

  lemma ReceiverMovesClear(n: Net, n': Net)
    requires Clear(n) && ReceiverMoves(n, n')
    ensures Clear(n')
  {
    Take(n.v2r, n.s2v);
    Take(n.v2r, []);
    assert n.v2r + [] == n.v2r && n.v2r[1..] + [] == n.v2r[1..];
  }

  lemma ReceiverReadsClear(r: Rules, n: Net)
    requires Clear(n) && Enabled(r, n, ReceiverReads)
    ensures Clear(Apply(r, n, ReceiverReads))
  {
    ReceiverMovesClear(n, Apply(r, n, ReceiverReads));
  }

  lemma RelayedToReceiver(r: Rules, n: Net)
    requires Clear(n) && Enabled(r, n, ServeSender) && Connected(n)
    ensures Clear(Apply(r, n, ServeSender))
  {
    Hop(n.v2r, n.s2v);
  }

  lemma LostOnTheWay(r: Rules, n: Net)
    requires Clear(n) && Enabled(r, n, ServeSender) && !Connected(n)
    ensures Clear(Apply(r, n, ServeSender))
  {
    Drop(n.v2r, n.s2v);
    NoTalkInParts(n.v2r, n.s2v);
    Insert(n.v2s, n.r2v, ErrorMsg("relay: receiver not yet connected"));
  }

  lemma RelayedToSender(r: Rules, n: Net)
    requires Clear(n) && Enabled(r, n, ServeReceiver) && !n.r2v[0].kind.JoinSession? && n.live && n.slot.Paired?
    ensures Clear(Apply(r, n, ServeReceiver))
  {
    Hop(n.v2s, n.r2v);
  }

  lemma ReceiverHears(n: Net, m: Msg)
    requires Clear(n) && !Talk(m)
    ensures Clear(n.(v2r := n.v2r + [m]))
  {
    Insert(n.v2r, n.s2v, m);
    assert HasLast(n.v2r + [m]) ==> HasLast(n.v2r);
  }

  lemma SenderHears(n: Net)
    requires Clear(n)
    ensures Clear(n.(v2s := n.v2s + [Ready]))
  {
    Insert(n.v2s, n.r2v, Ready);
  }

  lemma ReceiverIsServed(n: Net)
    requires Clear(n) && n.r2v != []
    ensures Clear(n.(r2v := n.r2v[1..]))
  {
    Drop(n.v2s, n.r2v);
  }

  // The server answers the receiver itself, or nobody.
  lemma Answered(r: Rules, n: Net)
    requires Clear(n) && Enabled(r, n, ServeReceiver)
    requires n.r2v[0].kind.JoinSession? || !(n.live && n.slot.Paired?)
    ensures Clear(Apply(r, n, ServeReceiver))
  {
    ReceiverIsServed(n);
    var n1 := n.(r2v := n.r2v[1..]);
    ReceiverHears(n1, ErrorMsg("join_session: session not found or already joined"));
    ReceiverHears(n1, ErrorMsg("relay: connection not associated with any session"));
    if n.slot.Vacant? {
      assert Clear(n1.(slot := Slot.Attached));
    }
  }

  lemma NotifyClear(r: Rules, n: Net)
    requires Clear(n) && Enabled(r, n, Notify)
    ensures Clear(Apply(r, n, Notify))
  {
    var n1 := n.(slot := if n.slot.Attached? then ToldOne else Paired);
    assert Clear(n1);
    ReceiverHears(n1, Ready);
    SenderHears(n1);
  }

  lemma DepartClear(r: Rules, n: Net)
    requires Clear(n) && Enabled(r, n, Depart)
    ensures Clear(Apply(r, n, Depart))
  {
    Forget(n.v2r, n.s2v);
    NoTalkInParts(n.v2s, n.r2v);
    assert n.v2s + [] == n.v2s;
  }

  lemma EnterTransferClear(r: Rules, n: Net)
    requires Clear(n) && Enabled(r, n, EnterTransfer)
    ensures Clear(Apply(r, n, EnterTransfer))
  {
    var n' := Apply(r, n, EnterTransfer);
    assert ToReceiver(n') == ToReceiver(n) && ToSender(n') == ToSender(n);
  }

  lemma LoseClear(r: Rules, n: Net)
    requires Clear(n) && Enabled(r, n, Lose)
    ensures Clear(Apply(r, n, Lose))
  {
    Drop(n.v2r, n.s2v);
  }

  lemma OthersClear(r: Rules, n: Net, a: Action)
    requires Clear(n) && Enabled(r, n, a) && ValidAction(a)
    requires !Programmed(a) && !a.Depart? && !a.EnterTransfer? && !a.Lose?
    ensures Clear(Apply(r, n, a))
  {
    var n' := Apply(r, n, a);
    assert ToReceiver(n') == ToReceiver(n) && ToSender(n') == ToSender(n);
  }

  lemma StepClear(r: Rules, n: Net, a: Action)
    requires Clear(n) && ValidAction(a)
    ensures Clear(Step(r, n, a))
  {
    if Enabled(r, n, a) {
      match a
      case SenderSends => SenderSendsClear(r, n);
      case SenderReads => SenderReadsClear(r, n);
      case ReceiverSends => ReceiverSendsClear(r, n);
      case ReceiverReads => ReceiverReadsClear(r, n);
      case ServeSender => if Connected(n) { RelayedToReceiver(r, n); } else { LostOnTheWay(r, n); }
      case ServeReceiver =>
        if !n.r2v[0].kind.JoinSession? && n.live && n.slot.Paired? { RelayedToSender(r, n); } else { Answered(r, n); }
      case Notify => NotifyClear(r, n);
      case EnterTransfer => EnterTransferClear(r, n);
      case Depart => DepartClear(r, n);
      case Lose => LoseClear(r, n);
      case _ => OthersClear(r, n, a);
    }
  }

  lemma {:induction false} RunClear(r: Rules, code: string, p: Params, acts: seq<Action>)
    requires ValidParams(p) && ValidActions(acts)
    ensures Clear(Exec(r, Opened(code, p), acts))
    decreases |acts|
  {
    if acts == [] {
    } else {
      var front, a := acts[..|acts| - 1], acts[|acts| - 1];
      assert acts == front + [a] && a in acts;
      RunClear(r, code, p, front);
      StepClear(r, Exec(r, Opened(code, p), front), a);
    }
  }

  // Clean rejoin. Whatever the order of notifications, whoever left when and
  // whether the session has expired: while the sender waits for a peer, in
  // particular after looping back, nothing it said is still under way and its
  // queue holds nothing but session_ready messages.
  lemma RejoinIsClean(r: Rules, code: string, p: Params, acts: seq<Action>)
    requires ValidParams(p) && ValidActions(acts)
    ensures var n := Exec(r, Opened(code, p), acts);
      n.spc.SWaitPeer? ==>
        && n.s2v == []
        && (forall m :: m in n.v2s ==> m == Ready)
        && (forall m :: m in n.v2r || m in n.r2v ==> !Talk(m))
  {
    RunClear(r, code, p, acts);
    var n := Exec(r, Opened(code, p), acts);
    NoTalkInParts(n.v2r, n.s2v);
    NoTalkInParts(n.v2s, n.r2v);
    assert n.s2v != [] ==> Talk(n.s2v[0]);
  }
}
