// What holds throughout every setup, when the server tells the receiver first
// and no receiver leaves before its setup is complete.
module PairingInvariant {
  import opened Options
  import opened Messages
  import opened PairingModel

  // ---- The whole conversation, written down in advance --------------------

  // What determines it: the code and what either side brings.
  datatype Chat = Chat(code: string, s: Params, r: Params)
  {
    function ShareS(): Blob { Share(RoleSender, code, s.nonce) }

    function ShareR(): Blob { Share(RoleReceiver, code, r.nonce) }

    // The key both sides should end up with.
    function K(): Key { Key(code, ShareS(), ShareR()) }
  }

  ghost function ChatOf(n: Net): Chat { Chat(n.code, n.sp, n.rp) }

  // What either side brings to a conversation.
  ghost predicate SenderIn(n: Net, c: Chat) { c.code == n.code && c.s == n.sp }

  ghost predicate ReceiverIn(n: Net, c: Chat) { c.code == n.rcode && c.r == n.rp }

  // What a side is to read in a setup, message by message.
  datatype Log = Log(share: Blob, confirm: Blob, mac: Blob, p: Params)
  {
    function Length(): nat { |p.cands| + 6 }

    // session_ready, share, confirmation, MAC, credentials, candidates, sentinel.
    function At(i: nat): Msg {
      if i == 0 then Ready
      else if i == 1 then Wire(Relay, Some(share))
      else if i == 2 then Wire(Relay, Some(confirm))
      else if i == 3 then Wire(Relay, Some(mac))
      else if i == 4 then CredsMsg(p)
      else if i - 5 < |p.cands| then CandMsg(p.cands[i - 5])
      else Sentinel
    }

    ghost function Messages(): seq<Msg> {
      seq(Length(), i requires 0 <= i < Length() => At(i))
    }
  }

  ghost function ForReceiver(c: Chat): Log {
    Log(c.ShareS(), Confirm(RoleSender, c.K()), Mac(c.K(), PingLabel), c.s)
  }

  ghost function ForSender(c: Chat): Log {
    Log(c.ShareR(), Confirm(RoleReceiver, c.K()), Mac(c.K(), PongLabel), c.r)
  }

  // How far along its own log a side is, in sending and in reading.
  function SenderSent(pc: SenderPc, c: Chat): nat {
    match pc
    case SExchange => 1
    case SFinish => 1
    case SVerify => 2
    case SPing => 2
    case SPong => 3
    case SCreds => 3
    case SCands(i) => 4 + i
    case SReadCreds => |c.s.cands| + 5
    case SReadCands => |c.s.cands| + 5
    case SSetUp => |c.s.cands| + 5
    case _ => 0
  }

  function SenderGot(pc: SenderPc, k: Known, c: Chat): nat {
    match pc
    case SStart => 1
    case SExchange => 1
    case SFinish => 2
    case SVerify => 2
    case SPing => 3
    case SPong => 3
    case SCreds => 4
    case SCands(i) => 4
    case SReadCreds => 4
    case SReadCands => 5 + |k.cands|
    case SSetUp => |c.r.cands| + 6
    case _ => 0
  }

  function ReceiverSent(pc: ReceiverPc, c: Chat): nat {
    match pc
    case RConfirm => 1
    case RAnswer => 1
    case RPing => 2
    case RPong => 2
    case RCreds => 3
    case RCands(i) => 4 + i
    case RReadCreds => |c.r.cands| + 5
    case RReadCands => |c.r.cands| + 5
    case RSetUp => |c.r.cands| + 5
    case _ => 0
  }

  function ReceiverGot(pc: ReceiverPc, k: Known, c: Chat): nat {
    match pc
    case RClient => 1
    case RReply => 2
    case RConfirm => 2
    case RAnswer => 3
    case RPing => 3
    case RPong => 4
    case RCreds => 4
    case RCands(i) => 4
    case RReadCreds => 4
    case RReadCands => 5 + |k.cands|
    case RSetUp => |c.s.cands| + 6
    case _ => 0
  }

  // What a side must have learnt by the time it has read `got` messages.
  ghost predicate Learnt(k: Known, got: nat, secretAt: nat, other: Blob, key: Key, p: Params) {
    && (got >= 2 ==> k.share == Some(other))
    && (got >= secretAt ==> k.secret == Some(key))
    && (got >= 5 ==> k.creds == Some(Credentials(p.ufrag, p.pwd)))
    && (got < 5 ==> k.cands == [])
    && (got >= 5 ==> k.cands <= p.cands)
    && (got == |p.cands| + 6 ==> k.cands == p.cands)
  }

  ghost predicate SenderKnows(pc: SenderPc, k: Known, c: Chat) {
    && !pc.SFailed?
    && (pc.SCands? ==> pc.i <= |c.s.cands|)
    && (pc.SReadCands? ==> |k.cands| <= |c.r.cands|)
    && (SenderGot(pc, k, c) > 0 ==> Learnt(k, SenderGot(pc, k, c), 3, c.ShareR(), c.K(), c.r))
  }

  ghost predicate ReceiverKnows(pc: ReceiverPc, k: Known, c: Chat) {
    && InSetup(pc)
    && (pc.RCands? ==> pc.i <= |c.r.cands|)
    && (pc.RReadCands? ==> |k.cands| <= |c.s.cands|)
    && Learnt(k, ReceiverGot(pc, k, c), 4, c.ShareS(), c.K(), c.s)
    && (pc.RPing? ==> k.secret == Some(c.K()))
  }

  predicate InSetup(pc: ReceiverPc) {
    !pc.RAbsent? && !pc.RJoin? && !pc.RTransfer? && !pc.RFailed?
  }

  predicate SenderInSetup(pc: SenderPc) {
    !pc.SWaitPeer? && !pc.STransfer? && !pc.SFailed? && !pc.SExit?
  }

  // How much of what a side is to read has left the other side: nothing before
  // its own session_ready.
  function ReceiverDue(slot: Slot, sent: nat): nat {
    if slot.ToldOne? || slot.Paired? then 1 + sent else 0
  }

  function SenderDue(slot: Slot, sent: nat): nat {
    if slot.Paired? then 1 + sent else 0
  }

  // One direction: second hop before first hop is exactly the part of the log
  // that is under way.
  ghost predicate UnderWay(log: Log, got: nat, due: nat, near: seq<Msg>, far: seq<Msg>) {
    && got <= due <= log.Length() && |near| + |far| == due - got
    && (forall k :: 0 <= k < |near| ==> near[k] == log.At(got + k))
    && (forall k :: 0 <= k < |far| ==> far[k] == log.At(got + |near| + k))
  }

  ghost predicate WireToReceiver(n: Net, c: Chat) {
    var sent := SenderSent(n.spc, c);
    UnderWay(ForReceiver(c), ReceiverGot(n.rpc, n.rk, c), ReceiverDue(n.slot, sent), n.v2r, n.s2v) && |n.s2v| <= sent
  }

  ghost predicate WireToSender(n: Net, c: Chat) {
    var sent := ReceiverSent(n.rpc, c);
    UnderWay(ForSender(c), SenderGot(n.spc, n.sk, c), SenderDue(n.slot, sent), n.v2s, n.r2v) && |n.r2v| <= sent
  }

  // A receiver holds the slot and its setup is not over.
  ghost predicate TalkingOn(n: Net, c: Chat) {
    && (MidJoin(n) || n.slot.Paired?)
    && c == ChatOf(n) && n.rcode == n.code
    && SenderKnows(n.spc, n.sk, c) && ReceiverKnows(n.rpc, n.rk, c)
    && WireToReceiver(n, c) && WireToSender(n, c)
  }

  ghost predicate Talking(n: Net) {
    TalkingOn(n, ChatOf(n))
  }

  // Nobody is being set up: the receiver is gone, is knocking, was turned away,
  // or is transferring.
  ghost predicate Quiet(n: Net) {
    && !MidJoin(n) && !SenderInSetup(n.spc) && !n.spc.SFailed?
    && n.s2v == [] && n.v2s == []
    && match n.rpc
       case RAbsent => n.r2v == [] && n.v2r == [] && !n.slot.Paired?
       case RJoin => n.r2v == [] && n.v2r == [] && n.rk == Nothing && !n.slot.Paired?
       case RJoining =>
         && n.rk == Nothing && !n.slot.Paired?
         && ((n.r2v == [JoinMsg(n.rcode)] && n.v2r == [])
             || (n.r2v == [] && |n.v2r| == 1 && n.v2r[0].kind == Error))
       case RFailed => n.r2v == [] && n.v2r == [] && !n.slot.Paired?
       case RTransfer => n.r2v == [] && n.v2r == [] && n.slot.Paired?
       case _ => false
  }

  ghost predicate Inv(n: Net) {
    && n.discarded == []
    && (n.live || n.spc.SExit?)
    && ValidParams(n.sp) && ValidParams(n.rp)
    && (Talking(n) || Quiet(n))
  }

  // ---- The logs, entry by entry -------------------------------------------

  // A script sends its log, one entry after the other.
  lemma SenderSaysLog(n: Net, c: Chat)
    requires SenderIn(n, c) && SenderKnows(n.spc, n.sk, c) && SenderOut(n).Some?
    ensures var sent := SenderSent(n.spc, c);
      && sent + 1 < ForReceiver(c).Length() && SenderOut(n).value == ForReceiver(c).At(sent + 1)
      && SenderSent(SenderAfterSend(n), c) == sent + 1
      && SenderGot(SenderAfterSend(n), n.sk, c) == SenderGot(n.spc, n.sk, c) > 0
      && SenderKnows(SenderAfterSend(n), n.sk, c)
  {
  }

  lemma ReceiverSaysLog(n: Net, c: Chat)
    requires ReceiverIn(n, c) && ReceiverKnows(n.rpc, n.rk, c) && ReceiverOut(n).Some?
    ensures var sent, (pc', k') := ReceiverSent(n.rpc, c), ReceiverAfterSend(n);
      && sent + 1 < ForSender(c).Length() && ReceiverOut(n).value == ForSender(c).At(sent + 1)
      && ReceiverSent(pc', c) == sent + 1
      && ReceiverGot(pc', k', c) == ReceiverGot(n.rpc, n.rk, c) > 0
      && ReceiverKnows(pc', k', c)
  {
  }

  // The message at hand is the one the script waits for, and taking it moves
  // the script one entry on.
  lemma SenderTakesLog(n: Net, c: Chat, m: Msg)
    requires SenderIn(n, c) && SenderKnows(n.spc, n.sk, c) && ValidParams(c.r) && SenderWants(n.spc).Some?
    requires SenderGot(n.spc, n.sk, c) < ForSender(c).Length() && m == ForSender(c).At(SenderGot(n.spc, n.sk, c))
    ensures SenderWants(n.spc) == Some(m.kind)
    ensures var n' := SenderTake(n, m);
      && n' == n.(spc := n'.spc, sk := n'.sk)
      && SenderGot(n'.spc, n'.sk, c) == SenderGot(n.spc, n.sk, c) + 1
      && SenderSent(n'.spc, c) == SenderSent(n.spc, c)
      && SenderKnows(n'.spc, n'.sk, c) && SenderInSetup(n'.spc)
  {
    if n.spc.SReadCands? {
      SenderTakesCandidate(n, c, m);
    }
  }

  lemma SenderTakesCandidate(n: Net, c: Chat, m: Msg)
    requires SenderKnows(n.spc, n.sk, c) && ValidParams(c.r) && n.spc.SReadCands?
    requires SenderGot(n.spc, n.sk, c) < ForSender(c).Length() && m == ForSender(c).At(SenderGot(n.spc, n.sk, c))
    ensures m.kind == IceCandidate
    ensures var n' := SenderTake(n, m);
      && n' == n.(spc := n'.spc, sk := n'.sk)
      && SenderGot(n'.spc, n'.sk, c) == SenderGot(n.spc, n.sk, c) + 1
      && SenderSent(n'.spc, c) == SenderSent(n.spc, c)
      && SenderKnows(n'.spc, n'.sk, c) && SenderInSetup(n'.spc)
  {
    if |n.sk.cands| < |c.r.cands| {
      assert c.r.cands[|n.sk.cands|] in c.r.cands;
    }
  }

  lemma ReceiverTakesLog(n: Net, c: Chat, m: Msg)
    requires ReceiverIn(n, c) && ReceiverKnows(n.rpc, n.rk, c) && ValidParams(c.s) && ReceiverWants(n.rpc).Some?
    requires ReceiverGot(n.rpc, n.rk, c) < ForReceiver(c).Length()
    requires m == ForReceiver(c).At(ReceiverGot(n.rpc, n.rk, c))
    ensures ReceiverWants(n.rpc) == Some(m.kind)
    ensures var n' := ReceiverTake(n, m);
      && n' == n.(rpc := n'.rpc, rk := n'.rk)
      && ReceiverGot(n'.rpc, n'.rk, c) == ReceiverGot(n.rpc, n.rk, c) + 1
      && ReceiverSent(n'.rpc, c) == ReceiverSent(n.rpc, c)
      && ReceiverKnows(n'.rpc, n'.rk, c)
  {
    if n.rpc.RReadCands? {
      ReceiverTakesCandidate(n, c, m);
    }
  }

  lemma ReceiverTakesCandidate(n: Net, c: Chat, m: Msg)
    requires ReceiverKnows(n.rpc, n.rk, c) && ValidParams(c.s) && n.rpc.RReadCands?
    requires ReceiverGot(n.rpc, n.rk, c) < ForReceiver(c).Length()
    requires m == ForReceiver(c).At(ReceiverGot(n.rpc, n.rk, c))
    ensures m.kind == IceCandidate
    ensures var n' := ReceiverTake(n, m);
      && n' == n.(rpc := n'.rpc, rk := n'.rk)
      && ReceiverGot(n'.rpc, n'.rk, c) == ReceiverGot(n.rpc, n.rk, c) + 1
      && ReceiverSent(n'.rpc, c) == ReceiverSent(n.rpc, c)
      && ReceiverKnows(n'.rpc, n'.rk, c)
  {
    if |n.rk.cands| < |c.s.cands| {
      assert c.s.cands[|n.rk.cands|] in c.s.cands;
    }
  }

  // ---- One direction of the wire ------------------------------------------

  lemma WireSend(log: Log, got: nat, due: nat, near: seq<Msg>, far: seq<Msg>)
    requires UnderWay(log, got, due, near, far) && due < log.Length()
    ensures UnderWay(log, got, due + 1, near, far + [log.At(due)])
  {
  }

  lemma WireRead(log: Log, got: nat, due: nat, near: seq<Msg>, far: seq<Msg>)
    requires UnderWay(log, got, due, near, far) && near != []
    ensures got < due && near[0] == log.At(got) && UnderWay(log, got + 1, due, near[1..], far)
  {
  }

  lemma WireHop(log: Log, got: nat, due: nat, near: seq<Msg>, far: seq<Msg>)
    requires UnderWay(log, got, due, near, far) && far != []
    ensures UnderWay(log, got, due, near + [far[0]], far[1..])
    ensures got < due && far[0] == log.At(got + |near|)
  {
  }

  // ---- The clients' steps --------------------------------------------------

  lemma SenderSendsKeeps(r: Rules, n: Net)
    requires Inv(n) && Enabled(r, n, SenderSends)
    ensures Inv(Apply(r, n, SenderSends))
  {
    var c := ChatOf(n);
    SenderSaysLog(n, c);
    WireSend(ForReceiver(c), ReceiverGot(n.rpc, n.rk, c), ReceiverDue(n.slot, SenderSent(n.spc, c)), n.v2r, n.s2v);
    SlotIsTold(n);
    assert TalkingOn(Apply(r, n, SenderSends), c);
  }

  // Whoever has got something was told that its peer is ready.
  lemma SlotIsTold(n: Net)
    requires Talking(n)
    ensures SenderGot(n.spc, n.sk, ChatOf(n)) > 0 ==> n.slot.Paired?
    ensures ReceiverGot(n.rpc, n.rk, ChatOf(n)) > 0 ==> !n.slot.Attached?
  {
  }

  lemma ReceiverSendsKeeps(r: Rules, n: Net)
    requires Inv(n) && Enabled(r, n, ReceiverSends)
    ensures Inv(Apply(r, n, ReceiverSends))
  {
    if !n.rpc.RJoin? {
      var c := ChatOf(n);
      ReceiverSaysLog(n, c);
      SlotIsTold(n);
      PairedOnceHeard(n);
      WireSend(ForSender(c), SenderGot(n.spc, n.sk, c), SenderDue(n.slot, ReceiverSent(n.rpc, c)), n.v2s, n.r2v);
      assert TalkingOn(Apply(r, n, ReceiverSends), c);
    }
  }

  // A receiver about to speak has heard the sender, who was told.
  lemma PairedOnceHeard(n: Net)
    requires Talking(n) && ReceiverGot(n.rpc, n.rk, ChatOf(n)) > 1
    ensures n.slot.Paired?
  {
  }

  lemma SenderReadsKeeps(r: Rules, n: Net)
    requires Inv(n) && Enabled(r, n, SenderReads)
    ensures Inv(Apply(r, n, SenderReads))
    ensures SenderWants(n.spc) == Some(n.v2s[0].kind)
  {
    var c := ChatOf(n);
    WireRead(ForSender(c), SenderGot(n.spc, n.sk, c), SenderDue(n.slot, ReceiverSent(n.rpc, c)), n.v2s, n.r2v);
    var n1 := n.(v2s := n.v2s[1..]);
    SenderTakesLog(n1, c, n.v2s[0]);
    var n2 := SenderTake(n1, n.v2s[0]);
    assert Apply(r, n, SenderReads) == n2;
    SenderMovesOn(n, n2, c);
  }

  // One entry read and nothing sent.
  lemma SenderMovesOn(n: Net, n': Net, c: Chat)
    requires Inv(n) && Talking(n) && c == ChatOf(n) && n.v2s != []
    requires n' == n.(spc := n'.spc, sk := n'.sk, v2s := n.v2s[1..])
    requires SenderGot(n'.spc, n'.sk, c) == SenderGot(n.spc, n.sk, c) + 1
    requires SenderSent(n'.spc, c) == SenderSent(n.spc, c)
    requires SenderKnows(n'.spc, n'.sk, c) && SenderInSetup(n'.spc) && n.live
    ensures Inv(n')
  {
    WireRead(ForSender(c), SenderGot(n.spc, n.sk, c), SenderDue(n.slot, ReceiverSent(n.rpc, c)), n.v2s, n.r2v);
    assert TalkingOn(n', c);
  }

  lemma ReceiverReadsKeeps(r: Rules, n: Net)
    requires Inv(n) && Enabled(r, n, ReceiverReads)
    ensures Inv(Apply(r, n, ReceiverReads))
    ensures n.v2r[0].kind.Error? || ReceiverWants(n.rpc) == Some(n.v2r[0].kind)
  {
    if Talking(n) {
      var c := ChatOf(n);
      WireRead(ForReceiver(c), ReceiverGot(n.rpc, n.rk, c), ReceiverDue(n.slot, SenderSent(n.spc, c)), n.v2r, n.s2v);
      var n1 := n.(v2r := n.v2r[1..]);
      ReceiverTakesLog(n1, c, n.v2r[0]);
      var n2 := ReceiverTake(n1, n.v2r[0]);
      assert Apply(r, n, ReceiverReads) == n2;
      ReceiverMovesOn(n, n2, c);
    }
  }

  lemma ReceiverMovesOn(n: Net, n': Net, c: Chat)
    requires Inv(n) && Talking(n) && c == ChatOf(n) && n.v2r != []
    requires n' == n.(rpc := n'.rpc, rk := n'.rk, v2r := n.v2r[1..])
    requires ReceiverGot(n'.rpc, n'.rk, c) == ReceiverGot(n.rpc, n.rk, c) + 1
    requires ReceiverSent(n'.rpc, c) == ReceiverSent(n.rpc, c)
    requires ReceiverKnows(n'.rpc, n'.rk, c)
    ensures Inv(n')
  {
    WireRead(ForReceiver(c), ReceiverGot(n.rpc, n.rk, c), ReceiverDue(n.slot, SenderSent(n.spc, c)), n.v2r, n.s2v);
    assert TalkingOn(n', c);
  }

  // ---- The server's steps --------------------------------------------------

  // Everything in the logs passes the relay unchanged.
  ghost predicate Relayable(m: Msg) {
    m == Wire(m.kind, m.payload) && !m.kind.JoinSession? && !m.kind.Error?
  }

  lemma LogIsRelayable(log: Log, i: nat)
    ensures Relayable(log.At(i))
  {
  }

  lemma ServeSenderKeeps(r: Rules, n: Net)
    requires Inv(n) && Enabled(r, n, ServeSender)
    ensures Inv(Apply(r, n, ServeSender))
  {
    SenderIsServed(r, n);
    SenderIsRelayed(n, ChatOf(n));
  }

  // What the server does with a message of the sender.
  lemma SenderIsServed(r: Rules, n: Net)
    requires Inv(n) && Enabled(r, n, ServeSender)
    ensures Talking(n) && Apply(r, n, ServeSender) == n.(s2v := n.s2v[1..], v2r := n.v2r + [n.s2v[0]])
  {
    var c := ChatOf(n);
    assert Talking(n) && SenderSent(n.spc, c) > 0 && Connected(n);
    WireHop(ForReceiver(c), ReceiverGot(n.rpc, n.rk, c), ReceiverDue(n.slot, SenderSent(n.spc, c)), n.v2r, n.s2v);
    LogIsRelayable(ForReceiver(c), ReceiverGot(n.rpc, n.rk, c) + |n.v2r|);
  }

  lemma SenderIsRelayed(n: Net, c: Chat)
    requires Inv(n) && Talking(n) && c == ChatOf(n) && n.s2v != []
    ensures Inv(n.(s2v := n.s2v[1..], v2r := n.v2r + [n.s2v[0]]))
  {
    WireHop(ForReceiver(c), ReceiverGot(n.rpc, n.rk, c), ReceiverDue(n.slot, SenderSent(n.spc, c)), n.v2r, n.s2v);
    assert TalkingOn(n.(s2v := n.s2v[1..], v2r := n.v2r + [n.s2v[0]]), c);
  }

  // A join takes the slot: the conversation starts, nothing said yet.
  lemma JoinStartsTalking(r: Rules, n: Net)
    requires Inv(n) && Quiet(n) && n.rpc.RJoining? && Enabled(r, n, ServeReceiver)
    ensures Inv(Apply(r, n, ServeReceiver))
  {
  }

  lemma ServeReceiverKeeps(r: Rules, n: Net)
    requires Inv(n) && Enabled(r, n, ServeReceiver)
    ensures Inv(Apply(r, n, ServeReceiver))
  {
    if Talking(n) {
      ReceiverIsServed(r, n);
      ReceiverIsRelayed(n, ChatOf(n));
    } else {
      JoinStartsTalking(r, n);
    }
  }

  // What the server does with a message of a receiver in its setup.
  lemma ReceiverIsServed(r: Rules, n: Net)
    requires Inv(n) && Talking(n) && Enabled(r, n, ServeReceiver)
    ensures Apply(r, n, ServeReceiver) == n.(r2v := n.r2v[1..], v2s := n.v2s + [n.r2v[0]])
  {
    ReceiverHasSpoken(n);
  }

  // Whoever speaks has heard the sender, so the sender is in its setup.
  lemma ReceiverHasSpoken(n: Net)
    requires Talking(n) && n.r2v != []
    ensures n.slot.Paired? && SenderInSetup(n.spc) && Relayable(n.r2v[0])
  {
    var c := ChatOf(n);
    if !SenderInSetup(n.spc) { NothingSaid(n); }
    WireHop(ForSender(c), SenderGot(n.spc, n.sk, c), SenderDue(n.slot, ReceiverSent(n.rpc, c)), n.v2s, n.r2v);
    LogIsRelayable(ForSender(c), SenderGot(n.spc, n.sk, c) + |n.v2s|);
    PairedOnceHeard(n);
  }

  lemma ReceiverIsRelayed(n: Net, c: Chat)
    requires Inv(n) && Talking(n) && c == ChatOf(n) && n.r2v != []
    ensures Inv(n.(r2v := n.r2v[1..], v2s := n.v2s + [n.r2v[0]]))
  {
    WireHop(ForSender(c), SenderGot(n.spc, n.sk, c), SenderDue(n.slot, ReceiverSent(n.rpc, c)), n.v2s, n.r2v);
    assert TalkingOn(n.(r2v := n.r2v[1..], v2s := n.v2s + [n.r2v[0]]), c);
  }

  // A sender outside setup has said nothing and was told at most that a peer is
  // ready; so the receiver has not spoken either.
  lemma NothingSaid(n: Net)
    requires Talking(n) && !SenderInSetup(n.spc)
    ensures n.rpc.RJoining? || n.rpc.RClient?
    ensures n.s2v == [] && n.r2v == []
    ensures n.v2s == if n.slot.Paired? then [Ready] else []
    ensures n.v2r == if n.rpc.RJoining? && !n.slot.Attached? then [Ready] else []
  {
  }

  // The server's two notifications, the receiver's first.
  lemma NotifyKeeps(r: Rules, n: Net)
    requires r.receiverFirst && Inv(n) && Enabled(r, n, Notify)
    ensures Inv(Apply(r, n, Notify))
  {
    var c := ChatOf(n);
    SlotIsTold(n);
    assert n.v2s + n.r2v == [] && SenderSent(n.spc, c) == 0 && n.s2v == [];
    assert n.slot.Attached? ==> n.v2r == [];
    assert TalkingOn(Apply(r, n, Notify), c);
  }

  // ---- Arrivals, departures, the sender's loop ----------------------------

  lemma EnterTransferKeeps(r: Rules, n: Net)
    requires Inv(n) && Enabled(r, n, EnterTransfer)
    ensures Inv(Apply(r, n, EnterTransfer))
    ensures n.s2v == [] && n.v2s == [] && n.r2v == [] && n.v2r == []
  {
    var c := ChatOf(n);
    SlotIsTold(n);
    assert n.v2r + n.s2v == [] && n.v2s + n.r2v == [];
    assert Quiet(Apply(r, n, EnterTransfer));
  }

  lemma LoopBackKeeps(r: Rules, n: Net, p: Params)
    requires Inv(n) && Enabled(r, n, LoopBack(p)) && ValidParams(p)
    ensures Inv(Apply(r, n, LoopBack(p)))
  {
    var n' := Apply(r, n, LoopBack(p));
    if Talking(n) {
      NothingSaid(n);
      NothingSaidAnew(n, p);
    } else {
      assert Quiet(n');
    }
  }

  // What the sender brings changes nothing as long as it has said nothing.
  lemma NothingSaidAnew(n: Net, p: Params)
    requires Talking(n) && n.spc.STransfer? && ValidParams(p)
    ensures Talking(n.(spc := SWaitPeer, sp := p))
  {
    NothingSaid(n);
    var c' := ChatOf(n.(sp := p));
  }

  lemma SenderReturnsKeeps(r: Rules, n: Net)
    requires Inv(n) && Enabled(r, n, SenderReturns)
    ensures Inv(Apply(r, n, SenderReturns))
  {
    if Talking(n) {
      StillElsewhere(n);
    } else {
      assert Quiet(Apply(r, n, SenderReturns));
    }
  }

  lemma StillElsewhere(n: Net)
    requires Talking(n) && n.spc.STransfer?
    ensures Talking(n.(spc := SExit))
  {
    var c, n' := ChatOf(n), n.(spc := SExit);
    assert SenderSent(n'.spc, c) == SenderSent(n.spc, c) && SenderGot(n'.spc, n.sk, c) == SenderGot(n.spc, n.sk, c);
    assert WireToReceiver(n', c) && WireToSender(n', c);
  }

  lemma ComingAndGoingKeeps(r: Rules, n: Net, a: Action)
    requires !r.mayLeave && Inv(n) && Enabled(r, n, a)
    requires a.Depart? || a.Detach? || a.Close? || a.Lose? || (a.Arrive? && ValidParams(a.p))
    ensures Inv(Apply(r, n, a))
  {
  }

  lemma ProgramKeeps(r: Rules, n: Net, a: Action)
    requires r.receiverFirst && Inv(n) && Programmed(a) && Enabled(r, n, a)
    ensures Inv(Apply(r, n, a))
  {
    match a
    case SenderSends => SenderSendsKeeps(r, n);
    case SenderReads => SenderReadsKeeps(r, n);
    case ReceiverSends => ReceiverSendsKeeps(r, n);
    case ReceiverReads => ReceiverReadsKeeps(r, n);
    case ServeSender => ServeSenderKeeps(r, n);
    case ServeReceiver => ServeReceiverKeeps(r, n);
    case Notify => NotifyKeeps(r, n);
  }

  lemma StepKeeps(r: Rules, n: Net, a: Action)
    requires r.receiverFirst && !r.mayLeave && Inv(n) && ValidAction(a)
    requires a.Expire? ==> !r.mayExpire
    ensures Inv(Step(r, n, a))
  {
    if Enabled(r, n, a) {
      if Programmed(a) {
        ProgramKeeps(r, n, a);
      } else {
        match a
        case EnterTransfer => EnterTransferKeeps(r, n);
        case LoopBack(p) => LoopBackKeeps(r, n, p);
        case SenderReturns => SenderReturnsKeeps(r, n);
        case Arrive(_, _) => ComingAndGoingKeeps(r, n, a);
        case Depart => ComingAndGoingKeeps(r, n, a);
        case Detach => ComingAndGoingKeeps(r, n, a);
        case Close => ComingAndGoingKeeps(r, n, a);
        case Lose => ComingAndGoingKeeps(r, n, a);
      }
    }
  }

  const Served := Rules(true, false, false)

  lemma {:induction false} RunKeeps(code: string, p: Params, acts: seq<Action>)
    requires ValidParams(p) && ValidActions(acts)
    ensures Inv(Exec(Served, Opened(code, p), acts))
    decreases |acts|
  {
    if acts == [] {
      assert Quiet(Opened(code, p));
    } else {
      var front, a := acts[..|acts| - 1], acts[|acts| - 1];
      assert acts == front + [a] && a in acts;
      RunKeeps(code, p, front);
      StepKeeps(Served, Exec(Served, Opened(code, p), front), a);
    }
  }
}
