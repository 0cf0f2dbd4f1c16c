// Pairing and ICE exchange between one sender and the receivers that come and
// go, through a relaying server (internal/client/signaling.go,
// internal/identity/ephemeral.go, internal/client/ice.go, internal/server/ws.go,
// order of phases from cmd/wani-client/main.go). Each side's script is a program
// counter; each WebSocket direction is a FIFO queue. Cryptography is symbolic:
// a derived key is the password and both shares, a MAC is its key and label, as
// in the key confirmation of section 4 of RFC 9382.
module PairingModel {
  import opened Options
  import opened Messages

  datatype Role = RoleSender | RoleReceiver

  datatype Blob =
    | Share(role: Role, password: string, nonce: nat)
    | Confirm(party: Role, key: Key)
    | Mac(macKey: Key, purpose: string)
    | Credentials(ufrag: string, pwd: string)
    | Candidate(text: string)

  datatype Key = Key(password: string, a: Blob, b: Blob)

  type Msg = Message<Blob>

  const PingLabel := "wani-ping"
  const PongLabel := "wani-pong"

  // What a client brings to one setup: fresh randomness and its ICE side.
  datatype Params = Params(nonce: nat, ufrag: string, pwd: string, cands: seq<string>)

  // Marshalled candidates are never empty; an empty payload is the sentinel.
  ghost predicate ValidParams(p: Params) {
    forall c :: c in p.cands ==> c != ""
  }

  // What a client has learnt in the current setup.
  datatype Known = Known(share: Option<Blob>, secret: Option<Key>, creds: Option<Blob>, cands: seq<string>)

  const Nothing := Known(None, None, None, [])

  datatype SenderPc =
    | SWaitPeer      // WaitForPeer
    | SStart         // runSender: send Start
    | SExchange      // recv server share
    | SFinish        // send confirmation
    | SVerify        // recv server confirmation
    | SPing          // PingPong: send ping
    | SPong          // recv pong
    | SCreds         // GatherAndConnect: send credentials
    | SCands(i: nat) // send candidate i, after the last one the sentinel
    | SReadCreds
    | SReadCands
    | SSetUp         // Dial, DialQUIC and SendManifest
    | STransfer      // SendFiles
    | SFailed        // runSend returned an error
    | SExit          // runSend returned nil

  datatype ReceiverPc =
    | RAbsent        // no receiver client
    | RJoin          // JoinSession: send join_session
    | RJoining       // recv session_ready
    | RClient        // runReceiver: recv client share
    | RReply         // send server share
    | RConfirm       // recv client confirmation
    | RAnswer        // send server confirmation
    | RPing          // WaitAndPong: recv ping
    | RPong          // send pong
    | RCreds
    | RCands(i: nat)
    | RReadCreds
    | RReadCands
    | RSetUp         // Accept, ListenQUIC and ReceiveManifest
    | RTransfer      // ReceiveFiles
    | RFailed

  // The session's receiver slot, and where handleJoinSession is.
  datatype Slot =
    | Vacant
    | Attached       // AddReceiver done, nobody told
    | ToldOne        // the first of the two session_ready sent
    | Paired         // both sent
    | Leaving        // the receiver is gone, its cleanup has not run

  datatype Net = Net(
    code: string,             // the session's code, the sender's password
    spc: SenderPc, sp: Params, sk: Known,
    rpc: ReceiverPc, rp: Params, rk: Known,
    rcode: string,            // the code the receiver was started with
    slot: Slot,
    live: bool,               // the store still holds the session
    s2v: seq<Msg>, v2s: seq<Msg>,     // sender to server, server to sender
    r2v: seq<Msg>, v2r: seq<Msg>,     // receiver to server, server to receiver
    discarded: seq<Msg>)              // history: what readUntil threw away

  // receiverFirst: the server notifies the receiver before the sender, as it
  // does. mayLeave: a receiver can vanish before its setup is complete.
  // mayExpire: the session can be evicted, five minutes after the last join.
  datatype Rules = Rules(receiverFirst: bool, mayLeave: bool, mayExpire: bool)

  // ---- Messages of the scripts --------------------------------------------

  function Wire(kind: Kind, payload: Option<Blob>): Msg {
    Message(kind, "", payload, "")
  }

  const Ready: Msg := Plain(SessionReady)
  const Sentinel: Msg := Wire(IceCandidate, None)

  function ErrorMsg(text: string): Msg { Message(Error, "", None, text) }

  function JoinMsg(code: string): Msg { Message(JoinSession, code, None, "") }

  function CandMsg(c: string): Msg { Wire(IceCandidate, Some(Candidate(c))) }

  function CredsMsg(p: Params): Msg { Wire(IceCredentials, Some(Credentials(p.ufrag, p.pwd))) }

  function SenderShare(n: Net): Blob { Share(RoleSender, n.code, n.sp.nonce) }

  function ReceiverShare(n: Net): Blob { Share(RoleReceiver, n.rcode, n.rp.nonce) }

  // The keys the two SPAKE2 objects derive from what they have seen.
  function SenderKey(n: Net): Key
    requires n.sk.share.Some?
  {
    Key(n.code, SenderShare(n), n.sk.share.value)
  }

  function ReceiverKey(n: Net): Key
    requires n.rk.share.Some?
  {
    Key(n.rcode, n.rk.share.value, ReceiverShare(n))
  }

  // ---- Sender script -------------------------------------------------------

  // The message the sender is about to send. SharedSecret panics while the
  // secret is unset: no message then.
  function SenderOut(n: Net): Option<Msg> {
    match n.spc
    case SStart => Some(Wire(Relay, Some(SenderShare(n))))
    case SFinish =>
      if n.sk.share.Some? then Some(Wire(Relay, Some(Confirm(RoleSender, SenderKey(n))))) else None
    case SPing =>
      if n.sk.secret.Some? then Some(Wire(Relay, Some(Mac(n.sk.secret.value, PingLabel)))) else None
    case SCreds => Some(CredsMsg(n.sp))
    case SCands(i) => Some(if i < |n.sp.cands| then CandMsg(n.sp.cands[i]) else Sentinel)
    case _ => None
  }

  function SenderAfterSend(n: Net): SenderPc {
    match n.spc
    case SStart => SExchange
    case SFinish => SVerify
    case SPing => SPong
    case SCreds => SCands(0)
    case SCands(i) => if i < |n.sp.cands| then SCands(i + 1) else SReadCreds
    case pc => pc
  }

  // The kind readUntil is waiting for.
  function SenderWants(pc: SenderPc): Option<Kind> {
    match pc
    case SWaitPeer => Some(SessionReady)
    case SExchange => Some(Relay)
    case SVerify => Some(Relay)
    case SPong => Some(Relay)
    case SReadCreds => Some(IceCredentials)
    case SReadCands => Some(IceCandidate)
    case _ => None
  }

  predicate EmptyPayload(p: Option<Blob>) {
    p.None? || (p.value.Candidate? && p.value.text == "")
  }

  // What the sender does with the message it waited for.
  function SenderTake(n: Net, m: Msg): Net {
    match n.spc
    case SWaitPeer => n.(spc := SStart, sk := Nothing)
    case SExchange =>
      if m.payload.Some? && m.payload.value.Share? && m.payload.value.role.RoleReceiver?
      then n.(spc := SFinish, sk := n.sk.(share := m.payload)) else n.(spc := SFailed)
    case SVerify =>
      if n.sk.share.Some? && m.payload == Some(Confirm(RoleReceiver, SenderKey(n)))
      then n.(spc := SPing, sk := n.sk.(secret := Some(SenderKey(n)))) else n.(spc := SFailed)
    case SPong =>
      if n.sk.secret.Some? && m.payload == Some(Mac(n.sk.secret.value, PongLabel))
      then n.(spc := SCreds) else n.(spc := SFailed)
    case SReadCreds =>
      if m.payload.Some? && m.payload.value.Credentials?
      then n.(spc := SReadCands, sk := n.sk.(creds := m.payload)) else n.(spc := SFailed)
    case SReadCands =>
      if EmptyPayload(m.payload) then n.(spc := SSetUp)
      else if m.payload.value.Candidate? then n.(sk := n.sk.(cands := n.sk.cands + [m.payload.value.text]))
      else n.(spc := SFailed)
    case _ => n
  }

  // ---- Receiver script -----------------------------------------------------

  function ReceiverOut(n: Net): Option<Msg> {
    match n.rpc
    case RJoin => Some(JoinMsg(n.rcode))
    case RReply => Some(Wire(Relay, Some(ReceiverShare(n))))
    case RAnswer =>
      if n.rk.share.Some? then Some(Wire(Relay, Some(Confirm(RoleReceiver, ReceiverKey(n))))) else None
    case RPong =>
      if n.rk.secret.Some? then Some(Wire(Relay, Some(Mac(n.rk.secret.value, PongLabel)))) else None
    case RCreds => Some(CredsMsg(n.rp))
    case RCands(i) => Some(if i < |n.rp.cands| then CandMsg(n.rp.cands[i]) else Sentinel)
    case _ => None
  }

  function ReceiverAfterSend(n: Net): (ReceiverPc, Known) {
    match n.rpc
    case RJoin => (RJoining, n.rk)
    case RReply => (RConfirm, n.rk)
    case RAnswer => (RPing, if n.rk.share.Some? then n.rk.(secret := Some(ReceiverKey(n))) else n.rk)
    case RPong => (RCreds, n.rk)
    case RCreds => (RCands(0), n.rk)
    case RCands(i) => (if i < |n.rp.cands| then RCands(i + 1) else RReadCreds, n.rk)
    case pc => (pc, n.rk)
  }

  function ReceiverWants(pc: ReceiverPc): Option<Kind> {
    match pc
    case RJoining => Some(SessionReady)
    case RClient => Some(Relay)
    case RConfirm => Some(Relay)
    case RPing => Some(Relay)
    case RReadCreds => Some(IceCredentials)
    case RReadCands => Some(IceCandidate)
    case _ => None
  }

  function ReceiverTake(n: Net, m: Msg): Net {
    match n.rpc
    case RJoining => n.(rpc := RClient)
    case RClient =>
      if m.payload.Some? && m.payload.value.Share? && m.payload.value.role.RoleSender?
      then n.(rpc := RReply, rk := n.rk.(share := m.payload)) else n.(rpc := RFailed)
    case RConfirm =>
      if n.rk.share.Some? && m.payload == Some(Confirm(RoleSender, ReceiverKey(n)))
      then n.(rpc := RAnswer) else n.(rpc := RFailed)
    case RPing =>
      if n.rk.secret.Some? && m.payload == Some(Mac(n.rk.secret.value, PingLabel))
      then n.(rpc := RPong) else n.(rpc := RFailed)
    case RReadCreds =>
      if m.payload.Some? && m.payload.value.Credentials?
      then n.(rpc := RReadCands, rk := n.rk.(creds := m.payload)) else n.(rpc := RFailed)
    case RReadCands =>
      if EmptyPayload(m.payload) then n.(rpc := RSetUp)
      else if m.payload.value.Candidate? then n.(rk := n.rk.(cands := n.rk.cands + [m.payload.value.text]))
      else n.(rpc := RFailed)
    case _ => n
  }

  // ---- Steps ---------------------------------------------------------------

  // The first seven are steps of the two clients and the server; the rest is
  // what receivers, users and the network decide.
  datatype Action =
    | SenderSends
    | SenderReads
    | ReceiverSends
    | ReceiverReads
    | ServeSender              // the server handles the sender's next message
    | ServeReceiver
    | Notify                   // the next session_ready of a join
    | EnterTransfer            // QUIC is up and the manifest answered
    | LoopBack(p: Params)      // the receiver is lost, the sender waits again
    | SenderReturns
    | Arrive(code: string, p: Params)
    | Depart
    | Detach                   // the server notices: DisconnectReceiver
    | Close                    // the sender is gone: Delete
    | Expire                   // evictExpired: Delete
    | Lose                     // a write to a receiver that is gone goes unnoticed

  predicate Programmed(a: Action) {
    a.SenderSends? || a.SenderReads? || a.ReceiverSends? || a.ReceiverReads?
    || a.ServeSender? || a.ServeReceiver? || a.Notify?
  }

  predicate MidJoin(n: Net) { n.slot.Attached? || n.slot.ToldOne? }

  // The sender's messages are relayed.
  predicate Connected(n: Net) { n.live && (MidJoin(n) || n.slot.Paired?) }

  predicate Enabled(r: Rules, n: Net, a: Action) {
    match a
    case SenderSends => SenderOut(n).Some?
    case SenderReads => SenderWants(n.spc).Some? && n.v2s != []
    case ReceiverSends => ReceiverOut(n).Some?
    case ReceiverReads => ReceiverWants(n.rpc).Some? && n.v2r != []
    case ServeSender => n.s2v != []
    case ServeReceiver => n.r2v != [] && !MidJoin(n)
    case Notify => MidJoin(n)
    case EnterTransfer => n.spc.SSetUp? && n.rpc.RSetUp?
    case LoopBack(p) => n.spc.STransfer?
    case SenderReturns => n.spc.STransfer?
    case Arrive(_, _) => n.rpc.RAbsent?
    case Depart => if r.mayLeave then !n.rpc.RAbsent? else n.rpc.RTransfer? || n.rpc.RFailed?
    case Detach => n.slot.Leaving?
    case Close => n.live && (n.spc.SExit? || n.spc.SFailed?)
    case Expire => n.live && r.mayExpire
    case Lose => n.s2v != [] && n.live && n.slot.Leaving?
  }

  function SenderRead(n: Net, m: Msg): Net
    requires n.v2s != []
  {
    var n1 := n.(v2s := n.v2s[1..]);
    if m.kind.Error? then n1.(spc := SFailed)
    else if SenderWants(n.spc) == Some(m.kind) then SenderTake(n1, m)
    else n1.(discarded := n.discarded + [m])
  }

  function ReceiverRead(n: Net, m: Msg): Net
    requires n.v2r != []
  {
    var n1 := n.(v2r := n.v2r[1..]);
    if m.kind.Error? then n1.(rpc := RFailed)
    else if ReceiverWants(n.rpc) == Some(m.kind) then ReceiverTake(n1, m)
    else n1.(discarded := n.discarded + [m])
  }

  // dispatch for the receiver's connection: a join takes the vacant slot of a
  // live session, anything else is relayed if the connection has a session.
  function Serve(n: Net, m: Msg): Net {
    if m.kind.JoinSession? then
      if m.code == n.code && n.live && n.slot.Vacant?
      then n.(slot := Attached)
      else n.(v2r := n.v2r + [ErrorMsg("join_session: session not found or already joined")])
    else if n.live && n.slot.Paired? then n.(v2s := n.v2s + [Wire(m.kind, m.payload)])
    else n.(v2r := n.v2r + [ErrorMsg("relay: connection not associated with any session")])
  }

  function Told(r: Rules, n: Net): Net
    requires MidJoin(n)
  {
    if r.receiverFirst == n.slot.Attached?
    then n.(v2r := n.v2r + [Ready], slot := if n.slot.Attached? then ToldOne else Paired)
    else n.(v2s := n.v2s + [Ready], slot := if n.slot.Attached? then ToldOne else Paired)
  }

  function Apply(r: Rules, n: Net, a: Action): Net
    requires Enabled(r, n, a)
  {
    match a
    case SenderSends => n.(s2v := n.s2v + [SenderOut(n).value], spc := SenderAfterSend(n))
    case SenderReads => SenderRead(n, n.v2s[0])
    case ReceiverSends =>
      n.(r2v := n.r2v + [ReceiverOut(n).value], rpc := ReceiverAfterSend(n).0, rk := ReceiverAfterSend(n).1)
    case ReceiverReads => ReceiverRead(n, n.v2r[0])
    case ServeSender =>
      var n1, m := n.(s2v := n.s2v[1..]), n.s2v[0];
      if Connected(n) then n1.(v2r := n.v2r + [Wire(m.kind, m.payload)])
      else n1.(v2s := n.v2s + [ErrorMsg("relay: receiver not yet connected")])
    case ServeReceiver => Serve(n.(r2v := n.r2v[1..]), n.r2v[0])
    case Notify => Told(r, n)
    case EnterTransfer => n.(spc := STransfer, rpc := RTransfer)
    case LoopBack(p) => n.(spc := SWaitPeer, sp := p)
    case SenderReturns => n.(spc := SExit)
    case Arrive(code, p) => n.(rpc := RJoin, rcode := code, rp := p, rk := Nothing)
    case Depart =>
      n.(rpc := RAbsent, r2v := [], v2r := [], slot := if n.slot.Vacant? then Vacant else Leaving)
    case Detach => n.(slot := Vacant)
    case Close => n.(live := false)
    case Expire => n.(live := false)
    case Lose => n.(s2v := n.s2v[1..])
  }

  function Step(r: Rules, n: Net, a: Action): Net {
    if Enabled(r, n, a) then Apply(r, n, a) else n
  }

  function Exec(r: Rules, n: Net, acts: seq<Action>): Net {
    if acts == [] then n else Step(r, Exec(r, n, acts[..|acts| - 1]), acts[|acts| - 1])
  }

  // The session has been created, nobody has joined.
  function Opened(code: string, p: Params): Net {
    Net(code, SWaitPeer, p, Nothing, RAbsent, p, Nothing, "", Vacant, true, [], [], [], [], [])
  }

  ghost predicate ValidAction(a: Action) {
    (a.LoopBack? ==> ValidParams(a.p)) && (a.Arrive? ==> ValidParams(a.p))
  }

  ghost predicate ValidActions(acts: seq<Action>) {
    forall a :: a in acts ==> ValidAction(a)
  }

  // States that some run reaches from a given one.
  ghost predicate Reaches(r: Rules, n: Net, n2: Net) {
    exists acts :: ValidActions(acts) && Exec(r, n, acts) == n2
  }

  lemma ReachesSelf(r: Rules, n: Net)
    ensures Reaches(r, n, n)
  {
    assert ValidActions([]) && Exec(r, n, []) == n;
  }

  // One step further, to a state spelled out.
  lemma ReachesStep(r: Rules, n: Net, n2: Net, a: Action, n3: Net)
    requires Reaches(r, n, n2) && ValidActions([a]) && Step(r, n2, a) == n3
    ensures Reaches(r, n, n3)
  {
    var acts :| ValidActions(acts) && Exec(r, n, acts) == n2;
    assert (acts + [a])[..|acts|] == acts;
    assert a in [a];
    assert ValidActions(acts + [a]);
    assert Exec(r, n, acts + [a]) == n3;
  }
}
