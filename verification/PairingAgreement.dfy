// What the key confirmation and the ping-pong are for. The relay between the two
// scripts is any relay at all: it loses, repeats, reorders and misroutes
// messages, and makes up others, passwords may differ. Only a confirmation or a
// MAC it cannot make: it can pass on those that were said, now or in earlier
// setups, by these scripts or by any others that run beside them (key
// confirmation as in section 4 of RFC 9382).
module PairingAgreement {
  import opened Options
  import opened PairingModel

  // The two scripts, whose queues play no part, everything ever said, and the
  // proofs that other scripts have said since these two began.
  datatype Wild = Wild(net: Net, said: set<Blob>, others: set<Blob>)

  datatype Move =
    | SenderSays
    | ReceiverSays
    | ToSender(m: Msg)
    | ToReceiver(m: Msg)
    | OtherSays(b: Blob)

  predicate Proof(b: Blob) { b.Confirm? || b.Mac? }

  function ProofKey(b: Blob): Key
    requires Proof(b)
  {
    if b.Confirm? then b.key else b.macKey
  }

  predicate SenderSide(b: Blob) {
    (b.Confirm? && b.party == RoleSender) || (b.Mac? && b.purpose == PingLabel)
  }

  predicate ReceiverSide(b: Blob) {
    (b.Confirm? && b.party == RoleReceiver) || (b.Mac? && b.purpose == PongLabel)
  }

  // What another script can say: it has drawn its own share, but may have been
  // given one of these two's as its peer's.
  predicate Elsewhere(n: Net, b: Blob)
    requires Proof(b)
  {
    && (SenderSide(b) ==> ProofKey(b).a != SenderShare(n))
    && (ReceiverSide(b) ==> ProofKey(b).b != ReceiverShare(n))
  }

  predicate Possible(w: Wild, m: Msg) {
    m.payload.Some? && Proof(m.payload.value) ==> m.payload.value in w.said
  }

  predicate CanMove(w: Wild, a: Move) {
    match a
    case SenderSays => SenderOut(w.net).Some?
    case ReceiverSays => ReceiverOut(w.net).Some?
    case ToSender(m) => SenderWants(w.net.spc).Some? && Possible(w, m)
    case ToReceiver(m) => ReceiverWants(w.net.rpc).Some? && Possible(w, m)
    case OtherSays(b) => Proof(b) && Elsewhere(w.net, b)
  }

  function Payload(m: Msg): set<Blob> {
    if m.payload.Some? then {m.payload.value} else {}
  }

  function Moved(w: Wild, a: Move): Wild
    requires CanMove(w, a)
  {
    match a
    case SenderSays =>
      w.(net := w.net.(spc := SenderAfterSend(w.net)), said := w.said + Payload(SenderOut(w.net).value))
    case ReceiverSays =>
      w.(net := w.net.(rpc := ReceiverAfterSend(w.net).0, rk := ReceiverAfterSend(w.net).1),
         said := w.said + Payload(ReceiverOut(w.net).value))
    case ToSender(m) => w.(net := SenderRead(w.net.(v2s := [m]), m))
    case ToReceiver(m) => w.(net := ReceiverRead(w.net.(v2r := [m]), m))
    case OtherSays(b) => w.(said := w.said + {b}, others := w.others + {b})
  }

  function Play(w: Wild, moves: seq<Move>): Wild {
    if moves == [] then w
    else
      var w1 := Play(w, moves[..|moves| - 1]);
      var a := moves[|moves| - 1];
      if CanMove(w1, a) then Moved(w1, a) else w1
  }

  // WaitForPeer and JoinSession have returned. Old proofs, said in earlier
  // setups, are about other shares: both sides have drawn theirs afresh.
  ghost predicate Begins(w: Wild) {
    && w.net.spc == SStart && w.net.sk == Nothing
    && w.net.rpc == RClient && w.net.rk == Nothing && w.others == {}
    && forall b :: b in w.said && Proof(b) ==> Old(w.net, b)
  }

  ghost predicate Old(n: Net, b: Blob)
    requires Proof(b)
  {
    ProofKey(b).a != SenderShare(n) && ProofKey(b).b != ReceiverShare(n)
  }

  // ---- Who can have said a proof ------------------------------------------

  // How far a script is.
  function SenderAt(pc: SenderPc): int {
    match pc
    case SStart => 0
    case SExchange => 1
    case SFinish => 2
    case SVerify => 3
    case SPing => 4
    case SPong => 5
    case SCreds => 6
    case SCands(i) => 6
    case SReadCreds => 6
    case SReadCands => 6
    case SSetUp => 6
    case _ => -1
  }

  function ReceiverAt(pc: ReceiverPc): int {
    match pc
    case RClient => 0
    case RReply => 1
    case RConfirm => 2
    case RAnswer => 3
    case RPing => 4
    case RPong => 5
    case RCreds => 6
    case RCands(i) => 6
    case RReadCreds => 6
    case RReadCands => 6
    case RSetUp => 6
    case _ => -1
  }

  // Each proof under a fresh share was said by one of the two scripts, under
  // that script's own key, or elsewhere.
  ghost predicate Said(n: Net, b: Blob)
    requires Proof(b)
  {
    match b
    case Confirm(RoleSender, k) => n.sk.share.Some? && k == SenderKey(n)
    case Confirm(RoleReceiver, k) => n.rk.share.Some? && k == ReceiverKey(n)
    case Mac(k, purpose) =>
      || (purpose == PingLabel && n.sk.secret == Some(k))
      || (purpose == PongLabel && n.rk.secret == Some(k))
  }

  ghost predicate AllSaid(w: Wild) {
    && (forall b :: b in w.said && Proof(b) ==> Old(w.net, b) || Said(w.net, b) || b in w.others)
    && (forall b :: b in w.others ==> Proof(b) && Elsewhere(w.net, b))
  }

  ghost predicate SenderHolds(n: Net) {
    && !n.spc.SWaitPeer?
    && (SenderAt(n.spc) >= 0 && n.sk.share.Some? ==> SenderAt(n.spc) >= 2)
    && (SenderAt(n.spc) >= 2 ==> n.sk.share.Some?)
    && (SenderAt(n.spc) >= 4 ==> n.sk.secret.Some?)
    && (n.sk.secret.Some? ==> n.sk.share.Some? && n.sk.secret.value == SenderKey(n))
  }

  ghost predicate ReceiverHolds(n: Net) {
    && !n.rpc.RJoin? && !n.rpc.RJoining?
    && (ReceiverAt(n.rpc) >= 0 && n.rk.share.Some? ==> ReceiverAt(n.rpc) >= 1)
    && (ReceiverAt(n.rpc) >= 1 ==> n.rk.share.Some?)
    && (ReceiverAt(n.rpc) >= 4 ==> n.rk.secret.Some?)
    && (n.rk.secret.Some? ==> n.rk.share.Some? && n.rk.secret.value == ReceiverKey(n))
  }

  ghost predicate SameKey(n: Net) {
    n.sk.share.Some? && n.rk.share.Some? && SenderKey(n) == ReceiverKey(n)
  }

  // What each check has established once it is passed: the peer is the other of
  // the two, or some script elsewhere.
  ghost predicate Checked(n: Net, others: set<Blob>) {
    && (n.sk.secret.Some? ==> SameKey(n) || Confirm(RoleReceiver, n.sk.secret.value) in others)
    && (n.rk.secret.Some? || ReceiverAt(n.rpc) >= 3 ==>
        n.rk.share.Some? && (SameKey(n) || Confirm(RoleSender, ReceiverKey(n)) in others))
    && (SenderAt(n.spc) >= 6 ==>
        n.sk.secret.Some? && (n.rk.secret == n.sk.secret || Mac(n.sk.secret.value, PongLabel) in others))
    && (ReceiverAt(n.rpc) >= 5 ==>
        n.rk.secret.Some? && (n.sk.secret == n.rk.secret || Mac(n.rk.secret.value, PingLabel) in others))
  }

  ghost predicate Sound(w: Wild) {
    AllSaid(w) && SenderHolds(w.net) && ReceiverHolds(w.net) && Checked(w.net, w.others)
  }

  // The checks at their point: an accepted proof was said under the other
  // script's key, so the keys are one, or it was said elsewhere.
  lemma SenderChecks(w: Wild, m: Msg)
    requires Sound(w) && CanMove(w, ToSender(m)) && m.payload.Some? && w.net.sk.share.Some?
    ensures m.payload.value == Confirm(RoleReceiver, SenderKey(w.net)) ==>
      SameKey(w.net) || m.payload.value in w.others
    ensures w.net.sk.secret.Some? && m.payload.value == Mac(w.net.sk.secret.value, PongLabel) ==>
      w.net.rk.secret == w.net.sk.secret || m.payload.value in w.others
  {
    LabelsDiffer();
  }

  lemma ReceiverChecks(w: Wild, m: Msg)
    requires Sound(w) && CanMove(w, ToReceiver(m)) && m.payload.Some? && w.net.rk.share.Some?
    ensures m.payload.value == Confirm(RoleSender, ReceiverKey(w.net)) ==>
      SameKey(w.net) || m.payload.value in w.others
    ensures w.net.rk.secret.Some? && m.payload.value == Mac(w.net.rk.secret.value, PingLabel) ==>
      w.net.sk.secret == w.net.rk.secret || m.payload.value in w.others
  {
    LabelsDiffer();
  }

  lemma LabelsDiffer()
    ensures PingLabel != PongLabel
  {
    assert PingLabel[6] != PongLabel[6];
  }

  lemma SenderSaysSound(w: Wild)
    requires Sound(w) && CanMove(w, SenderSays)
    ensures Sound(Moved(w, SenderSays))
  {
    var w' := Moved(w, SenderSays);
    assert w'.net.sk == w.net.sk;
  }

  lemma ReceiverSaysSound(w: Wild)
    requires Sound(w) && CanMove(w, ReceiverSays)
    ensures Sound(Moved(w, ReceiverSays))
  {
  }

  // What is said keeps its author, as long as the keys stay.
  lemma AuthorsStay(w: Wild, n': Net)
    requires AllSaid(w)
    requires SenderShare(n') == SenderShare(w.net) && ReceiverShare(n') == ReceiverShare(w.net)
    requires w.net.sk.share.Some? ==> n'.sk.share == w.net.sk.share && SenderKey(n') == SenderKey(w.net)
    requires w.net.rk.share.Some? ==> n'.rk.share == w.net.rk.share && ReceiverKey(n') == ReceiverKey(w.net)
    requires w.net.sk.secret.Some? ==> n'.sk.secret == w.net.sk.secret
    requires w.net.rk.secret.Some? ==> n'.rk.secret == w.net.rk.secret
    ensures AllSaid(w.(net := n'))
  {
    forall b | b in w.said && Proof(b) ensures Old(n', b) || Said(n', b) || b in w.others {
      assert Old(w.net, b) || Said(w.net, b) || b in w.others;
    }
  }

  lemma OnlySenderMoves(w: Wild, m: Msg)
    requires SenderHolds(w.net) && CanMove(w, ToSender(m))
    ensures var n, n' := w.net, Moved(w, ToSender(m)).net;
      && n' == n.(spc := n'.spc, sk := n'.sk, v2s := [], discarded := n'.discarded)
  {
  }

  lemma ToSenderHolds(w: Wild, m: Msg)
    requires SenderHolds(w.net) && CanMove(w, ToSender(m))
    ensures SenderHolds(Moved(w, ToSender(m)).net)
  {
  }

  // What the script has compared when it moves on.
  ghost predicate SenderPasses(n: Net, n': Net, m: Msg) {
    && (n'.sk.secret.Some? && n.sk.secret.None? ==>
        n.sk.share.Some? && m.payload == Some(Confirm(RoleReceiver, SenderKey(n))))
    && (SenderAt(n'.spc) >= 6 && SenderAt(n.spc) < 6 ==>
        n.sk.secret.Some? && m.payload == Some(Mac(n.sk.secret.value, PongLabel)))
    && (n.sk.share.Some? ==> n'.sk.share == n.sk.share)
    && (n.sk.secret.Some? ==> n'.sk.secret == n.sk.secret)
  }

  lemma SenderCompares(w: Wild, m: Msg)
    requires SenderHolds(w.net) && CanMove(w, ToSender(m))
    ensures SenderPasses(w.net, Moved(w, ToSender(m)).net, m)
  {
  }

  lemma SenderPassesChecked(w: Wild, m: Msg, n': Net)
    requires Sound(w) && CanMove(w, ToSender(m))
    requires n' == w.net.(spc := n'.spc, sk := n'.sk, v2s := [], discarded := n'.discarded)
    requires SenderHolds(n') && SenderPasses(w.net, n', m)
    ensures Checked(n', w.others)
  {
    if m.payload.Some? && w.net.sk.share.Some? {
      SenderChecks(w, m);
    }
  }

  lemma ToSenderSound(w: Wild, m: Msg)
    requires Sound(w) && CanMove(w, ToSender(m))
    ensures Sound(Moved(w, ToSender(m)))
  {
    OnlySenderMoves(w, m);
    ToSenderHolds(w, m);
    SenderCompares(w, m);
    SenderPassesChecked(w, m, Moved(w, ToSender(m)).net);
    AuthorsStay(w, Moved(w, ToSender(m)).net);
  }

  lemma OnlyReceiverMoves(w: Wild, m: Msg)
    requires ReceiverHolds(w.net) && CanMove(w, ToReceiver(m))
    ensures var n, n' := w.net, Moved(w, ToReceiver(m)).net;
      && n' == n.(rpc := n'.rpc, rk := n'.rk, v2r := [], discarded := n'.discarded)
  {
  }

  lemma ToReceiverHolds(w: Wild, m: Msg)
    requires ReceiverHolds(w.net) && CanMove(w, ToReceiver(m))
    ensures ReceiverHolds(Moved(w, ToReceiver(m)).net)
  {
  }

  // What the script has compared when it moves on.
  ghost predicate ReceiverPasses(n: Net, n': Net, m: Msg) {
    && n'.rk.secret == n.rk.secret
    && (ReceiverAt(n'.rpc) >= 3 && ReceiverAt(n.rpc) < 3 ==>
        n.rk.share.Some? && m.payload == Some(Confirm(RoleSender, ReceiverKey(n))))
    && (ReceiverAt(n'.rpc) >= 5 && ReceiverAt(n.rpc) < 5 ==>
        n.rk.secret.Some? && m.payload == Some(Mac(n.rk.secret.value, PingLabel)))
    && (n.rk.share.Some? ==> n'.rk.share == n.rk.share)
  }

  lemma ReceiverCompares(w: Wild, m: Msg)
    requires ReceiverHolds(w.net) && CanMove(w, ToReceiver(m))
    ensures ReceiverPasses(w.net, Moved(w, ToReceiver(m)).net, m)
  {
  }

  lemma ReceiverPassesChecked(w: Wild, m: Msg, n': Net)
    requires Sound(w) && CanMove(w, ToReceiver(m))
    requires n' == w.net.(rpc := n'.rpc, rk := n'.rk, v2r := [], discarded := n'.discarded)
    requires ReceiverHolds(n') && ReceiverPasses(w.net, n', m)
    ensures Checked(n', w.others)
  {
    if m.payload.Some? && w.net.rk.share.Some? {
      ReceiverChecks(w, m);
    }
  }

  lemma ToReceiverSound(w: Wild, m: Msg)
    requires Sound(w) && CanMove(w, ToReceiver(m))
    ensures Sound(Moved(w, ToReceiver(m)))
  {
    OnlyReceiverMoves(w, m);
    ToReceiverHolds(w, m);
    ReceiverCompares(w, m);
    ReceiverPassesChecked(w, m, Moved(w, ToReceiver(m)).net);
    AuthorsStay(w, Moved(w, ToReceiver(m)).net);
  }

  lemma OtherSaysSound(w: Wild, b: Blob)
    requires Sound(w) && CanMove(w, OtherSays(b))
    ensures Sound(Moved(w, OtherSays(b)))
  {
  }

  lemma {:induction false} PlaySound(w: Wild, moves: seq<Move>)
    requires Begins(w)
    ensures Sound(Play(w, moves))
    decreases |moves|
  {
    if moves == [] {
    } else {
      PlaySound(w, moves[..|moves| - 1]);
      var w1, a := Play(w, moves[..|moves| - 1]), moves[|moves| - 1];
      if CanMove(w1, a) {
        match a
        case SenderSays => SenderSaysSound(w1);
        case ReceiverSays => ReceiverSaysSound(w1);
        case ToSender(m) => ToSenderSound(w1, m);
        case ToReceiver(m) => ToReceiverSound(w1, m);
        case OtherSays(b) => OtherSaysSound(w1, b);
      }
    }
  }

  // ---- Agreement -----------------------------------------------------------

  ghost predicate Paired(n: Net) {
    && n.sk.secret.Some? && n.sk.secret == n.rk.secret
    && n.rcode == n.code
    && n.sk.share == Some(ReceiverShare(n)) && n.rk.share == Some(SenderShare(n))
  }

  ghost predicate HeldElsewhere(w: Wild, secret: Option<Key>, role: Role, purpose: string) {
    secret.Some? && Confirm(role, secret.value) in w.others && Mac(secret.value, purpose) in w.others
  }

  // As soon as PingPong has returned nil or WaitAndPong has accepted the ping,
  // the peer holds the same secret: it is the other of the two, and then password
  // and shares are those of this very setup, or it is a script elsewhere that has
  // said confirmation and MAC under this very secret.
  lemma NilMeansSharedSecret(w: Wild, moves: seq<Move>)
    requires Begins(w)
    ensures var w' := Play(w, moves);
      var n := w'.net;
      && (SenderAt(n.spc) >= 6 ==> Paired(n) || HeldElsewhere(w', n.sk.secret, RoleReceiver, PongLabel))
      && (ReceiverAt(n.rpc) >= 5 ==> Paired(n) || HeldElsewhere(w', n.rk.secret, RoleSender, PingLabel))
  {
    PlaySound(w, moves);
    var w' := Play(w, moves);
    if SenderAt(w'.net.spc) >= 6 { SenderPairs(w'); }
    if ReceiverAt(w'.net.rpc) >= 5 { ReceiverPairs(w'); }
  }

  lemma SenderPairs(w: Wild)
    requires Sound(w) && SenderAt(w.net.spc) >= 6
    ensures Paired(w.net) || HeldElsewhere(w, w.net.sk.secret, RoleReceiver, PongLabel)
  {
  }

  lemma ReceiverPairs(w: Wild)
    requires Sound(w) && ReceiverAt(w.net.rpc) >= 5
    ensures Paired(w.net) || HeldElsewhere(w, w.net.rk.secret, RoleSender, PingLabel)
  {
  }

  lemma {:induction false} NobodyElse(w: Wild, moves: seq<Move>)
    requires w.others == {} && forall a :: a in moves ==> !a.OtherSays?
    ensures Play(w, moves).others == {}
    decreases |moves|
  {
    if moves == [] {
    } else {
      NobodyElse(w, moves[..|moves| - 1]);
      assert moves[|moves| - 1] in moves;
    }
  }

  // With nobody else about, either nil means that the two are paired.
  lemma EitherNilMeansPaired(w: Wild, moves: seq<Move>)
    requires Begins(w) && forall a :: a in moves ==> !a.OtherSays?
    ensures var n := Play(w, moves).net;
      SenderAt(n.spc) >= 6 || ReceiverAt(n.rpc) >= 5 ==> Paired(n)
  {
    NilMeansSharedSecret(w, moves);
    NobodyElse(w, moves);
  }

  // Where SharedSecret is called, the secret is set: in PingPong and
  // WaitAndPong, and for QUIC once the ICE exchange is over.
  lemma SecretIsSetWhereUsed(w: Wild, moves: seq<Move>)
    requires Begins(w)
    ensures var n := Play(w, moves).net;
      && (n.spc.SPing? || n.spc.SPong? || n.spc.SSetUp? ==> n.sk.secret.Some?)
      && (n.rpc.RPing? || n.rpc.RPong? || n.rpc.RSetUp? ==> n.rk.secret.Some?)
  {
    PlaySound(w, moves);
  }
}
