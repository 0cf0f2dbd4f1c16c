// The client side of pairing as written: a connection whose reads consume
// messages, the SPAKE2 driver, and the two setup scripts
// (internal/client/signaling.go, internal/identity/ephemeral.go,
// internal/client/ice.go). `inbox` is everything that will still arrive before
// the connection ends; reading past it is the connection's error.
module SignalingClient {
  import opened Options
  import opened Messages
  import opened PairingModel
  import opened PairingInvariant
  import opened PairingScripts

  // EphemeralIdentity.
  class Identity {
    const role: Role
    const password: string
    const nonce: nat
    var secret: Option<Key>

    constructor (role: Role, password: string, nonce: nat)
      ensures this.role == role && this.password == password && this.nonce == nonce && secret == None
    {
      this.role, this.password, this.nonce, this.secret := role, password, nonce, None;
    }

    function OwnShare(): Blob {
      Share(role, password, nonce)
    }

    // SharedSecret panics while no exchange has succeeded.
    function SharedSecret(): Key
      requires secret.Some?
      reads this
    {
      secret.value
    }
  }

  class Connection {
    var inbox: seq<Msg>
    var outbox: seq<Msg>

    constructor (inbox: seq<Msg>)
      ensures this.inbox == inbox && outbox == []
    {
      this.inbox, this.outbox := inbox, [];
    }

    method Send(m: Msg)
      modifies this
      ensures outbox == old(outbox) + [m] && inbox == old(inbox)
    {
      outbox := outbox + [m];
    }

    static predicate Within(later: seq<Msg>, inbox: seq<Msg>) {
      forall m :: m in later ==> m in inbox
    }

    // The loop of readUntil: consumes up to and including the first message of
    // the wanted kind, or the first error, or everything.
    method ReadUntil(want: Kind) returns (r: Result<Msg>)
      requires want != Error
      modifies this`inbox
      ensures r.Ok? ==> r.value in old(inbox) && Within(inbox, old(inbox))
      ensures ReadOf(old(inbox), want).msg == if r.Ok? then Some(r.value) else None
      ensures ReadOf(old(inbox), want).rest == inbox
    {
      while inbox != []
        invariant ReadOf(old(inbox), want).msg == ReadOf(inbox, want).msg
        invariant ReadOf(old(inbox), want).rest == ReadOf(inbox, want).rest
        invariant Within(inbox, old(inbox))
        decreases |inbox|
      {
        var m := inbox[0];
        inbox := inbox[1..];
        if m.kind == Error {
          return Err(m.text);
        }
        if m.kind == want {
          return Ok(m);
        }
      }
      return Err("read failed");
    }

    // An empty code is an error.
    method CreateSession() returns (code: Option<string>)
      modifies this
      ensures outbox == old(outbox) + [Plain(Kind.CreateSession)]
      ensures code.Some? ==> code.value != ""
      ensures code.Some? ==> exists m :: m in old(inbox) && m.kind == SessionCreated && m.code == code.value
      ensures forall m :: [m] <= old(inbox) && m.kind == SessionCreated ==>
        inbox == old(inbox)[1..] && code == if m.code == "" then None else Some(m.code)
      ensures var g := ReadOf(old(inbox), SessionCreated);
        && inbox == g.rest
        && code == if g.msg.None? || g.msg.value.code == "" then None else Some(g.msg.value.code)
    {
      Send(Plain(Kind.CreateSession));
      var r := ReadUntil(SessionCreated);
      code := if r.Ok? && r.value.code != "" then Some(r.value.code) else None;
    }

    method JoinSession(code: string) returns (ok: bool)
      modifies this
      ensures outbox == old(outbox) + [JoinMsg(code)]
      ensures ok ==> Within(inbox, old(inbox))
      ensures [Ready] <= old(inbox) ==> ok && inbox == old(inbox)[1..]
      ensures ok <==> ReadOf(old(inbox), SessionReady).msg.Some?
      ensures inbox == ReadOf(old(inbox), SessionReady).rest
    {
      Send(JoinMsg(code));
      var r := ReadUntil(SessionReady);
      ok := r.Ok?;
    }

    method WaitForPeer() returns (ok: bool)
      modifies this
      ensures outbox == old(outbox)
      ensures ok ==> Within(inbox, old(inbox))
      ensures [Ready] <= old(inbox) ==> ok && inbox == old(inbox)[1..]
      ensures ok <==> ReadOf(old(inbox), SessionReady).msg.Some?
      ensures inbox == ReadOf(old(inbox), SessionReady).rest
    {
      var r := ReadUntil(SessionReady);
      ok := r.Ok?;
    }

    // What the connection holds is what the model's script has before it, and has
    // sent.
    ghost predicate SenderAt(n: Net, id: Identity)
      reads this, id
    {
      && n.v2s == inbox && n.s2v == outbox
      && n.sk.secret == id.secret && n.code == id.password && n.sp.nonce == id.nonce
    }

    ghost predicate ReceiverAt(n: Net, id: Identity)
      reads this, id
    {
      && n.v2r == inbox && n.r2v == outbox
      && n.rk.secret == id.secret && n.rcode == id.password && n.rp.nonce == id.nonce
    }

    // runSender. Success means the peer confirmed the very key now held. From n
    // the model's script gets to n', and on from there only if this succeeds.
    method ExchangeAsSender(id: Identity, ghost n: Net) returns (ok: bool, ghost n': Net)
      requires id.role == RoleSender && id.secret == None
      requires SenderAt(n, id) && n.spc.SStart? && n.sk == Nothing
      modifies this, id
      ensures ok <==> id.secret.Some?
      ensures ok ==> SaidIn(Confirm(RoleReceiver, id.secret.value), old(inbox))
      ensures ok ==> Within(inbox, old(inbox))
      ensures Offers(old(inbox), RoleReceiver) ==> var key := Key(id.password, id.OwnShare(), Offer(old(inbox)));
        old(inbox)[1] == Wire(Relay, Some(Confirm(RoleReceiver, key))) ==>
          ok && inbox == old(inbox)[2..] && id.secret == Some(key)
      ensures ok ==> outbox == old(outbox) + Pair(id.OwnShare(), Confirm(RoleSender, id.secret.value))
      ensures SenderFollows(n, n') && SenderAt(n', id)
      ensures if ok then n'.spc.SPing? && n'.sk == Known(n'.sk.share, id.secret, None, [])
              else SenderOver(n') && !n'.spc.SSetUp? && n'.sk.creds == None && n'.sk.cands == []
    {
      n' := SenderExchanges(n);
      Send(Wire(Relay, Some(id.OwnShare())));
      var r := ReadUntil(Relay);
      if r.Err? || r.value.payload.None? || !IsShare(r.value.payload.value, RoleReceiver) {
        return false, n';
      }
      var key := Key(id.password, id.OwnShare(), r.value.payload.value);
      Send(Wire(Relay, Some(Confirm(RoleSender, key))));
      r := ReadUntil(Relay);
      if r.Err? || r.value.payload != Some(Confirm(RoleReceiver, key)) {
        return false, n';
      }
      id.secret := Some(key);
      return true, n';
    }

    // runReceiver.
    method ExchangeAsReceiver(id: Identity, ghost n: Net) returns (ok: bool, ghost n': Net)
      requires id.role == RoleReceiver && id.secret == None
      requires ReceiverAt(n, id) && n.rpc.RClient? && n.rk == Nothing
      modifies this, id
      ensures ok <==> id.secret.Some?
      ensures ok ==> SaidIn(Confirm(RoleSender, id.secret.value), old(inbox))
      ensures ok ==> Within(inbox, old(inbox))
      ensures Offers(old(inbox), RoleSender) ==> var key := Key(id.password, Offer(old(inbox)), id.OwnShare());
        old(inbox)[1] == Wire(Relay, Some(Confirm(RoleSender, key))) ==>
          ok && inbox == old(inbox)[2..] && id.secret == Some(key)
      ensures ok ==> outbox == old(outbox) + Pair(id.OwnShare(), Confirm(RoleReceiver, id.secret.value))
      ensures ReceiverFollows(n, n') && ReceiverAt(n', id)
      ensures if ok then n'.rpc.RPing? && n'.rk == Known(n'.rk.share, id.secret, None, [])
              else ReceiverOver(n') && !n'.rpc.RSetUp? && n'.rk.creds == None && n'.rk.cands == []
    {
      n' := ReceiverExchanges(n);
      var r := ReadUntil(Relay);
      if r.Err? || r.value.payload.None? || !IsShare(r.value.payload.value, RoleSender) {
        return false, n';
      }
      var key := Key(id.password, r.value.payload.value, id.OwnShare());
      Send(Wire(Relay, Some(id.OwnShare())));
      r := ReadUntil(Relay);
      if r.Err? || r.value.payload != Some(Confirm(RoleSender, key)) {
        return false, n';
      }
      Send(Wire(Relay, Some(Confirm(RoleReceiver, key))));
      id.secret := Some(key);
      return true, n';
    }

    static function Pair(first: Blob, second: Blob): seq<Msg> {
      [Wire(Relay, Some(first)), Wire(Relay, Some(second))]
    }

    // A share of the other side is first in line, and something after it.
    static predicate Offers(inbox: seq<Msg>, role: Role) {
      |inbox| >= 2 && inbox[0].kind == Relay && inbox[0].payload.Some? && IsShare(inbox[0].payload.value, role)
    }

    static function Offer(inbox: seq<Msg>): Blob
      requires inbox != [] && inbox[0].payload.Some?
    {
      inbox[0].payload.value
    }

    // Some message carries this payload.
    static ghost predicate SaidIn(payload: Blob, inbox: seq<Msg>) {
      exists m :: m in inbox && m.payload == Some(payload)
    }

    static predicate Relayed(inbox: seq<Msg>, n: nat) {
      n <= |inbox| && forall i :: 0 <= i < n ==> inbox[i].kind == Relay
    }

    method PingPong(id: Identity, ghost n: Net) returns (ok: bool, ghost n': Net)
      requires id.secret.Some?
      requires SenderAt(n, id) && n.spc.SPing?
      modifies this
      ensures outbox == old(outbox) + [Wire(Relay, Some(Mac(id.SharedSecret(), PingLabel)))]
      ensures Relayed(old(inbox), 1) ==>
        && inbox == old(inbox)[1..]
        && (ok <==> old(inbox)[0].payload == Some(Mac(id.SharedSecret(), PongLabel)))
      ensures ok ==> SaidIn(Mac(id.SharedSecret(), PongLabel), old(inbox))
      ensures SenderFollows(n, n') && SenderAt(n', id) && n'.sk == n.sk
      ensures if ok then n'.spc.SCreds? else SenderOver(n') && !n'.spc.SSetUp?
    {
      var key := id.SharedSecret();
      n' := SenderSays(n, n);
      Send(Wire(Relay, Some(Mac(key, PingLabel))));
      n' := SenderListens(n, n', Relay);
      var r := ReadUntil(Relay);
      ok := r.Ok? && r.value.payload == Some(Mac(key, PongLabel));
    }

    method WaitAndPong(id: Identity, ghost n: Net) returns (ok: bool, ghost n': Net)
      requires id.secret.Some?
      requires ReceiverAt(n, id) && n.rpc.RPing?
      modifies this
      ensures outbox == old(outbox) + if ok then [Wire(Relay, Some(Mac(id.SharedSecret(), PongLabel)))] else []
      ensures Relayed(old(inbox), 1) ==>
        && inbox == old(inbox)[1..]
        && (ok <==> old(inbox)[0].payload == Some(Mac(id.SharedSecret(), PingLabel)))
      ensures ok ==> SaidIn(Mac(id.SharedSecret(), PingLabel), old(inbox))
      ensures ReceiverFollows(n, n') && ReceiverAt(n', id) && n'.rk == n.rk
      ensures if ok then n'.rpc.RCreds? else ReceiverOver(n') && !n'.rpc.RSetUp?
    {
      var key := id.SharedSecret();
      n' := ReceiverListens(n, n, Relay);
      var r := ReadUntil(Relay);
      if r.Err? || r.value.payload != Some(Mac(key, PingLabel)) {
        return false, n';
      }
      n' := ReceiverSays(n, n');
      Send(Wire(Relay, Some(Mac(key, PongLabel))));
      return true, n';
    }

    // The sending half of GatherAndConnect.
    method SendIce(p: Params)
      modifies this
      ensures inbox == old(inbox)
      ensures outbox == old(outbox) + IceLog(p)
    {
      Send(CredsMsg(p));
      for i := 0 to |p.cands|
        invariant inbox == old(inbox)
        invariant outbox == old(outbox) + [CredsMsg(p)] + CandLog(p.cands[..i])
      {
        Send(CandMsg(p.cands[i]));
        assert CandLog(p.cands[..i + 1]) == CandLog(p.cands[..i]) + [CandMsg(p.cands[i])];
      }
      assert p.cands[..|p.cands|] == p.cands;
      Send(Sentinel);
    }

    // The reading half: credentials, then candidates up to the sentinel.
    method ReadIce() returns (ok: bool, creds: Option<Blob>, cands: seq<string>)
      modifies this`inbox
      ensures ok ==> creds.Some? && creds.value.Credentials?
      ensures IceOf(old(inbox)) == Ice(ok, creds, cands, inbox)
    {
      ok, creds, cands := false, None, [];
      var r := ReadUntil(IceCredentials);
      if r.Err? || r.value.payload.None? || !r.value.payload.value.Credentials? {
        return false, creds, cands;
      }
      creds := r.value.payload;
      ok, cands := ReadCandidates(creds);
    }

    method ReadCandidates(ghost creds: Option<Blob>) returns (ok: bool, cands: seq<string>)
      modifies this`inbox
      ensures CandsOf(old(inbox), creds, []) == Ice(ok, creds, cands, inbox)
    {
      cands := [];
      while true
        invariant CandsOf(old(inbox), creds, []) == CandsOf(inbox, creds, cands)
        decreases |inbox|
      {
        var r := ReadUntil(IceCandidate);
        if r.Err? {
          return false, cands;
        }
        if EmptyPayload(r.value.payload) {
          return true, cands;
        }
        if !r.value.payload.value.Candidate? {
          return false, cands;
        }
        cands := cands + [r.value.payload.value.text];
      }
    }

    method GatherAndConnect(p: Params) returns (ok: bool, creds: Option<Blob>, cands: seq<string>)
      modifies this
      ensures outbox == old(outbox) + IceLog(p)
      ensures ok ==> creds.Some? && creds.value.Credentials?
      ensures IceOf(old(inbox)) == Ice(ok, creds, cands, inbox)
    {
      SendIce(p);
      ok, creds, cands := ReadIce();
    }

    // ---- The setup scripts of runSend and runReceive ------------------------

    // The model's script at its start, over what will arrive here.
    static function SenderBegins(id: Identity, p: Params, inbox: seq<Msg>, outbox: seq<Msg>): Net {
      Opened(id.password, p).(v2s := inbox, s2v := outbox)
    }

    static function ReceiverBegins(id: Identity, p: Params, inbox: seq<Msg>, outbox: seq<Msg>): Net {
      Opened(id.password, p).(rpc := RJoin, rcode := id.password, rp := p, v2r := inbox, r2v := outbox)
    }

    // What either side says in SPAKE2 and in the ping-pong.
    static function Handshake(share: Blob, confirm: Blob, mac: Blob): seq<Msg> {
      Pair(share, confirm) + [Wire(Relay, Some(mac))]
    }

    static ghost function SenderShakes(c: Chat): seq<Msg> {
      Handshake(c.ShareS(), Confirm(RoleSender, c.K()), Mac(c.K(), PingLabel))
    }

    static ghost function ReceiverShakes(c: Chat): seq<Msg> {
      Handshake(c.ShareR(), Confirm(RoleReceiver, c.K()), Mac(c.K(), PongLabel))
    }

    // ExchangeSPAKE2, then PingPong.
    method PairAsSender(id: Identity, ghost n: Net) returns (ok: bool, ghost n': Net)
      requires id.role == RoleSender && id.secret == None
      requires SenderAt(n, id) && n.spc.SStart? && n.sk == Nothing
      modifies this, id
      ensures ok ==> id.secret.Some? && SaidIn(Confirm(RoleReceiver, id.secret.value), old(inbox))
      ensures ok ==> SaidIn(Mac(id.secret.value, PongLabel), old(inbox))
      ensures SenderFollows(n, n') && SenderAt(n', id) && n'.sk.creds == None && n'.sk.cands == []
      ensures if ok then n'.spc.SCreds? else SenderOver(n') && !n'.spc.SSetUp?
    {
      ok, n' := ExchangeAsSender(id, n);
      if ok {
        ghost var n1 := n';
        ok, n' := PingPong(id, n1);
        SenderFollowsOn(n, n1, n');
      }
    }

    // ExchangeSPAKE2, then WaitAndPong.
    method PairAsReceiver(id: Identity, ghost n: Net) returns (ok: bool, ghost n': Net)
      requires id.role == RoleReceiver && id.secret == None
      requires ReceiverAt(n, id) && n.rpc.RClient? && n.rk == Nothing
      modifies this, id
      ensures ok ==> id.secret.Some? && SaidIn(Confirm(RoleSender, id.secret.value), old(inbox))
      ensures ok ==> SaidIn(Mac(id.secret.value, PingLabel), old(inbox))
      ensures ReceiverFollows(n, n') && ReceiverAt(n', id) && n'.rk.creds == None && n'.rk.cands == []
      ensures if ok then n'.rpc.RCreds? else ReceiverOver(n') && !n'.rpc.RSetUp?
    {
      ok, n' := ExchangeAsReceiver(id, n);
      if ok {
        ghost var n1 := n';
        ok, n' := WaitAndPong(id, n1);
        ReceiverFollowsOn(n, n1, n');
      }
    }

    // If what arrives begins with all that the peer of conversation c sends, the
    // script succeeds, takes exactly that much, and has sent what the peer needs.
    method SetUpSender(id: Identity, p: Params, ghost c: Chat)
        returns (ok: bool, creds: Option<Blob>, cands: seq<string>)
      requires id.role == RoleSender && id.secret == None
      requires id.password == c.code && id.nonce == c.s.nonce && p == c.s
      modifies this, id
      ensures ok ==> id.secret.Some? && SaidIn(Confirm(RoleReceiver, id.secret.value), old(inbox))
      ensures ok ==> SaidIn(Mac(id.secret.value, PongLabel), old(inbox))
      ensures var n := SenderAlone(SenderBegins(id, p, old(inbox), old(outbox)));
        && (ok <==> n.spc.SSetUp?)
        && inbox == n.v2s && outbox == n.s2v && id.secret == n.sk.secret
        && creds == n.sk.creds && cands == n.sk.cands
      ensures ValidParams(c.r) && ForSender(c).Messages() <= old(inbox) ==>
        && ok && inbox == old(inbox)[ForSender(c).Length()..]
        && outbox == old(outbox) + SenderShakes(c) + IceLog(c.s)
        && id.secret == Some(c.K())
        && creds == Some(Credentials(c.r.ufrag, c.r.pwd)) && cands == c.r.cands
    {
      creds, cands := None, [];
      ghost var n := SenderBegins(id, p, inbox, outbox);
      ghost var n' := SenderListens(n, n, SessionReady);
      ok := WaitForPeer();
      if ok {
        ghost var n1 := n';
        ok, n' := PairAsSender(id, n1);
        SenderFollowsOn(n, n1, n');
      }
      if ok {
        ghost var n1 := n';
        n' := SenderGathers(n1);
        SenderFollowsOn(n, n1, n');
        ok, creds, cands := GatherAndConnect(p);
      }
      SenderEnds(n, n');
      if ValidParams(c.r) && ForSender(c).Messages() <= old(inbox) {
        SenderTakesConversation(c, n);
      }
    }

    method SetUpReceiver(id: Identity, p: Params, ghost c: Chat)
        returns (ok: bool, creds: Option<Blob>, cands: seq<string>)
      requires id.role == RoleReceiver && id.secret == None
      requires id.password == c.code && id.nonce == c.r.nonce && p == c.r
      modifies this, id
      ensures ok ==> id.secret.Some? && SaidIn(Confirm(RoleSender, id.secret.value), old(inbox))
      ensures ok ==> SaidIn(Mac(id.secret.value, PingLabel), old(inbox))
      ensures var n := ReceiverAlone(ReceiverBegins(id, p, old(inbox), old(outbox)));
        && (ok <==> n.rpc.RSetUp?)
        && inbox == n.v2r && outbox == n.r2v && id.secret == n.rk.secret
        && creds == n.rk.creds && cands == n.rk.cands
      ensures ValidParams(c.s) && ForReceiver(c).Messages() <= old(inbox) ==>
        && ok && inbox == old(inbox)[ForReceiver(c).Length()..]
        && outbox == old(outbox) + [JoinMsg(c.code)] + ReceiverShakes(c) + IceLog(c.r)
        && id.secret == Some(c.K())
        && creds == Some(Credentials(c.s.ufrag, c.s.pwd)) && cands == c.s.cands
    {
      creds, cands := None, [];
      ghost var n := ReceiverBegins(id, p, inbox, outbox);
      ghost var n' := ReceiverSays(n, n);
      n' := ReceiverListens(n, n', SessionReady);
      ok := JoinSession(id.password);
      if ok {
        ghost var n1 := n';
        ok, n' := PairAsReceiver(id, n1);
        ReceiverFollowsOn(n, n1, n');
      }
      if ok {
        ghost var n1 := n';
        n' := ReceiverGathers(n1);
        ReceiverFollowsOn(n, n1, n');
        ok, creds, cands := GatherAndConnect(p);
      }
      ReceiverEnds(n, n');
      if ValidParams(c.s) && ForReceiver(c).Messages() <= old(inbox) {
        ReceiverTakesConversation(c, n);
      }
    }

    // What the scripts say is, after session_ready, what the relayed
    // conversation has each side read.
    static lemma ScriptsSayTheLogs(c: Chat)
      ensures ForReceiver(c).Messages() == [Ready] + (SenderShakes(c) + IceLog(c.s))
      ensures ForSender(c).Messages() == [Ready] + (ReceiverShakes(c) + IceLog(c.r))
    {
    }

    // The model's script over the peer's whole side of conversation c.
    static lemma SenderTakesConversation(c: Chat, n: Net)
      requires n.spc.SWaitPeer? && n.code == c.code && n.sp == c.s
      requires ValidParams(c.r) && ForSender(c).Messages() <= n.v2s
      ensures var n' := SenderAlone(n);
        && n'.spc.SSetUp? && n'.v2s == n.v2s[ForSender(c).Length()..]
        && n'.s2v == n.s2v + SenderShakes(c) + IceLog(c.s)
        && n'.sk.secret == Some(c.K())
        && n'.sk.creds == Some(Credentials(c.r.ufrag, c.r.pwd)) && n'.sk.cands == c.r.cands
    {
      ScriptsSayTheLogs(c);
      Turns(n.v2s, ReceiverShakes(c), c.r);
      var n1 := SenderListens(n, n, SessionReady);
      var n2 := SenderShakesHands(c, n1);
      SenderFollowsOn(n, n1, n2);
      IceOfLog(c.r, n2.v2s);
      var n3 := SenderGathers(n2);
      SenderFollowsOn(n, n2, n3);
      SenderEnds(n, n3);
    }

    static lemma SenderShakesHands(c: Chat, n: Net) returns (n': Net)
      requires n.spc.SStart? && n.sk == Nothing && n.code == c.code && n.sp == c.s
      requires ReceiverShakes(c) <= n.v2s
      ensures SenderFollows(n, n') && n'.spc.SCreds? && n'.v2s == n.v2s[3..] && n'.s2v == n.s2v + SenderShakes(c)
      ensures n'.sk.secret == Some(c.K()) && n'.sk.creds == None && n'.sk.cands == []
    {
      var q := n.v2s;
      assert q[0] == ReceiverShakes(c)[0] && q[1] == ReceiverShakes(c)[1] && q[2] == ReceiverShakes(c)[2];
      assert q[1..][0] == q[1] && q[1..][1..] == q[2..] && q[2..][0] == q[2] && q[2..][1..] == q[3..];
      var n1 := SenderExchanges(n);
      var n2 := SenderSays(n, n1);
      n' := SenderListens(n, n2, Relay);
    }

    static lemma ReceiverTakesConversation(c: Chat, n: Net)
      requires n.rpc.RJoin? && n.rcode == c.code && n.rp == c.r && n.rk == Nothing
      requires ValidParams(c.s) && ForReceiver(c).Messages() <= n.v2r
      ensures var n' := ReceiverAlone(n);
        && n'.rpc.RSetUp? && n'.v2r == n.v2r[ForReceiver(c).Length()..]
        && n'.r2v == n.r2v + [JoinMsg(c.code)] + ReceiverShakes(c) + IceLog(c.r)
        && n'.rk.secret == Some(c.K())
        && n'.rk.creds == Some(Credentials(c.s.ufrag, c.s.pwd)) && n'.rk.cands == c.s.cands
    {
      ScriptsSayTheLogs(c);
      Turns(n.v2r, SenderShakes(c), c.s);
      var n0 := ReceiverSays(n, n);
      var n1 := ReceiverListens(n, n0, SessionReady);
      var n2 := ReceiverShakesHands(c, n1);
      ReceiverFollowsOn(n, n1, n2);
      IceOfLog(c.s, n2.v2r);
      var n3 := ReceiverGathers(n2);
      ReceiverFollowsOn(n, n2, n3);
      ReceiverEnds(n, n3);
    }

    static lemma ReceiverShakesHands(c: Chat, n: Net) returns (n': Net)
      requires n.rpc.RClient? && n.rk == Nothing && n.rcode == c.code && n.rp == c.r
      requires SenderShakes(c) <= n.v2r
      ensures ReceiverFollows(n, n') && n'.rpc.RCreds? && n'.v2r == n.v2r[3..] && n'.r2v == n.r2v + ReceiverShakes(c)
      ensures n'.rk.secret == Some(c.K()) && n'.rk.creds == None && n'.rk.cands == []
    {
      var q := n.v2r;
      assert q[0] == SenderShakes(c)[0] && q[1] == SenderShakes(c)[1] && q[2] == SenderShakes(c)[2];
      assert q[1..][0] == q[1] && q[1..][1..] == q[2..] && q[2..][0] == q[2] && q[2..][1..] == q[3..];
      var n1 := ReceiverExchanges(n);
      var n2 := ReceiverListens(n, n1, Relay);
      n' := ReceiverSays(n, n2);
    }

    // A whole log from here on, cut where the scripts' calls cut it.
    static lemma Turns(inbox: seq<Msg>, shakes: seq<Msg>, p: Params)
      requires |shakes| == 3
      requires [Ready] + (shakes + IceLog(p)) <= inbox
      ensures [Ready] <= inbox && shakes <= inbox[1..] && IceLog(p) <= inbox[4..]
      ensures inbox[1..][3..] == inbox[4..]
      ensures inbox[4..][|p.cands| + 2..] == inbox[|p.cands| + 6..]
      ensures |p.cands| + 6 <= |inbox|
    {
    }
  }
}
