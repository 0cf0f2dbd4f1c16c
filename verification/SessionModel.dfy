// The signaling server's session index as values: what each lock-held section
// of internal/server/sessions.go does to the three maps, and the server as a
// machine of such sections (internal/server/ws.go).
module SessionModel {
  import opened Options

  type Conn = nat
  type Code = string

  // Seconds.
  const SessionTtl := 5 * 60
  const CleanupInterval := 1 * 60
  const ReconnectTtl := 15 * 60

  datatype Side = SideUnknown | SideSender | SideReceiver

  datatype Sess = Sess(sender: Conn, receiver: Option<Conn>, gone: bool, expiresAt: int)

  datatype Store = Store(sessions: map<Code, Sess>, codeOf: map<Conn, Code>, sideOf: map<Conn, Side>)

  const EmptyStore := Store(map[], map[], map[])

  // ---- The lock-held sections ---------------------------------------------

  function CreateSender(st: Store, code: Code, conn: Conn, now: int): Store {
    Store(st.sessions[code := Sess(conn, None, false, now + SessionTtl)],
          st.codeOf[conn := code],
          st.sideOf[conn := SideSender])
  }

  // A session accepts a receiver unless a live one is attached.
  predicate Joinable(st: Store, code: Code) {
    code in st.sessions && (st.sessions[code].receiver.None? || st.sessions[code].gone)
  }

  function Unmap(st: Store, conn: Option<Conn>): Store {
    if conn.Some? then st.(codeOf := st.codeOf - {conn.value}, sideOf := st.sideOf - {conn.value}) else st
  }

  // The receiver side of a session passes from whoever held it to conn.
  function Attach(st: Store, code: Code, conn: Conn, now: int): Store
    requires code in st.sessions
  {
    var s := st.sessions[code];
    var st1 := Unmap(st, s.receiver);
    st1.(sessions := st1.sessions[code := s.(receiver := Some(conn), gone := false, expiresAt := now + SessionTtl)])
  }

  function AddReceiver(st: Store, code: Code, conn: Conn, now: int): Store {
    if !Joinable(st, code) then st
    else
      var st1 := Attach(st, code, conn, now);
      st1.(codeOf := st1.codeOf[conn := code], sideOf := st1.sideOf[conn := SideReceiver])
  }

  datatype Found = Missing | Hit(code: Code, session: Option<Sess>, side: Side)

  function Lookup(st: Store, conn: Conn): Found {
    if conn !in st.codeOf then Missing
    else
      var code := st.codeOf[conn];
      Hit(code,
          if code in st.sessions then Some(st.sessions[code]) else None,
          if conn in st.sideOf then st.sideOf[conn] else SideUnknown)
  }

  function DisconnectReceiver(st: Store, code: Code, now: int): Store {
    if code !in st.sessions then st
    else
      var s := st.sessions[code];
      var st1 := Unmap(st, s.receiver);
      st1.(sessions := st1.sessions[code := s.(receiver := None, gone := true, expiresAt := now + ReconnectTtl)])
  }

  function Delete(st: Store, code: Code): Store {
    if code !in st.sessions then st
    else
      var s := st.sessions[code];
      var st1 := Unmap(Unmap(st, Some(s.sender)), s.receiver);
      st1.(sessions := st1.sessions - {code})
  }

  function Expired(st: Store, now: int): set<Code> {
    set code | code in st.sessions && now > st.sessions[code].expiresAt
  }

  // The connections that the sessions under `codes` hold.
  function Held(st: Store, codes: set<Code>): set<Conn> {
    (set code | code in codes && code in st.sessions :: st.sessions[code].sender)
    + (set code | code in codes && code in st.sessions && st.sessions[code].receiver.Some? ::
         st.sessions[code].receiver.value)
  }

  // All of `codes` deleted, in any order.
  function EvictAll(st: Store, codes: set<Code>): Store {
    Store(st.sessions - codes, st.codeOf - Held(st, codes), st.sideOf - Held(st, codes))
  }

  lemma RemoveTwice<K, V>(m: map<K, V>, a: set<K>, b: set<K>)
    ensures (m - a) - b == m - (a + b)
  {
  }

  lemma HeldOneMore(st: Store, codes: set<Code>, code: Code)
    requires code in st.sessions
    ensures var s := st.sessions[code];
      Held(st, codes + {code}) == Held(st, codes) + ({s.sender} + if s.receiver.Some? then {s.receiver.value} else {})
  {
  }

  lemma EvictOneMore(st: Store, codes: set<Code>, code: Code)
    ensures Delete(EvictAll(st, codes), code) == EvictAll(st, codes + {code})
  {
    var st1 := EvictAll(st, codes);
    RemoveTwice(st.sessions, codes, {code});
    if code in st1.sessions {
      var s := st.sessions[code];
      var more := {s.sender} + if s.receiver.Some? then {s.receiver.value} else {};
      HeldOneMore(st, codes, code);
      RemoveTwice(st.codeOf, Held(st, codes), more);
      RemoveTwice(st.sideOf, Held(st, codes), more);
      assert Unmap(Unmap(st1, Some(s.sender)), s.receiver).codeOf == st1.codeOf - more;
      assert Unmap(Unmap(st1, Some(s.sender)), s.receiver).sideOf == st1.sideOf - more;
    } else {
      assert Held(st, codes + {code}) == Held(st, codes);
      assert st.sessions - (codes + {code}) == st1.sessions;
    }
  }

  // Where handleRelay writes a message that conn sent.
  function RelayTarget(st: Store, conn: Conn): Option<Conn> {
    match Lookup(st, conn)
    case Hit(_, Some(s), SideSender) => s.receiver
    case Hit(_, Some(s), SideReceiver) => Some(s.sender)
    case _ => None
  }

  // The connection is indexed under a session that is not there: handleRelay
  // dereferences nil.
  predicate Dangling(st: Store, conn: Conn) {
    match Lookup(st, conn)
    case Hit(_, None, SideSender) => true
    case Hit(_, None, SideReceiver) => true
    case _ => false
  }

  // ---- The server ----------------------------------------------------------

  // A connection's goroutine: reading messages, between the two critical
  // sections of cleanupConn, or finished.
  datatype Handler = Reading | Cleaning(code: Code, side: Side) | Finished

  datatype Server = Server(
    store: Store,
    handlers: map<Conn, Handler>,
    now: int,
    lastScan: int,            // when evictExpired last collected
    evicting: set<Code>,      // collected, not yet deleted
    issued: set<Code>,        // every code ever generated
    spoken: set<Conn>)        // connections that have sent a create or a join

  // What the surroundings guarantee: generated codes never repeat; a connection
  // sends one create or join at most, as the real client does.
  datatype Rules = Rules(freshCodes: bool, oneRequest: bool)

  datatype Action =
    | Dial(conn: Conn)
    | Create(conn: Conn, code: Code)
    | Join(conn: Conn, code: Code)
    | Hangup(conn: Conn)      // read error: cleanupConn's Lookup
    | Cleanup(conn: Conn)     // cleanupConn's DisconnectReceiver or Delete
    | Pass(seconds: nat)
    | Scan                    // evictExpired's first critical section
    | Evict(code: Code)       // one of its Deletes

  predicate MayAsk(r: Rules, s: Server, conn: Conn) {
    conn in s.handlers && s.handlers[conn].Reading? && (r.oneRequest ==> conn !in s.spoken)
  }

  predicate Enabled(r: Rules, s: Server, a: Action) {
    match a
    case Dial(conn) => conn !in s.handlers
    case Create(conn, code) => MayAsk(r, s, conn) && (r.freshCodes ==> code !in s.issued)
    case Join(conn, _) => MayAsk(r, s, conn)
    case Hangup(conn) => conn in s.handlers && s.handlers[conn].Reading?
    case Cleanup(conn) => conn in s.handlers && s.handlers[conn].Cleaning?
    case Pass(seconds) => s.now + seconds <= s.lastScan + CleanupInterval
    case Scan => s.evicting == {}
    case Evict(code) => code in s.evicting
  }

  function Apply(r: Rules, s: Server, a: Action): Server
    requires Enabled(r, s, a)
  {
    match a
    case Dial(conn) => s.(handlers := s.handlers[conn := Reading])
    case Create(conn, code) =>
      s.(store := CreateSender(s.store, code, conn, s.now),
         issued := s.issued + {code}, spoken := s.spoken + {conn})
    case Join(conn, code) =>
      s.(store := AddReceiver(s.store, code, conn, s.now), spoken := s.spoken + {conn})
    case Hangup(conn) =>
      var f := Lookup(s.store, conn);
      s.(handlers := s.handlers[conn := if f.Missing? then Finished else Cleaning(f.code, f.side)])
    case Cleanup(conn) =>
      var h := s.handlers[conn];
      s.(store := if h.side.SideReceiver? then DisconnectReceiver(s.store, h.code, s.now)
                  else Delete(s.store, h.code),
         handlers := s.handlers[conn := Finished])
    case Pass(seconds) => s.(now := s.now + seconds)
    case Scan => s.(evicting := Expired(s.store, s.now), lastScan := s.now)
    case Evict(code) => s.(store := Delete(s.store, code), evicting := s.evicting - {code})
  }

  function Step(r: Rules, s: Server, a: Action): Server {
    if Enabled(r, s, a) then Apply(r, s, a) else s
  }

  function Exec(r: Rules, s: Server, acts: seq<Action>): Server {
    if acts == [] then s else Step(r, Exec(r, s, acts[..|acts| - 1]), acts[|acts| - 1])
  }

  const Fresh := Server(EmptyStore, map[], 0, 0, {}, {}, {})

  ghost predicate Reachable(r: Rules, s: Server) {
    exists acts :: Exec(r, Fresh, acts) == s
  }

  lemma FreshIsReachable(r: Rules)
    ensures Reachable(r, Fresh)
  {
    assert Exec(r, Fresh, []) == Fresh;
  }

  lemma StepIsReachable(r: Rules, s: Server, a: Action)
    requires Reachable(r, s)
    ensures Reachable(r, Step(r, s, a))
  {
    var acts :| Exec(r, Fresh, acts) == s;
    assert (acts + [a])[..|acts|] == acts;
    assert Exec(r, Fresh, acts + [a]) == Step(r, s, a);
  }
}
