// internal/server/ws.go as written: what the server does with each message and
// with a broken connection. `sent` records successful writes in order.
module Handlers {
  import opened Options
  import opened Messages
  import Codes
  import M = SessionModel
  import I = SessionInvariant
  import S = SessionStore
  type Conn = M.Conn

  datatype Write<P> = Write(to: Conn, msg: Message<P>)

  // How a handler ends: nil, an error, or the dereference of nil, which
  // net/http recovers after handleWS's deferred clean-up has run.
  datatype Outcome<T> = Done(value: T) | Failed(reason: string) | Panicked

  // ---- What a message does, by its kind -------------------------------------

  predicate Joins(wordSet: set<string>, st: M.Store, code: string) {
    code != "" && Codes.Valid(wordSet, code) && M.Joinable(st, code)
  }

  predicate Relayed(kind: Kind) {
    kind.Relay? || kind.IceCandidate? || kind.IceCredentials?
  }

  function NextStore<P>(wordSet: set<string>, st: M.Store, conn: Conn, msg: Message<P>,
                        made: Option<string>, now: int): M.Store
  {
    match msg.kind
    case CreateSession => if made.Some? then M.CreateSender(st, made.value, conn, now) else st
    case JoinSession => if Joins(wordSet, st, msg.code) then M.AddReceiver(st, msg.code, conn, now) else st
    case _ => st
  }

  // One write, which is all there is to do: it goes through or fails.
  ghost predicate Wrote<P>(broken: set<Conn>, log: seq<Write<P>>, r: Outcome<()>, to: Conn, msg: Message<P>) {
    if to in broken then log == [] && r.Failed? else log == [Write(to, msg)] && r.Done?
  }

  // The creator is sent the code, if there is one.
  ghost predicate CreateAnswer<P>(broken: set<Conn>, conn: Conn, made: Option<string>,
                                  log: seq<Write<P>>, r: Outcome<()>)
  {
    if made.None? then log == [] && r.Failed?
    else Wrote(broken, log, r, conn, Message(SessionCreated, made.value, None, ""))
  }

  // The receiver is told first, and the sender only if that went through.
  ghost predicate JoinAnswer<P>(wordSet: set<string>, st: M.Store, broken: set<Conn>, conn: Conn, code: string,
                                log: seq<Write<P>>, r: Outcome<()>)
  {
    if !Joins(wordSet, st, code) || conn in broken then log == [] && r.Failed?
    else if st.sessions[code].sender in broken then log == [Write(conn, Plain(SessionReady))] && r.Failed?
    else log == [Write(conn, Plain(SessionReady)), Write(st.sessions[code].sender, Plain(SessionReady))] && r.Done?
  }

  // Kind and payload as they came, to the other end of conn's own session.
  ghost predicate RelayAnswer<P>(st: M.Store, broken: set<Conn>, conn: Conn, kind: Kind, payload: Option<P>,
                                 log: seq<Write<P>>, r: Outcome<()>)
  {
    match M.RelayTarget(st, conn)
    case Some(to) => Wrote(broken, log, r, to, Message(kind, "", payload, ""))
    case None => log == [] && (if M.Dangling(st, conn) then r.Panicked? else r.Failed?)
  }

  // dispatch: `log` is what it writes.
  ghost predicate Answer<P>(wordSet: set<string>, st: M.Store, broken: set<Conn>, conn: Conn, msg: Message<P>,
                            made: Option<string>, log: seq<Write<P>>, r: Outcome<()>)
  {
    match msg.kind
    case CreateSession => CreateAnswer(broken, conn, made, log, r)
    case JoinSession => JoinAnswer(wordSet, st, broken, conn, msg.code, log, r)
    case _ =>
      if Relayed(msg.kind) then RelayAnswer(st, broken, conn, msg.kind, msg.payload, log, r)
      else log == [] && r.Failed?
  }

  // When all goes well: what was asked was in order, and what is then on the wire,
  // in which order.
  ghost predicate OnTheWire<P>(wordSet: set<string>, st: M.Store, conn: Conn, msg: Message<P>,
                               made: Option<string>, log: seq<Write<P>>)
  {
    && (msg.kind.CreateSession? || msg.kind.JoinSession? || Relayed(msg.kind))
    && (msg.kind.CreateSession? ==>
        && |log| == 1 && made.Some?
        && log[0].to == conn && log[0].msg.kind == SessionCreated && log[0].msg.code == made.value)
    && (msg.kind.JoinSession? ==>
        && |log| == 2 && msg.code != "" && Codes.Valid(wordSet, msg.code) && M.Joinable(st, msg.code)
        && log[0].to == conn && log[0].msg == Plain(SessionReady)
        && log[1].to == st.sessions[msg.code].sender && log[1].msg == Plain(SessionReady))
    && (Relayed(msg.kind) ==>
        && |log| == 1 && M.RelayTarget(st, conn) == Some(log[0].to)
        && log[0].msg.kind == msg.kind && log[0].msg.payload == msg.payload)
  }

  // All goes well exactly if the request is in order and nobody it has to be
  // written to is unreachable.
  lemma DoneIff<P>(wordSet: set<string>, st: M.Store, broken: set<Conn>, conn: Conn, msg: Message<P>,
                   made: Option<string>, log: seq<Write<P>>, r: Outcome<()>)
    requires Answer(wordSet, st, broken, conn, msg, made, log, r)
    ensures r.Done? ==> OnTheWire(wordSet, st, conn, msg, made, log)
    ensures r.Done? <==>
      match msg.kind
      case CreateSession => made.Some? && conn !in broken
      case JoinSession =>
        && msg.code != "" && Codes.Valid(wordSet, msg.code) && M.Joinable(st, msg.code)
        && conn !in broken && st.sessions[msg.code].sender !in broken
      case _ => Relayed(msg.kind) && M.RelayTarget(st, conn).Some? && M.RelayTarget(st, conn).value !in broken
    ensures r.Panicked? <==> Relayed(msg.kind) && M.Dangling(st, conn)
  {
  }

  lemma NextStoreLinked<P>(wordSet: set<string>, st: M.Store, conn: Conn, msg: Message<P>, made: Option<string>,
                           now: int)
    requires I.Linked(st) && (made.None? || made.value !in st.sessions)
    ensures I.Linked(NextStore(wordSet, st, conn, msg, made, now))
  {
    I.JoinKeepsLinked(st, msg.code, conn, now);
    if made.Some? {
      I.CreateKeepsLinkedIff(st, made.value, conn, now);
    }
  }

  // What handleWS then does with an error, but not with a panic: back it goes to
  // its cause.
  function GoesBack<P>(broken: set<Conn>, conn: Conn, r: Outcome<()>): seq<Write<P>> {
    if r.Failed? && conn !in broken then [Write(conn, Message(Error, "", None, r.reason))] else []
  }

  class Server<P> {
    const words: seq<string>
    const wordSet: set<string>
    const store: S.SessionStore
    var sent: seq<Write<P>>
    var broken: set<Conn>     // connections on which a write fails

    ghost predicate Valid()
      reads this, store
    {
      && store.Valid() && words != []
      && forall w :: w in wordSet <==> w in words
    }

    // The wordlist is embedded text that holds at least one word.
    constructor (wordlist: string)
      requires Codes.WordsOf(Codes.Split(Codes.TrimSpace(wordlist), '\n')) != []
      ensures Valid() && store.View() == M.EmptyStore && sent == [] && broken == {}
      ensures words == Codes.WordsOf(Codes.Split(Codes.TrimSpace(wordlist), '\n'))
    {
      var list, table := Codes.ParseWordlist(wordlist);
      words, wordSet := list, table;
      store := new S.SessionStore();
      sent, broken := [], {};
    }

    // Nothing but the log moves.
    method WriteJSON(conn: Conn, msg: Message<P>) returns (ok: bool)
      modifies this`sent
      ensures ok <==> conn !in broken
      ensures sent == old(sent) + if ok then [Write(conn, msg)] else []
    {
      ok := conn !in broken;
      if ok {
        sent := sent + [Write(conn, msg)];
      }
    }

    // What has been written since there were n writes.
    ghost function NewWrites(n: nat): seq<Write<P>>
      requires n <= |sent|
      reads this`sent
    {
      sent[n..]
    }

    // ---- The handlers -------------------------------------------------------

    // `draws` is what the random source yields; without entropy there is no code
    // and nothing happens.
    method HandleCreateSession(conn: Conn, now: int, draws: nat -> Option<nat>)
      returns (r: Outcome<()>, ghost made: Option<string>)
      requires Valid() && forall i :: draws(i).Some? ==> draws(i).value < |words|
      modifies this`sent, store
      ensures Valid() && old(sent) <= sent
      ensures store.View() ==
        if made.Some? then M.CreateSender(old(store.View()), made.value, conn, now) else old(store.View())
      ensures fresh(store.sessions.Values - old(store.sessions.Values))
      ensures made.Some? <==> forall i :: 0 <= i < Codes.CodeWords ==> draws(i).Some?
      ensures made.Some? ==> exists picks: seq<string> ::
        && |picks| == 4 && made.value == Codes.Join(picks, Codes.Hyphen)
        && forall i :: 0 <= i < 4 ==> draws(i).Some? && picks[i] == words[draws(i).value]
      ensures CreateAnswer(broken, conn, made, NewWrites(|old(sent)|), r)
    {
      var generated, picks := Codes.GenerateCode(words, Codes.CodeWords, draws);
      if generated.Err? {
        return Failed("server: generate code"), None;
      }
      made := Some(generated.value);
      var session := store.CreateSender(generated.value, conn, now);
      var ok := WriteJSON(conn, Message(SessionCreated, generated.value, None, ""));
      r := if ok then Done(()) else Failed("write failed");
    }

    method HandleJoinSession(conn: Conn, code: string, now: int) returns (r: Outcome<()>)
      requires Valid()
      modifies this`sent, store, store.sessions.Values
      ensures Valid() && store.sessions == old(store.sessions) && old(sent) <= sent
      ensures var st := old(store.View());
        store.View() == if Joins(wordSet, st, code) then M.AddReceiver(st, code, conn, now) else st
      ensures JoinAnswer(wordSet, old(store.View()), broken, conn, code, NewWrites(|old(sent)|), r)
    {
      if code == "" {
        return Failed("join_session: missing code");
      }
      var valid := Codes.ValidateCode(wordSet, code);
      if !valid {
        return Failed("join_session: invalid code format");
      }
      var session, ok := store.AddReceiver(code, conn, now);
      if !ok {
        return Failed("join_session: session not found or already joined");
      }
      assert store.View().sessions[code] == session.View();
      assert session.senderConn == old(store.View()).sessions[code].sender;
      r := NotifyPeers(conn, session.senderConn);
    }

    // The receiver is told before the sender.
    method NotifyPeers(receiver: Conn, sender: Conn) returns (r: Outcome<()>)
      modifies this`sent
      ensures r.Done? || r.Failed?
      ensures r.Done? <==> receiver !in broken && sender !in broken
      ensures sent == old(sent)
        + (if receiver in broken then [] else [Write(receiver, Plain(SessionReady))])
        + (if receiver in broken || sender in broken then [] else [Write(sender, Plain(SessionReady))])
    {
      var told := WriteJSON(receiver, Plain(SessionReady));
      if !told {
        return Failed("join_session: notify receiver");
      }
      told := WriteJSON(sender, Plain(SessionReady));
      if !told {
        return Failed("join_session: notify sender");
      }
      return Done(());
    }

    // The lookup and the choice of side in handleRelay.
    method Peer(conn: Conn) returns (peer: Outcome<Conn>)
      requires Valid()
      ensures peer.Done? <==> M.RelayTarget(store.View(), conn).Some?
      ensures peer.Done? ==> M.RelayTarget(store.View(), conn) == Some(peer.value)
      ensures peer.Panicked? <==> M.Dangling(store.View(), conn)
    {
      var code, session, side, ok := store.Lookup(conn);
      if !ok {
        return Failed("relay: connection not associated with any session");
      }
      if session == null && side != M.SideUnknown {
        return Panicked;
      }
      match side
      case SideSender =>
        return if session.receiverConn.Some? then Done(session.receiverConn.value)
               else Failed("relay: receiver not yet connected");
      case SideReceiver =>
        return Done(session.senderConn);
      case SideUnknown =>
        return Failed("relay: unknown side");
    }

    method HandleRelay(conn: Conn, kind: Kind, payload: Option<P>) returns (r: Outcome<()>)
      requires Valid()
      modifies this`sent
      ensures Valid() && old(sent) <= sent
      ensures RelayAnswer(store.View(), broken, conn, kind, payload, NewWrites(|old(sent)|), r)
    {
      var peer := Peer(conn);
      match peer
      case Panicked => return Panicked;
      case Failed(reason) => return Failed(reason);
      case Done(to) => r := Forward(to, Message(kind, "", payload, ""));
    }

    // writeToReceiver, writeToSender.
    method Forward(to: Conn, msg: Message<P>) returns (r: Outcome<()>)
      modifies this`sent
      ensures old(sent) <= sent && Wrote(broken, NewWrites(|old(sent)|), r, to, msg)
    {
      var ok := WriteJSON(to, msg);
      r := if ok then Done(()) else Failed("write failed");
    }

    method Dispatch(conn: Conn, msg: Message<P>, now: int, draws: nat -> Option<nat>)
      returns (r: Outcome<()>, ghost made: Option<string>)
      requires Valid() && forall i :: draws(i).Some? ==> draws(i).value < |words|
      modifies this`sent, store, store.sessions.Values
      ensures Valid() && store.View() == NextStore(wordSet, old(store.View()), conn, msg, made, now)
      ensures old(sent) <= sent
      ensures Answer(wordSet, old(store.View()), broken, conn, msg, made, NewWrites(|old(sent)|), r)
      ensures r.Done? ==> OnTheWire(wordSet, old(store.View()), conn, msg, made, NewWrites(|old(sent)|))
    {
      made := None;
      match msg.kind
      case CreateSession => r, made := HandleCreateSession(conn, now, draws);
      case JoinSession => r := HandleJoinSession(conn, msg.code, now);
      case Relay => r := HandleRelay(conn, Relay, msg.payload);
      case IceCandidate => r := HandleRelay(conn, IceCandidate, msg.payload);
      case IceCredentials => r := HandleRelay(conn, IceCredentials, msg.payload);
      case _ => r := Failed("unknown message type");
    }

    // One round of handleWS; `answer` is what dispatch wrote. The index stays true
    // unless a generated code was in use.
    method HandleMessage(conn: Conn, msg: Message<P>, now: int, draws: nat -> Option<nat>)
      returns (r: Outcome<()>, ghost made: Option<string>, ghost answer: seq<Write<P>>)
      requires Valid() && forall i :: draws(i).Some? ==> draws(i).value < |words|
      modifies this`sent, store, store.sessions.Values
      ensures Valid() && store.View() == NextStore(wordSet, old(store.View()), conn, msg, made, now)
      ensures I.Linked(old(store.View())) && (made.None? || made.value !in old(store.View()).sessions) ==>
        I.Linked(store.View())
      ensures Answer(wordSet, old(store.View()), broken, conn, msg, made, answer, r)
      ensures sent == old(sent) + answer + GoesBack(broken, conn, r)
    {
      r, made := Dispatch(conn, msg, now, draws);
      answer := NewWrites(|old(sent)|);
      if r.Failed? {
        var ok := WriteJSON(conn, Message(Error, "", None, r.reason));
      }
      if I.Linked(old(store.View())) && (made.None? || made.value !in old(store.View()).sessions) {
        NextStoreLinked(wordSet, old(store.View()), conn, msg, made, now);
      }
    }

    // cleanupConn, when nothing runs between its two critical sections.
    method CleanupConn(conn: Conn, now: int)
      requires Valid()
      modifies store, store.sessions.Values
      ensures Valid() && (I.Linked(old(store.View())) ==> I.Linked(store.View()))
      ensures match M.Lookup(old(store.View()), conn)
        case Missing => store.View() == old(store.View())
        case Hit(code, _, side) =>
          store.View() == if side.SideReceiver? then M.DisconnectReceiver(old(store.View()), code, now)
                          else M.Delete(old(store.View()), code)
    {
      var code, session, side, ok := store.Lookup(conn);
      if !ok {
        return;
      }
      if I.Linked(store.View()) {
        I.DisconnectKeepsLinked(store.View(), code, now);
        I.DeleteKeepsLinked(store.View(), code);
      }
      match side
      case SideReceiver => store.DisconnectReceiver(code, now);
      case _ => store.Delete(code);
    }
  }
}
