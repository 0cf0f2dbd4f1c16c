// What the message handlers write is what the server of the pairing model puts
// into its queues: for every message of either end, in every state of a run, with
// the store behind it. That the receiver is told first is thus a fact about
// handleJoinSession.
module PairingHandlers {
  import opened Options
  import opened Messages
  import opened PairingModel
  import opened PairingServer
  import opened Handlers
  import Codes
  import I = SessionInvariant
  import M = SessionModel

  // The messages written to one connection, in order.
  function To(log: seq<Write<Blob>>, conn: M.Conn): seq<Msg> {
    if log == [] then []
    else To(log[..|log| - 1], conn) + if log[|log| - 1].to == conn then [log[|log| - 1].msg] else []
  }

  // The same but for the wording of errors.
  ghost predicate Alike(p: seq<Msg>, q: seq<Msg>) {
    |p| == |q| && forall i :: 0 <= i < |p| ==> p[i].(text := "") == q[i].(text := "")
  }

  // Exactly these writes are what n' has in its queues beyond n.
  ghost predicate Queued(n: Net, n': Net, log: seq<Write<Blob>>, s: M.Conn, v: M.Conn) {
    Alike(n'.v2s, n.v2s + To(log, s)) && Alike(n'.v2r, n.v2r + To(log, v))
  }

  lemma QueuedOne(n: Net, n': Net, w: Write<Blob>, s: M.Conn, v: M.Conn)
    requires s != v
    requires n'.v2s == n.v2s + (if w.to == s then [w.msg] else []) || (w.to == s && AlikeLast(n'.v2s, n.v2s, w.msg))
    requires n'.v2r == n.v2r + (if w.to == v then [w.msg] else []) || (w.to == v && AlikeLast(n'.v2r, n.v2r, w.msg))
    ensures Queued(n, n', [w], s, v)
  {
    assert [w][..0] == [];
    assert To([w], s) == (if w.to == s then [w.msg] else []) && To([w], v) == if w.to == v then [w.msg] else [];
  }

  ghost predicate AlikeLast(q': seq<Msg>, q: seq<Msg>, m: Msg) {
    exists text :: q' == q + [m.(text := text)]
  }

  // The server's step for a message of the sender: a receiver that is gone takes
  // it without a trace if the write to it goes unnoticed.
  function SenderStep(st: M.Store, n: Net, s: M.Conn, broken: set<M.Conn>): Action {
    match M.RelayTarget(st, s)
    case Some(to) => if n.live && n.slot.Leaving? && to !in broken then Lose else ServeSender
    case None => ServeSender
  }

  // A receiver that is gone is neither end of the conversation.
  lemma GoneIsNeither(st: M.Store, n: Net, s: M.Conn, v: M.Conn)
    requires Mirrors(st, n, s, v) && n.live && n.slot.Leaving?
    ensures var to := M.RelayTarget(st, s); to.Some? && to.value != s && to.value != v
  {
    assert I.HeldIndexed(st, n.code);
  }

  // What a message of the sender comes to.
  lemma SenderAnswer(words: set<string>, st: M.Store, n: Net, s: M.Conn, v: M.Conn,
                     broken: set<M.Conn>, m: Msg, answer: seq<Write<Blob>>, r: Outcome<()>)
    requires Mirrors(st, n, s, v) && s !in broken && v !in broken && Relayed(m.kind)
    requires Answer(words, st, broken, s, m, None, answer, r)
    ensures |answer + GoesBack(broken, s, r)| == 1
    ensures var w := (answer + GoesBack(broken, s, r))[0];
      if Connected(n) then w == Write(v, Wire(m.kind, m.payload))
      else if SenderStep(st, n, s, broken).Lose? then w.to != s && w.to != v
      else w.to == s && w.msg == ErrorMsg(w.msg.text)
  {
    RelaysFollow(st, n, s, v);
    if n.live && n.slot.Leaving? { GoneIsNeither(st, n, s, v); }
  }

  lemma SenderIsAnswered(rules: Rules, words: set<string>, st: M.Store, n: Net, s: M.Conn, v: M.Conn,
                         broken: set<M.Conn>, answer: seq<Write<Blob>>, r: Outcome<()>)
    requires Mirrors(st, n, s, v) && s !in broken && v !in broken
    requires n.s2v != [] && Relayed(n.s2v[0].kind)
    requires Answer(words, st, broken, s, n.s2v[0], None, answer, r)
    ensures var a := SenderStep(st, n, s, broken);
      Enabled(rules, n, a) && Queued(n, Apply(rules, n, a), answer + GoesBack(broken, s, r), s, v)
  {
    SenderAnswer(words, st, n, s, v, broken, n.s2v[0], answer, r);
    var w := (answer + GoesBack(broken, s, r))[0];
    assert answer + GoesBack(broken, s, r) == [w];
    SenderQueues(rules, n, n.s2v[0], SenderStep(st, n, s, broken), w, s, v);
  }

  lemma SenderQueues(rules: Rules, n: Net, m: Msg, a: Action, w: Write<Blob>, s: M.Conn, v: M.Conn)
    requires s != v && n.s2v != [] && m == n.s2v[0] && (a.ServeSender? || a.Lose?) && Enabled(rules, n, a)
    requires if Connected(n) then a.ServeSender? && w == Write(v, Wire(m.kind, m.payload))
             else if a.Lose? then w.to != s && w.to != v
             else w.to == s && w.msg == ErrorMsg(w.msg.text)
    ensures Queued(n, Apply(rules, n, a), [w], s, v)
  {
    var n' := Apply(rules, n, a);
    if !Connected(n) && a.ServeSender? {
      var text := n'.v2s[|n'.v2s| - 1].text;
      assert n'.v2s == n.v2s + [w.msg.(text := text)];
    }
    QueuedOne(n, n', w, s, v);
  }

  // A message of the receiver that is no join, likewise.
  lemma ReceiverAnswer(words: set<string>, st: M.Store, n: Net, s: M.Conn, v: M.Conn,
                       broken: set<M.Conn>, m: Msg, answer: seq<Write<Blob>>, r: Outcome<()>)
    requires Mirrors(st, n, s, v) && s !in broken && v !in broken && Relayed(m.kind)
    requires Answer(words, st, broken, v, m, None, answer, r)
    ensures |answer + GoesBack(broken, v, r)| == 1
    ensures var w := (answer + GoesBack(broken, v, r))[0];
      if Connected(n) then w == Write(s, Wire(m.kind, m.payload))
      else w.to == v && w.msg == ErrorMsg(w.msg.text)
  {
    RelaysFollow(st, n, s, v);
  }

  lemma ReceiverIsAnswered(rules: Rules, words: set<string>, st: M.Store, n: Net, s: M.Conn, v: M.Conn,
                           broken: set<M.Conn>, answer: seq<Write<Blob>>, r: Outcome<()>)
    requires Mirrors(st, n, s, v) && s !in broken && v !in broken
    requires Enabled(rules, n, ServeReceiver) && Relayed(n.r2v[0].kind)
    requires Answer(words, st, broken, v, n.r2v[0], None, answer, r)
    ensures Queued(n, Apply(rules, n, ServeReceiver), answer + GoesBack(broken, v, r), s, v)
  {
    ReceiverAnswer(words, st, n, s, v, broken, n.r2v[0], answer, r);
    var w := (answer + GoesBack(broken, v, r))[0];
    assert answer + GoesBack(broken, v, r) == [w];
    ReceiverQueues(rules, n, n.r2v[0], w, s, v);
  }

  lemma ReceiverQueues(rules: Rules, n: Net, m: Msg, w: Write<Blob>, s: M.Conn, v: M.Conn)
    requires s != v && Enabled(rules, n, ServeReceiver) && m == n.r2v[0] && Relayed(m.kind)
    requires if Connected(n) then w == Write(s, Wire(m.kind, m.payload))
             else w.to == v && w.msg == ErrorMsg(w.msg.text)
    ensures Queued(n, Apply(rules, n, ServeReceiver), [w], s, v)
  {
    var n' := Apply(rules, n, ServeReceiver);
    if !Connected(n) {
      var text := n'.v2r[|n'.v2r| - 1].text;
      assert n'.v2r == n.v2r + [w.msg.(text := text)];
    }
    QueuedOne(n, n', w, s, v);
  }

  // ---- Joining -------------------------------------------------------------

  // One write is one of the model's notifications.
  ghost predicate Notifies(n: Net, n': Net, w: Write<Blob>, s: M.Conn, v: M.Conn) {
    && w.to in {s, v}
    && n'.v2r == n.v2r + (if w.to == v then [w.msg] else [])
    && n'.v2s == n.v2s + (if w.to == s then [w.msg] else [])
  }

  // An accepted join takes the slot, and its two writes, in their order, are the
  // two notifications exactly if the model's rule is that the receiver is told
  // first. A join of another session's code is not this session's.
  lemma JoinIsAnswered(rules: Rules, words: set<string>, st: M.Store, n: Net, s: M.Conn, v: M.Conn, now: int,
                       broken: set<M.Conn>, answer: seq<Write<Blob>>, r: Outcome<()>)
    requires Mirrors(st, n, s, v) && s !in broken && v !in broken
    requires n.code != "" && Codes.Valid(words, n.code)
    requires Enabled(rules, n, ServeReceiver) && n.r2v[0].kind.JoinSession?
    requires n.r2v[0].code != n.code ==> !Joins(words, st, n.r2v[0].code)
    requires Answer(words, st, broken, v, n.r2v[0], None, answer, r)
    ensures NextStore(words, st, v, n.r2v[0], None, now) == StoreStep(st, n, ServeReceiver, v, now)
    ensures var n1 := Apply(rules, n, ServeReceiver);
      if n1.slot.Attached? then
        var n2 := Apply(rules, n1, Notify);
        var n3 := Apply(rules, n2, Notify);
        && |answer| == 2 && r.Done? && n1.v2r == n.v2r && n1.v2s == n.v2s && n3.slot.Paired?
        && (Notifies(n1, n2, answer[0], s, v) && Notifies(n2, n3, answer[1], s, v) <==> rules.receiverFirst)
      else Queued(n, n1, answer + GoesBack(broken, v, r), s, v)
  {
    JoinMirrors(st, n, s, v, now);
    var n1 := Apply(rules, n, ServeReceiver);
    if n1.slot.Attached? {
      TellsReceiverFirst(rules, n1, answer, s, v);
    } else {
      var w := (answer + GoesBack(broken, v, r))[0];
      assert answer + GoesBack(broken, v, r) == [w];
      var text := n1.v2r[|n1.v2r| - 1].text;
      assert n1.v2r == n.v2r + [w.msg.(text := text)];
      QueuedOne(n, n1, w, s, v);
    }
  }

  lemma TellsReceiverFirst(rules: Rules, n: Net, answer: seq<Write<Blob>>, s: M.Conn, v: M.Conn)
    requires n.slot.Attached? && s != v
    requires answer == [Write(v, Plain(SessionReady)), Write(s, Plain(SessionReady))]
    ensures var n2 := Apply(rules, n, Notify);
      var n3 := Apply(rules, n2, Notify);
      && n3.slot.Paired?
      && (Notifies(n, n2, answer[0], s, v) && Notifies(n2, n3, answer[1], s, v) <==> rules.receiverFirst)
  {
  }

  // ---- Whole runs ----------------------------------------------------------

  // In every run, with the store that has gone through it: whatever the handlers
  // do with the next message of either end is the step the model takes.
  lemma RunIsAnswered(rules: Rules, words: set<string>, code: string, p: Params, acts: seq<Action>, at: nat -> int,
                      broken: set<M.Conn>, answer: seq<Write<Blob>>, r: Outcome<()>)
    ensures var n := Exec(rules, Opened(code, p), acts);
      var (st, v) := Follow(rules, Opened(code, p), acts, at);
      0 !in broken && v !in broken ==>
        && (n.s2v != [] && Relayed(n.s2v[0].kind) && Answer(words, st, broken, 0, n.s2v[0], None, answer, r) ==>
            var a := SenderStep(st, n, 0, broken);
            Enabled(rules, n, a) && Queued(n, Apply(rules, n, a), answer + GoesBack(broken, 0, r), 0, v))
        && (Enabled(rules, n, ServeReceiver) && Relayed(n.r2v[0].kind)
            && Answer(words, st, broken, v, n.r2v[0], None, answer, r) ==>
            Queued(n, Apply(rules, n, ServeReceiver), answer + GoesBack(broken, v, r), 0, v))
  {
    RunMirrors(rules, code, p, acts, at);
    var n := Exec(rules, Opened(code, p), acts);
    var (st, v) := Follow(rules, Opened(code, p), acts, at);
    if 0 !in broken && v !in broken {
      if n.s2v != [] && Relayed(n.s2v[0].kind) && Answer(words, st, broken, 0, n.s2v[0], None, answer, r) {
        SenderIsAnswered(rules, words, st, n, 0, v, broken, answer, r);
      }
      if Enabled(rules, n, ServeReceiver) && Relayed(n.r2v[0].kind)
         && Answer(words, st, broken, v, n.r2v[0], None, answer, r) {
        ReceiverIsAnswered(rules, words, st, n, 0, v, broken, answer, r);
      }
    }
  }
}
