// Each side's script by itself, over whatever arrives: it sends when it can and
// else reads, until it is through, has failed, or waits in vain.
module PairingScripts {
  import opened Options
  import opened Messages
  import opened PairingModel

  // ---- readUntil -----------------------------------------------------------

  // The message it returns, if any, what it leaves and what it has passed over.
  datatype Reading = Reading(msg: Option<Msg>, rest: seq<Msg>, skipped: seq<Msg>, error: bool)

  function ReadOf(inbox: seq<Msg>, want: Kind): (r: Reading)
    ensures r.msg.Some? ==> |r.rest| < |inbox| && r.msg.value.kind == want
    ensures r.msg.None? && !r.error ==> r.rest == []
  {
    if inbox == [] then Reading(None, [], [], false)
    else if inbox[0].kind.Error? then Reading(None, inbox[1..], [], true)
    else if inbox[0].kind == want then Reading(Some(inbox[0]), inbox[1..], [], false)
    else
      var r := ReadOf(inbox[1..], want);
      r.(skipped := [inbox[0]] + r.skipped)
  }

  // Message k is the first of the wanted kind, and no error comes before it.
  predicate FirstOf(inbox: seq<Msg>, want: Kind, k: int) {
    && 0 <= k < |inbox| && inbox[k].kind == want
    && forall i :: 0 <= i < k ==> inbox[i].kind != want && inbox[i].kind != Error
  }

  lemma FirstOfTail(inbox: seq<Msg>, want: Kind, k: int)
    requires inbox != [] && inbox[0].kind != want && inbox[0].kind != Error
    ensures FirstOf(inbox, want, k) <==> FirstOf(inbox[1..], want, k - 1)
  {
    var tail := inbox[1..];
    if FirstOf(tail, want, k - 1) {
      assert forall i :: 0 < i < k ==> inbox[i] == tail[i - 1];
    }
    if FirstOf(inbox, want, k) {
      assert forall i :: 0 <= i < k - 1 ==> tail[i] == inbox[i + 1];
    }
  }

  // It returns exactly that message and leaves what follows it.
  lemma {:induction false} ReadOfIsFirst(inbox: seq<Msg>, want: Kind)
    requires want != Error
    ensures ReadOf(inbox, want).msg.Some? <==> exists k :: FirstOf(inbox, want, k)
    ensures forall k :: FirstOf(inbox, want, k) ==>
      ReadOf(inbox, want).msg == Some(inbox[k]) && ReadOf(inbox, want).rest == inbox[k + 1..]
  {
    if inbox != [] && inbox[0].kind != Error && inbox[0].kind != want {
      var tail := inbox[1..];
      ReadOfIsFirst(tail, want);
      forall k | FirstOf(inbox, want, k) ensures FirstOf(tail, want, k - 1) && tail[k..] == inbox[k + 1..] {
        FirstOfTail(inbox, want, k);
      }
      if k :| FirstOf(tail, want, k) { FirstOfTail(inbox, want, k + 1); }
    } else if inbox != [] && inbox[0].kind == want {
      assert FirstOf(inbox, want, 0);
    }
  }

  // Keeps a definition folded up: see SenderLeads.
  ghost predicate Unfold(k: int) { true }

  // ---- The sender's script -------------------------------------------------

  // Messages it can send before it reads again.
  function SenderAhead(n: Net): nat {
    match n.spc
    case SStart => 1
    case SFinish => 1
    case SPing => 1
    case SCreds => |n.sp.cands| + 2
    case SCands(i) => if i < |n.sp.cands| then |n.sp.cands| + 1 - i else 1
    case _ => 0
  }

  function SenderSaid(n: Net): Net
    requires SenderOut(n).Some?
  {
    n.(s2v := n.s2v + [SenderOut(n).value], spc := SenderAfterSend(n))
  }

  function SenderAlone(n: Net): Net
    decreases |n.v2s|, SenderAhead(n)
  {
    if SenderOut(n).Some? then SenderAlone(SenderSaid(n))
    else if SenderWants(n.spc).Some? && n.v2s != [] then SenderAlone(SenderRead(n, n.v2s[0]))
    else n
  }

  // After readUntil has returned.
  function SenderHears(n: Net, want: Kind): Net {
    var r := ReadOf(n.v2s, want);
    var n1 := n.(v2s := r.rest, discarded := n.discarded + r.skipped);
    match r.msg
    case Some(m) => SenderTake(n1, m)
    case None => if r.error then n1.(spc := SFailed) else n1
  }

  lemma SenderHearsFirst(n: Net, want: Kind)
    requires SenderWants(n.spc) == Some(want) && n.v2s != []
    ensures var m, n1 := n.v2s[0], SenderRead(n, n.v2s[0]);
      if m.kind.Error? || m.kind == want then SenderHears(n, want) == n1
      else SenderWants(n1.spc) == Some(want) && SenderHears(n, want) == SenderHears(n1, want)
  {
    var r, m := ReadOf(n.v2s[1..], want), n.v2s[0];
    assert n.discarded + [] == n.discarded;
    assert (n.discarded + [m]) + r.skipped == n.discarded + ([m] + r.skipped);
  }

  // Nothing more to do: through, failed, or waiting at the end of the connection.
  predicate SenderOver(n: Net) {
    n.spc.SSetUp? || n.spc.SFailed? || (n.v2s == [] && SenderWants(n.spc).Some?)
  }

  lemma SenderOverAlone(n: Net)
    requires SenderOver(n)
    ensures SenderAlone(n) == n
  {
  }

  // The script ends from n as it does from n'. The guard keeps the script folded
  // up where only this is needed.
  ghost predicate SenderLeads(n: Net, n': Net) {
    forall k: int {:trigger Unfold(k)} :: Unfold(k) ==> SenderAlone(n) == SenderAlone(n')
  }

  // n' is where the script gets from n: nothing but its own fields has changed.
  ghost predicate SenderFollows(n: Net, n': Net) {
    && SenderLeads(n, n')
    && n' == n.(spc := n'.spc, sk := n'.sk, v2s := n'.v2s, s2v := n'.s2v, discarded := n'.discarded)
  }

  lemma SenderFollowsOn(n: Net, n1: Net, n2: Net)
    requires SenderFollows(n, n1) && SenderFollows(n1, n2)
    ensures SenderFollows(n, n2)
  {
    forall k: int {:trigger Unfold(k)} | Unfold(k) ensures SenderAlone(n) == SenderAlone(n2) {
    }
  }

  lemma SenderSaysOn(n: Net)
    requires SenderOut(n).Some?
    ensures SenderFollows(n, SenderSaid(n))
  {
  }

  lemma SenderReadsOn(n: Net)
    requires SenderWants(n.spc).Some? && n.v2s != []
    ensures SenderFollows(n, SenderRead(n, n.v2s[0]))
  {
    assert SenderOut(n).None?;
  }

  lemma {:induction false} SenderHearsOn(n: Net, want: Kind)
    requires SenderWants(n.spc) == Some(want)
    ensures SenderFollows(n, SenderHears(n, want))
    decreases |n.v2s|
  {
    if n.v2s == [] {
      assert n.discarded + [] == n.discarded;
      assert SenderHears(n, want) == n;
    } else {
      SenderHearsFirst(n, want);
      var m, n1 := n.v2s[0], SenderRead(n, n.v2s[0]);
      SenderReadsOn(n);
      if !m.kind.Error? && m.kind != want {
        SenderHearsOn(n1, want);
        SenderFollowsOn(n, n1, SenderHears(n, want));
      }
    }
  }

  // One more message said, or waited for, on the way from n.
  lemma SenderSays(n: Net, n1: Net) returns (n2: Net)
    requires SenderFollows(n, n1) && SenderOut(n1).Some?
    ensures n2 == SenderSaid(n1) && SenderFollows(n, n2)
  {
    n2 := SenderSaid(n1);
    SenderSaysOn(n1);
    SenderFollowsOn(n, n1, n2);
  }

  lemma SenderListens(n: Net, n1: Net, want: Kind) returns (n2: Net)
    requires SenderFollows(n, n1) && SenderWants(n1.spc) == Some(want)
    ensures n2 == SenderHears(n1, want) && SenderFollows(n, n2)
  {
    n2 := SenderHears(n1, want);
    SenderHearsOn(n1, want);
    SenderFollowsOn(n, n1, n2);
  }

  lemma SenderEnds(n: Net, n': Net)
    requires SenderFollows(n, n') && SenderOver(n')
    ensures SenderAlone(n) == n'
  {
    assert Unfold(0);
    SenderOverAlone(n');
  }

  // It is a run of the pairing model in which nobody else moves.
  lemma {:induction false} SenderAloneIsRun(r: Rules, n: Net) returns (acts: seq<Action>)
    ensures forall a :: a in acts ==> a.SenderSends? || a.SenderReads?
    ensures Exec(r, n, acts) == SenderAlone(n)
    decreases |n.v2s|, SenderAhead(n)
  {
    if SenderOut(n).Some? {
      var rest := SenderAloneIsRun(r, SenderSaid(n));
      acts := [SenderSends] + rest;
      ExecFirst(r, n, SenderSends, rest);
    } else if SenderWants(n.spc).Some? && n.v2s != [] {
      var rest := SenderAloneIsRun(r, SenderRead(n, n.v2s[0]));
      acts := [SenderReads] + rest;
      ExecFirst(r, n, SenderReads, rest);
    } else {
      acts := [];
    }
  }

  lemma {:induction false} ExecFirst(r: Rules, n: Net, a: Action, rest: seq<Action>)
    ensures Exec(r, n, [a] + rest) == Exec(r, Step(r, n, a), rest)
    decreases |rest|
  {
    var all := [a] + rest;
    if rest == [] {
      assert all[..0] == [] && all[0] == a;
      assert Exec(r, n, all) == Step(r, Exec(r, n, []), a);
    } else {
      ExecFirst(r, n, a, rest[..|rest| - 1]);
      assert all[..|all| - 1] == [a] + rest[..|rest| - 1];
    }
  }

  // ---- The receiver's script -----------------------------------------------

  function ReceiverAhead(n: Net): nat {
    match n.rpc
    case RJoin => 1
    case RReply => 1
    case RAnswer => 2
    case RPong => |n.rp.cands| + 3
    case RCreds => |n.rp.cands| + 2
    case RCands(i) => if i < |n.rp.cands| then |n.rp.cands| + 1 - i else 1
    case _ => 0
  }

  function ReceiverSaid(n: Net): Net
    requires ReceiverOut(n).Some?
  {
    n.(r2v := n.r2v + [ReceiverOut(n).value], rpc := ReceiverAfterSend(n).0, rk := ReceiverAfterSend(n).1)
  }

  function ReceiverAlone(n: Net): Net
    decreases |n.v2r|, ReceiverAhead(n)
  {
    if ReceiverOut(n).Some? then ReceiverAlone(ReceiverSaid(n))
    else if ReceiverWants(n.rpc).Some? && n.v2r != [] then ReceiverAlone(ReceiverRead(n, n.v2r[0]))
    else n
  }

  function ReceiverHears(n: Net, want: Kind): Net {
    var r := ReadOf(n.v2r, want);
    var n1 := n.(v2r := r.rest, discarded := n.discarded + r.skipped);
    match r.msg
    case Some(m) => ReceiverTake(n1, m)
    case None => if r.error then n1.(rpc := RFailed) else n1
  }

  lemma ReceiverHearsFirst(n: Net, want: Kind)
    requires ReceiverWants(n.rpc) == Some(want) && n.v2r != []
    ensures var m, n1 := n.v2r[0], ReceiverRead(n, n.v2r[0]);
      if m.kind.Error? || m.kind == want then ReceiverHears(n, want) == n1
      else ReceiverWants(n1.rpc) == Some(want) && ReceiverHears(n, want) == ReceiverHears(n1, want)
  {
    var r, m := ReadOf(n.v2r[1..], want), n.v2r[0];
    assert n.discarded + [] == n.discarded;
    assert (n.discarded + [m]) + r.skipped == n.discarded + ([m] + r.skipped);
  }

  predicate ReceiverOver(n: Net) {
    n.rpc.RSetUp? || n.rpc.RFailed? || (n.v2r == [] && ReceiverWants(n.rpc).Some?)
  }

  lemma ReceiverOverAlone(n: Net)
    requires ReceiverOver(n)
    ensures ReceiverAlone(n) == n
  {
  }

  ghost predicate ReceiverLeads(n: Net, n': Net) {
    forall k: int {:trigger Unfold(k)} :: Unfold(k) ==> ReceiverAlone(n) == ReceiverAlone(n')
  }

  // n' is where the script gets from n: nothing but its own fields has changed.
  ghost predicate ReceiverFollows(n: Net, n': Net) {
    && ReceiverLeads(n, n')
    && n' == n.(rpc := n'.rpc, rk := n'.rk, v2r := n'.v2r, r2v := n'.r2v, discarded := n'.discarded)
  }

  lemma ReceiverFollowsOn(n: Net, n1: Net, n2: Net)
    requires ReceiverFollows(n, n1) && ReceiverFollows(n1, n2)
    ensures ReceiverFollows(n, n2)
  {
    forall k: int {:trigger Unfold(k)} | Unfold(k) ensures ReceiverAlone(n) == ReceiverAlone(n2) {
    }
  }

  lemma ReceiverSaysOn(n: Net)
    requires ReceiverOut(n).Some?
    ensures ReceiverFollows(n, ReceiverSaid(n))
  {
  }

  lemma ReceiverReadsOn(n: Net)
    requires ReceiverWants(n.rpc).Some? && n.v2r != []
    ensures ReceiverFollows(n, ReceiverRead(n, n.v2r[0]))
  {
    assert ReceiverOut(n).None?;
  }

  lemma {:induction false} ReceiverHearsOn(n: Net, want: Kind)
    requires ReceiverWants(n.rpc) == Some(want)
    ensures ReceiverFollows(n, ReceiverHears(n, want))
    decreases |n.v2r|
  {
    if n.v2r == [] {
      assert n.discarded + [] == n.discarded;
      assert ReceiverHears(n, want) == n;
    } else {
      ReceiverHearsFirst(n, want);
      var m, n1 := n.v2r[0], ReceiverRead(n, n.v2r[0]);
      ReceiverReadsOn(n);
      if !m.kind.Error? && m.kind != want {
        ReceiverHearsOn(n1, want);
        ReceiverFollowsOn(n, n1, ReceiverHears(n, want));
      }
    }
  }

  // One more message said, or waited for, on the way from n.
  lemma ReceiverSays(n: Net, n1: Net) returns (n2: Net)
    requires ReceiverFollows(n, n1) && ReceiverOut(n1).Some?
    ensures n2 == ReceiverSaid(n1) && ReceiverFollows(n, n2)
  {
    n2 := ReceiverSaid(n1);
    ReceiverSaysOn(n1);
    ReceiverFollowsOn(n, n1, n2);
  }

  lemma ReceiverListens(n: Net, n1: Net, want: Kind) returns (n2: Net)
    requires ReceiverFollows(n, n1) && ReceiverWants(n1.rpc) == Some(want)
    ensures n2 == ReceiverHears(n1, want) && ReceiverFollows(n, n2)
  {
    n2 := ReceiverHears(n1, want);
    ReceiverHearsOn(n1, want);
    ReceiverFollowsOn(n, n1, n2);
  }

  lemma ReceiverEnds(n: Net, n': Net)
    requires ReceiverFollows(n, n') && ReceiverOver(n')
    ensures ReceiverAlone(n) == n'
  {
    assert Unfold(0);
    ReceiverOverAlone(n');
  }

  lemma {:induction false} ReceiverAloneIsRun(r: Rules, n: Net) returns (acts: seq<Action>)
    ensures forall a :: a in acts ==> a.ReceiverSends? || a.ReceiverReads?
    ensures Exec(r, n, acts) == ReceiverAlone(n)
    decreases |n.v2r|, ReceiverAhead(n)
  {
    if ReceiverOut(n).Some? {
      var rest := ReceiverAloneIsRun(r, ReceiverSaid(n));
      acts := [ReceiverSends] + rest;
      ExecFirst(r, n, ReceiverSends, rest);
    } else if ReceiverWants(n.rpc).Some? && n.v2r != [] {
      var rest := ReceiverAloneIsRun(r, ReceiverRead(n, n.v2r[0]));
      acts := [ReceiverReads] + rest;
      ExecFirst(r, n, ReceiverReads, rest);
    } else {
      acts := [];
    }
  }

  // ---- GatherAndConnect ----------------------------------------------------

  // What one side sends.
  function IceLog(p: Params): seq<Msg> {
    [CredsMsg(p)] + CandLog(p.cands) + [Sentinel]
  }

  function CandLog(cands: seq<string>): seq<Msg> {
    seq(|cands|, i requires 0 <= i < |cands| => CandMsg(cands[i]))
  }

  // What the reading half makes of an inbox.
  datatype Ice = Ice(ok: bool, creds: Option<Blob>, cands: seq<string>, rest: seq<Msg>)

  function CandsOf(inbox: seq<Msg>, creds: Option<Blob>, got: seq<string>): Ice
    decreases |inbox|
  {
    var r := ReadOf(inbox, IceCandidate);
    if r.msg.None? then Ice(false, creds, got, r.rest)
    else if EmptyPayload(r.msg.value.payload) then Ice(true, creds, got, r.rest)
    else if !r.msg.value.payload.value.Candidate? then Ice(false, creds, got, r.rest)
    else CandsOf(r.rest, creds, got + [r.msg.value.payload.value.text])
  }

  function IceOf(inbox: seq<Msg>): Ice {
    var r := ReadOf(inbox, IceCredentials);
    if r.msg.None? || r.msg.value.payload.None? || !r.msg.value.payload.value.Credentials?
    then Ice(false, None, [], r.rest)
    else CandsOf(r.rest, r.msg.value.payload, [])
  }

  // After what one side sends, the reading half holds exactly that, and takes not
  // one message more.
  lemma IceOfLog(p: Params, inbox: seq<Msg>)
    requires ValidParams(p) && IceLog(p) <= inbox
    ensures IceOf(inbox) == Ice(true, Some(Credentials(p.ufrag, p.pwd)), p.cands, inbox[|p.cands| + 2..])
  {
    var log := IceLog(p);
    assert log[0] == CredsMsg(p) && log[1..] == CandLog(p.cands) + [Sentinel];
    assert inbox[0] == log[0] && inbox[1..|log|] == log[1..];
    assert log[1..] <= inbox[1..];
    CandsOfLog(p.cands, inbox[1..], Some(Credentials(p.ufrag, p.pwd)), []);
    assert [] + p.cands == p.cands;
    assert inbox[1..][|p.cands| + 1..] == inbox[|p.cands| + 2..];
  }

  lemma {:induction false} CandsOfLog(cands: seq<string>, inbox: seq<Msg>, creds: Option<Blob>, got: seq<string>)
    requires (forall c :: c in cands ==> c != "") && CandLog(cands) + [Sentinel] <= inbox
    ensures CandsOf(inbox, creds, got) == Ice(true, creds, got + cands, inbox[|cands| + 1..])
    decreases |cands|
  {
    var log := CandLog(cands) + [Sentinel];
    assert inbox[0] == log[0];
    if cands == [] {
      assert got + cands == got;
    } else {
      assert CandLog(cands)[1..] == CandLog(cands[1..]);
      assert log[1..] == CandLog(cands[1..]) + [Sentinel] && inbox[1..|log|] == log[1..];
      assert log[1..] <= inbox[1..];
      assert cands[0] in cands && forall c :: c in cands[1..] ==> c in cands;
      CandsOfLog(cands[1..], inbox[1..], creds, got + [cands[0]]);
      assert (got + [cands[0]]) + cands[1..] == got + cands;
      assert inbox[1..][|cands[1..]| + 1..] == inbox[|cands| + 1..];
    }
  }

  lemma {:induction false} SenderSendsCands(n: Net)
    requires n.spc.SCands? && n.spc.i <= |n.sp.cands|
    ensures var sent := CandLog(n.sp.cands[n.spc.i..]) + [Sentinel];
      SenderFollows(n, n.(spc := SReadCreds, s2v := n.s2v + sent))
    decreases |n.sp.cands| - n.spc.i
  {
    var i, cands := n.spc.i, n.sp.cands;
    var n1 := SenderSaid(n);
    SenderSaysOn(n);
    if i < |cands| {
      SenderSendsCands(n1);
      assert CandLog(cands[i..]) == [CandMsg(cands[i])] + CandLog(cands[i + 1..]);
      assert (n.s2v + [CandMsg(cands[i])]) + (CandLog(cands[i + 1..]) + [Sentinel])
          == n.s2v + (CandLog(cands[i..]) + [Sentinel]);
      SenderFollowsOn(n, n1, n.(spc := SReadCreds, s2v := n.s2v + (CandLog(cands[i..]) + [Sentinel])));
    } else {
      assert CandLog(cands[i..]) + [Sentinel] == [Sentinel];
    }
  }

  lemma SenderSendsIce(n: Net)
    requires n.spc.SCreds?
    ensures SenderFollows(n, n.(spc := SReadCreds, s2v := n.s2v + IceLog(n.sp)))
  {
    var n1 := SenderSaid(n);
    SenderSaysOn(n);
    SenderSendsCands(n1);
    assert n.sp.cands[0..] == n.sp.cands;
    assert (n.s2v + [CredsMsg(n.sp)]) + (CandLog(n.sp.cands) + [Sentinel]) == n.s2v + IceLog(n.sp);
    SenderFollowsOn(n, n1, n.(spc := SReadCreds, s2v := n.s2v + IceLog(n.sp)));
  }

  // Where the script stands when `ice` is what it has read.
  ghost predicate SenderIced(n: Net, n': Net, ice: Ice) {
    && SenderFollows(n, n') && SenderOver(n') && (n'.spc.SSetUp? <==> ice.ok)
    && n'.v2s == ice.rest
    && n'.sk == n.sk.(creds := ice.creds, cands := ice.cands)
  }

  lemma {:induction false} SenderReadsCands(n: Net) returns (n': Net)
    requires n.spc.SReadCands?
    ensures SenderIced(n, n', CandsOf(n.v2s, n.sk.creds, n.sk.cands)) && n'.s2v == n.s2v
    decreases |n.v2s|
  {
    SenderHearsOn(n, IceCandidate);
    var n1 := SenderHears(n, IceCandidate);
    n' := n1;
    if n1.spc.SReadCands? && ReadOf(n.v2s, IceCandidate).msg.Some? {
      n' := SenderReadsCands(n1);
      SenderFollowsOn(n, n1, n');
    }
  }

  lemma SenderReadsIce(n: Net) returns (n': Net)
    requires n.spc.SReadCreds? && n.sk.creds.None? && n.sk.cands == []
    ensures SenderIced(n, n', IceOf(n.v2s)) && n'.s2v == n.s2v
  {
    SenderHearsOn(n, IceCredentials);
    var n1 := SenderHears(n, IceCredentials);
    n' := n1;
    if n1.spc.SReadCands? {
      n' := SenderReadsCands(n1);
      SenderFollowsOn(n, n1, n');
    }
  }

  // GatherAndConnect in this side's script.
  lemma SenderGathers(n: Net) returns (n': Net)
    requires n.spc.SCreds? && n.sk.creds.None? && n.sk.cands == []
    ensures SenderIced(n, n', IceOf(n.v2s)) && n'.s2v == n.s2v + IceLog(n.sp)
  {
    SenderSendsIce(n);
    var n1 := n.(spc := SReadCreds, s2v := n.s2v + IceLog(n.sp));
    n' := SenderReadsIce(n1);
    SenderFollowsOn(n, n1, n');
  }

  lemma {:induction false} ReceiverSendsCands(n: Net)
    requires n.rpc.RCands? && n.rpc.i <= |n.rp.cands|
    ensures var sent := CandLog(n.rp.cands[n.rpc.i..]) + [Sentinel];
      ReceiverFollows(n, n.(rpc := RReadCreds, r2v := n.r2v + sent))
    decreases |n.rp.cands| - n.rpc.i
  {
    var i, cands := n.rpc.i, n.rp.cands;
    var n1 := ReceiverSaid(n);
    ReceiverSaysOn(n);
    if i < |cands| {
      ReceiverSendsCands(n1);
      assert CandLog(cands[i..]) == [CandMsg(cands[i])] + CandLog(cands[i + 1..]);
      assert (n.r2v + [CandMsg(cands[i])]) + (CandLog(cands[i + 1..]) + [Sentinel])
          == n.r2v + (CandLog(cands[i..]) + [Sentinel]);
      ReceiverFollowsOn(n, n1, n.(rpc := RReadCreds, r2v := n.r2v + (CandLog(cands[i..]) + [Sentinel])));
    } else {
      assert CandLog(cands[i..]) + [Sentinel] == [Sentinel];
    }
  }

  lemma ReceiverSendsIce(n: Net)
    requires n.rpc.RCreds?
    ensures ReceiverFollows(n, n.(rpc := RReadCreds, r2v := n.r2v + IceLog(n.rp)))
  {
    var n1 := ReceiverSaid(n);
    ReceiverSaysOn(n);
    ReceiverSendsCands(n1);
    assert n.rp.cands[0..] == n.rp.cands;
    assert (n.r2v + [CredsMsg(n.rp)]) + (CandLog(n.rp.cands) + [Sentinel]) == n.r2v + IceLog(n.rp);
    ReceiverFollowsOn(n, n1, n.(rpc := RReadCreds, r2v := n.r2v + IceLog(n.rp)));
  }

  // Where the script stands when `ice` is what it has read.
  ghost predicate ReceiverIced(n: Net, n': Net, ice: Ice) {
    && ReceiverFollows(n, n') && ReceiverOver(n') && (n'.rpc.RSetUp? <==> ice.ok)
    && n'.v2r == ice.rest
    && n'.rk == n.rk.(creds := ice.creds, cands := ice.cands)
  }

  lemma {:induction false} ReceiverReadsCands(n: Net) returns (n': Net)
    requires n.rpc.RReadCands?
    ensures ReceiverIced(n, n', CandsOf(n.v2r, n.rk.creds, n.rk.cands)) && n'.r2v == n.r2v
    decreases |n.v2r|
  {
    ReceiverHearsOn(n, IceCandidate);
    var n1 := ReceiverHears(n, IceCandidate);
    n' := n1;
    if n1.rpc.RReadCands? && ReadOf(n.v2r, IceCandidate).msg.Some? {
      n' := ReceiverReadsCands(n1);
      ReceiverFollowsOn(n, n1, n');
    }
  }

  lemma ReceiverReadsIce(n: Net) returns (n': Net)
    requires n.rpc.RReadCreds? && n.rk.creds.None? && n.rk.cands == []
    ensures ReceiverIced(n, n', IceOf(n.v2r)) && n'.r2v == n.r2v
  {
    ReceiverHearsOn(n, IceCredentials);
    var n1 := ReceiverHears(n, IceCredentials);
    n' := n1;
    if n1.rpc.RReadCands? {
      n' := ReceiverReadsCands(n1);
      ReceiverFollowsOn(n, n1, n');
    }
  }

  // GatherAndConnect in this side's script.
  lemma ReceiverGathers(n: Net) returns (n': Net)
    requires n.rpc.RCreds? && n.rk.creds.None? && n.rk.cands == []
    ensures ReceiverIced(n, n', IceOf(n.v2r)) && n'.r2v == n.r2v + IceLog(n.rp)
  {
    ReceiverSendsIce(n);
    var n1 := n.(rpc := RReadCreds, r2v := n.r2v + IceLog(n.rp));
    n' := ReceiverReadsIce(n1);
    ReceiverFollowsOn(n, n1, n');
  }

  // ---- RunExchange ---------------------------------------------------------

  predicate IsShare(b: Blob, role: Role) {
    b.Share? && b.role == role
  }

  // The share that readUntil brings, if it is one.
  function ShareIn(g: Reading, role: Role): Option<Blob> {
    if g.msg.Some? && g.msg.value.payload.Some? && IsShare(g.msg.value.payload.value, role)
    then g.msg.value.payload else None
  }

  predicate Brings(g: Reading, b: Blob) {
    g.msg.Some? && g.msg.value.payload == Some(b)
  }

  // runSender in the model: what it sends, what it leaves, and the secret.
  lemma SenderExchanges(n: Net) returns (n': Net)
    requires n.spc.SStart? && n.sk == Nothing
    ensures SenderFollows(n, n') && n'.sk.creds == None && n'.sk.cands == []
    ensures if n'.sk.secret.Some? then n'.spc.SPing? else SenderOver(n') && !n'.spc.SSetUp?
    ensures var first, g := Wire(Relay, Some(SenderShare(n))), ReadOf(n.v2s, Relay);
      match ShareIn(g, RoleReceiver)
      case None => n'.s2v == n.s2v + [first] && n'.v2s == g.rest && n'.sk.secret == None
      case Some(share) =>
        var key, h := Key(n.code, SenderShare(n), share), ReadOf(g.rest, Relay);
        && n'.s2v == n.s2v + [first] + [Wire(Relay, Some(Confirm(RoleSender, key)))] && n'.v2s == h.rest
        && n'.sk.secret == if Brings(h, Confirm(RoleReceiver, key)) then Some(key) else None
  {
    var n1 := SenderSays(n, n);
    n' := SenderListens(n, n1, Relay);
    if n'.spc.SFinish? {
      var n2 := n';
      n' := SenderConfirms(n2);
      SenderFollowsOn(n, n2, n');
    }
  }

  lemma SenderConfirms(n: Net) returns (n': Net)
    requires n.spc.SFinish? && n.sk.share.Some? && n.sk == Nothing.(share := n.sk.share)
    ensures SenderFollows(n, n') && n'.sk.creds == None && n'.sk.cands == []
    ensures if n'.sk.secret.Some? then n'.spc.SPing? else SenderOver(n') && !n'.spc.SSetUp?
    ensures var key, h := SenderKey(n), ReadOf(n.v2s, Relay);
      && n'.s2v == n.s2v + [Wire(Relay, Some(Confirm(RoleSender, key)))] && n'.v2s == h.rest
      && n'.sk.secret == if Brings(h, Confirm(RoleReceiver, key)) then Some(key) else None
  {
    var n1 := SenderSays(n, n);
    n' := SenderListens(n, n1, Relay);
  }

  // runReceiver.
  lemma ReceiverExchanges(n: Net) returns (n': Net)
    requires n.rpc.RClient? && n.rk == Nothing
    ensures ReceiverFollows(n, n') && n'.rk.creds == None && n'.rk.cands == []
    ensures if n'.rk.secret.Some? then n'.rpc.RPing? else ReceiverOver(n') && !n'.rpc.RSetUp?
    ensures var reply, g := Wire(Relay, Some(ReceiverShare(n))), ReadOf(n.v2r, Relay);
      match ShareIn(g, RoleSender)
      case None => n'.r2v == n.r2v && n'.v2r == g.rest && n'.rk.secret == None
      case Some(share) =>
        var key, h := Key(n.rcode, share, ReceiverShare(n)), ReadOf(g.rest, Relay);
        && n'.v2r == h.rest
        && (if Brings(h, Confirm(RoleSender, key))
            then n'.rk.secret == Some(key)
              && n'.r2v == n.r2v + [reply] + [Wire(Relay, Some(Confirm(RoleReceiver, key)))]
            else n'.rk.secret == None && n'.r2v == n.r2v + [reply])
  {
    n' := ReceiverListens(n, n, Relay);
    if n'.rpc.RReply? {
      var n1 := n';
      n' := ReceiverReplies(n1);
      ReceiverFollowsOn(n, n1, n');
    }
  }

  lemma ReceiverReplies(n: Net) returns (n': Net)
    requires n.rpc.RReply? && n.rk.share.Some? && n.rk == Nothing.(share := n.rk.share)
    ensures ReceiverFollows(n, n') && n'.rk.creds == None && n'.rk.cands == []
    ensures if n'.rk.secret.Some? then n'.rpc.RPing? else ReceiverOver(n') && !n'.rpc.RSetUp?
    ensures var reply, key, h := Wire(Relay, Some(ReceiverShare(n))), ReceiverKey(n), ReadOf(n.v2r, Relay);
      && n'.v2r == h.rest
      && (if Brings(h, Confirm(RoleSender, key))
          then n'.rk.secret == Some(key)
            && n'.r2v == n.r2v + [reply] + [Wire(Relay, Some(Confirm(RoleReceiver, key)))]
          else n'.rk.secret == None && n'.r2v == n.r2v + [reply])
  {
    var n1 := ReceiverSays(n, n);
    n' := ReceiverListens(n, n1, Relay);
    if n'.rpc.RAnswer? {
      n' := ReceiverSays(n, n');
    }
  }
}
