// That an attempt can always be finished, when success means delivery, and what
// an unreadable resume file costs.
module TransferCompletion {
  import opened Manifests
  import opened TransferModel
  import opened TransferInvariant
  import opened TransferTheorems

  // ---- One file, step by step ----------------------------------------------

  // Both parties stand before entry i, which travels; the source is as scanned.
  ghost predicate Ready(c: Config, w: World, i: nat) {
    && w.spc == SLoop(i) && w.rpc == RLoop(i) && w.accepted == |w.streams|
    && i < |c.files| && c.files[i].path !in w.done && c.files[i].path !in w.skip
    && c.files[i].path in c.scanned && w.source == c.scanned
    && c.hash.Sum(c.scanned[c.files[i].path]) == c.files[i].digest
  }

  function Sent(w: World, i: nat, data: Bytes): World {
    w.(streams := w.streams + [Stream(i, data, true, "", false)], spc := SAck(i),
       hist := w.hist.(opens := w.hist.opens + 1))
  }

  function Opened(w: World, i: nat): World {
    w.(streams := w.streams + [Stream(i, [], false, "", false)], spc := SCopy(i, 0),
       hist := w.hist.(opens := w.hist.opens + 1))
  }

  lemma OpenOne(c: Config, w: World, i: nat)
    requires w.spc == SLoop(i) && i < |c.files| && c.files[i].path !in w.done && c.files[i].path in w.source
    ensures Reaches(c, w, Opened(w, i))
  {
    ReachesSelf(c, w);
    ReachesStep(c, w, w, S(OpenStream));
  }

  lemma WriteOne(c: Config, w: World, i: nat, before: seq<Stream>, data: Bytes)
    requires w.spc == SCopy(i, 0) && i < |c.files| && Content(c, w, i) == data
    requires w.streams == before + [Stream(i, [], false, "", false)]
    ensures Reaches(c, w, w.(streams := before + [Stream(i, data, false, "", false)], spc := SCopy(i, |data|)))
  {
    assert data[0..|data|] == data && [] + data == data;
    ReachesSelf(c, w);
    ReachesStep(c, w, w, S(WriteChunk(|data|)));
  }

  lemma EndOne(c: Config, w: World, i: nat, before: seq<Stream>, data: Bytes)
    requires w.spc == SCopy(i, |data|) && i < |c.files| && Content(c, w, i) == data
    requires w.streams == before + [Stream(i, data, false, "", false)]
    ensures Reaches(c, w, w.(streams := before + [Stream(i, data, true, "", false)], spc := SAck(i)))
  {
    ReachesSelf(c, w);
    ReachesStep(c, w, w, S(FinishWrite));
  }

  // sendFile up to the ack.
  lemma SendOne(c: Config, w: World, i: nat)
    requires Ready(c, w, i)
    ensures Reaches(c, w, Sent(w, i, c.scanned[c.files[i].path]))
  {
    var data := c.scanned[c.files[i].path];
    var w1 := Opened(w, i);
    OpenOne(c, w, i);
    WriteOne(c, w1, i, w.streams, data);
    var w2 := w1.(streams := w.streams + [Stream(i, data, false, "", false)], spc := SCopy(i, |data|));
    ReachesTrans(c, w, w1, w2);
    EndOne(c, w2, i, w.streams, data);
    ReachesTrans(c, w, w2, Sent(w, i, data));
  }

  // The receiver is in receiveFile for entry i with the whole file in its stream.
  ghost predicate Arrived(c: Config, w: World, i: nat, data: Bytes) {
    && HasCurrent(w) && i < |c.files|
    && Current(w) == Stream(i, data, true, "", false)
    && c.hash.Sum(data) == c.files[i].digest
  }

  // receiveFile from accept to digest check.
  lemma CreateOne(c: Config, w: World, i: nat)
    requires w.rpc == RAccepted(i) && i < |c.files| && HasCurrent(w)
    ensures Reaches(c, w, w.(disk := w.disk[c.files[i].path := []], rpc := RCopy(i, 0, c.hash.seed)))
  {
    ReachesSelf(c, w);
    ReachesStep(c, w, w, R(Create));
  }

  function Read(c: Config, w: World, i: nat, data: Bytes): World
    requires i < |c.files|
  {
    w.(disk := w.disk[c.files[i].path := data], rpc := RCopy(i, |data|, c.hash.Absorb(c.hash.seed, data)))
  }

  lemma ReadStep(c: Config, w: World, i: nat, data: Bytes)
    requires w.rpc == RCopy(i, 0, c.hash.seed) && i < |c.files| && HasCurrent(w) && Current(w).sent == data
    requires c.files[i].path in w.disk && w.disk[c.files[i].path] == []
    ensures Step(c, w, R(ReadChunk(|data|))) == Read(c, w, i, data)
  {
    assert data[0..|data|] == data && [] + data == data;
  }

  lemma ReadOne(c: Config, w: World, i: nat, data: Bytes)
    requires w.rpc == RCopy(i, 0, c.hash.seed) && i < |c.files| && HasCurrent(w) && Current(w).sent == data
    requires c.files[i].path in w.disk && w.disk[c.files[i].path] == []
    ensures Reaches(c, w, Read(c, w, i, data))
  {
    ReadStep(c, w, i, data);
    ReachesSelf(c, w);
    ReachesStep(c, w, w, R(ReadChunk(|data|)));
  }

  lemma CheckOne(c: Config, w: World)
    requires w.rpc.RCopy? && w.rpc.j < |c.files| && HasCurrent(w)
    requires Current(w).fin && w.rpc.pos == |Current(w).sent|
    requires c.hash.finish(w.rpc.state) == c.files[w.rpc.j].digest
    ensures Reaches(c, w, w.(rpc := RVerified(w.rpc.j)))
  {
    ReachesSelf(c, w);
    ReachesStep(c, w, w, R(CheckDigest));
  }

  lemma ReceiveOne(c: Config, w: World, i: nat, data: Bytes)
    requires w.rpc == RAccepted(i) && Arrived(c, w, i, data)
    ensures Reaches(c, w, w.(disk := w.disk[c.files[i].path := data], rpc := RVerified(i)))
  {
    var p := c.files[i].path;
    CreateOne(c, w, i);
    var w1 := w.(disk := w.disk[p := []], rpc := RCopy(i, 0, c.hash.seed));
    ReadOne(c, w1, i, data);
    assert w1.disk[p := data] == w.disk[p := data];
    var w2 := w.(disk := w.disk[p := data], rpc := RCopy(i, |data|, c.hash.Absorb(c.hash.seed, data)));
    ReachesTrans(c, w, w1, w2);
    CheckOne(c, w2);
    ReachesTrans(c, w, w2, w2.(rpc := RVerified(i)));
  }

  function SavedList(c: Config, w: World, i: nat): seq<Path>
    requires i < |c.files|
  {
    Load(w.resume) + [c.files[i].path]
  }

  // "ok", then the save.
  lemma AckOne(c: Config, w: World, i: nat)
    requires w.rpc == RVerified(i) && HasCurrent(w) && i < |c.files| && Current(w).ack == ""
    ensures Reaches(c, w, w.(streams := Reply(w, OkAck), rpc := RLoaded(i, SavedList(c, w, i))))
  {
    var w1 := w.(streams := Reply(w, OkAck), rpc := RAcked(i));
    assert Step(c, w, R(WriteAck)) == w1;
    ReachesSelf(c, w);
    ReachesStep(c, w, w, R(WriteAck));
    ReachesStep(c, w, w1, R(Reload(true)));
  }

  lemma SaveOne(c: Config, w: World, i: nat, list: seq<Path>)
    requires w.rpc == RLoaded(i, list) && HasCurrent(w) && i < |c.files|
    ensures Reaches(c, w, w.(resume := Listing(list), rpc := RSaved(i),
                             hist := w.hist.(recorded := w.hist.recorded + {c.files[i].path})))
  {
    var w1 := w.(resume := Corrupt, rpc := RSaving(i, list));
    assert Step(c, w, R(TruncateResume)) == w1;
    ReachesSelf(c, w);
    ReachesStep(c, w, w, R(TruncateResume));
    ReachesStep(c, w, w1, R(WriteResume));
  }

  // The deferred closes, and the sender reads the ack.
  lemma CloseOne(c: Config, w: World, i: nat)
    requires w.rpc == RSaved(i) && HasCurrent(w) && i < |c.files|
    ensures Reaches(c, w, w.(streams := EndReply(w), rpc := RLoop(i + 1),
                             hist := w.hist.(closed := w.hist.closed + {c.files[i].path})))
  {
    var w1 := w.(rpc := RFileClosed(i), hist := w.hist.(closed := w.hist.closed + {c.files[i].path}));
    CloseFileOne(c, w, i);
    ReachesStep(c, w, w1, R(CloseStream));
  }

  lemma CloseFileOne(c: Config, w: World, i: nat)
    requires w.rpc == RSaved(i) && HasCurrent(w) && i < |c.files|
    ensures Reaches(c, w, w.(rpc := RFileClosed(i),
                             hist := w.hist.(closed := w.hist.closed + {c.files[i].path})))
  {
    ReachesSelf(c, w);
    ReachesStep(c, w, w, R(CloseFile));
  }

  // What one file's worth of steps leaves: everything an attempt needs later.
  ghost predicate OneFurther(c: Config, w: World, w': World, i: nat)
    requires i < |c.files|
  {
    && w'.spc == SLoop(i + 1) && w'.rpc == RLoop(i + 1) && w'.accepted == |w'.streams|
    && w'.source == w.source && w'.done == w.done && w'.skip == w.skip
    && w'.hist.pristine == w.hist.pristine && w'.hist.blindLoad == w.hist.blindLoad
    && Load(w.resume) <= Load(w'.resume)
    && Untouched(w, w', c.files[i].path)
  }

  // No file but q's changes.
  ghost predicate Untouched(w: World, w': World, q: Path) {
    forall p :: p != q ==> (p in w'.disk <==> p in w.disk) && (p in w.disk ==> w'.disk[p] == w.disk[p])
  }

  function Finished(c: Config, w: World, i: nat): History
    requires i < |c.files|
  {
    w.hist.(recorded := w.hist.recorded + {c.files[i].path}, closed := w.hist.closed + {c.files[i].path})
  }

  // From the digest check to the receiver's next turn.
  lemma FinishOne(c: Config, w: World, i: nat) returns (w': World)
    requires w.rpc == RVerified(i) && HasCurrent(w) && i < |c.files| && Current(w).ack == ""
    ensures Reaches(c, w, w')
    ensures w' == w.(streams := w'.streams, resume := w'.resume,
                     rpc := RLoop(i + 1), hist := Finished(c, w, i))
    ensures w'.streams == w.streams[w.accepted - 1 := Current(w).(ack := OkAck, ackFin := true)]
    ensures Load(w'.resume) == SavedList(c, w, i)
  {
    assert Current(w).ack + OkAck == OkAck;
    AckOne(c, w, i);
    var w2 := w.(streams := Reply(w, OkAck), rpc := RLoaded(i, SavedList(c, w, i)));
    SaveOne(c, w2, i, w2.rpc.list);
    var w3 := w2.(resume := Listing(w2.rpc.list), rpc := RSaved(i),
                  hist := w2.hist.(recorded := w2.hist.recorded + {c.files[i].path}));
    ReachesTrans(c, w, w2, w3);
    CloseOne(c, w3, i);
    w' := w3.(streams := EndReply(w3), rpc := RLoop(i + 1), hist := Finished(c, w, i));
    ReachesTrans(c, w, w3, w');
    assert w'.streams == w.streams[w.accepted - 1 := Current(w).(ack := OkAck, ackFin := true)];
  }

  // From the sender's ack wait to the receiver's digest check.
  lemma TakeOne(c: Config, w: World, i: nat, data: Bytes)
    requires w.rpc == RLoop(i) && i < |c.files| && c.files[i].path !in w.skip
    requires w.streams != [] && w.accepted == |w.streams| - 1
    requires w.streams[w.accepted] == Stream(i, data, true, "", false) && c.hash.Sum(data) == c.files[i].digest
    ensures Reaches(c, w, w.(accepted := |w.streams|, disk := w.disk[c.files[i].path := data], rpc := RVerified(i)))
  {
    var w1 := w.(accepted := w.accepted + 1, rpc := RAccepted(i));
    assert Step(c, w, R(Accept)) == w1;
    ReachesSelf(c, w);
    ReachesStep(c, w, w, R(Accept));
    ReceiveOne(c, w1, i, data);
    ReachesTrans(c, w, w1, w1.(disk := w1.disk[c.files[i].path := data], rpc := RVerified(i)));
  }

  lemma OneEntry(c: Config, w: World, i: nat) returns (w': World)
    requires Ready(c, w, i)
    ensures Reaches(c, w, w') && OneFurther(c, w, w', i)
  {
    var data := c.scanned[c.files[i].path];
    SendOne(c, w, i);
    var w1 := Sent(w, i, data);
    TakeOne(c, w1, i, data);
    var w2 := w1.(accepted := |w1.streams|, disk := w1.disk[c.files[i].path := data], rpc := RVerified(i));
    ReachesTrans(c, w, w1, w2);
    var w3 := FinishOne(c, w2, i);
    ReachesTrans(c, w, w2, w3);
    w' := w3.(spc := SLoop(i + 1));
    assert Step(c, w3, S(TakeAck)) == w';
    ReachesStep(c, w, w3, S(TakeAck));
  }

  // ---- Whole attempts ------------------------------------------------------

  // Both parties stand before entry i of an attempt, the source as scanned.
  ghost predicate Meeting(c: Config, w: World, i: nat) {
    && c.Valid() && w.source == c.scanned
    && w.spc == SLoop(i) && w.rpc == RLoop(i) && w.accepted == |w.streams|
    && i <= |c.files| && w.done == w.skip
  }

  // Past the entries below k: listed paths stay listed, nothing is read blindly,
  // and what both sides skip is not written.
  ghost predicate Advanced(c: Config, w: World, w': World, k: nat) {
    && Meeting(c, w', k) && Reaches(c, w, w')
    && w'.skip == w.skip && w'.hist.blindLoad == w.hist.blindLoad && w'.hist.pristine == w.hist.pristine
    && Load(w.resume) <= Load(w'.resume)
    && (forall p :: p in w.skip ==> (p in w'.disk <==> p in w.disk) && (p in w.disk ==> w'.disk[p] == w.disk[p]))
  }

  lemma AdvanceOne(c: Config, w: World, i: nat) returns (w': World)
    requires Meeting(c, w, i) && i < |c.files|
    ensures Advanced(c, w, w', i + 1)
  {
    if c.files[i].path in w.skip {
      var w1 := w.(spc := SLoop(i + 1));
      assert Step(c, w, S(SkipSent)) == w1;
      w' := w1.(rpc := RLoop(i + 1));
      assert Step(c, w1, R(SkipReceived)) == w';
      ReachesSelf(c, w);
      ReachesStep(c, w, w, S(SkipSent));
      ReachesStep(c, w, w1, R(SkipReceived));
    } else {
      w' := OneEntry(c, w, i);
    }
  }

  lemma {:induction false} Advance(c: Config, w: World, i: nat, k: nat) returns (w': World)
    requires Meeting(c, w, i) && i <= k <= |c.files|
    ensures Advanced(c, w, w', k)
    decreases k - i
  {
    if i == k {
      ReachesSelf(c, w);
      w' := w;
    } else {
      var w1 := AdvanceOne(c, w, i);
      w' := Advance(c, w1, i + 1, k);
      ReachesTrans(c, w, w1, w');
    }
  }

  // Before the receiver's answer to an offer.
  ghost predicate Asked(w: World) {
    w.spc == SOffered && w.offered && w.rpc == RManifest && w.streams == [] && w.accepted == 0
  }

  // From the answer to the first entry.
  lemma Handshake(c: Config, w: World, readable: bool) returns (w': World)
    requires c.Valid() && Asked(w)
    ensures Reaches(c, Step(c, w, R(Respond(readable))), w')
    ensures w'.resume == w.resume && w'.disk == w.disk && w'.source == w.source
    ensures w'.hist.pristine == w.hist.pristine
    ensures w'.skip == LoadIf(readable, w.resume) == w'.done
    ensures w'.spc == SLoop(0) && w'.rpc == RLoop(0) && w'.accepted == |w'.streams|
  {
    var w1 := Step(c, w, R(Respond(readable)));
    w' := Step(c, w1, S(TakeResponse));
    ReachesSelf(c, w1);
    ReachesStep(c, w1, w1, S(TakeResponse));
  }

  // The user changes the source.
  lemma Edited(c: Config, w: World, contents: map<Path, Bytes>)
    ensures Reaches(c, w, w.(source := contents, hist := w.hist.(pristine := false)))
  {
    ReachesSelf(c, w);
    ReachesStep(c, w, w, EditSource(contents));
  }

  // A whole attempt in which nothing goes wrong: what the listing names is
  // skipped and left alone.
  lemma WholeAttempt(c: Config, w: World) returns (w': World)
    requires c.Valid() && w.source == c.scanned && w.spc.SWait? && w.rpc.RDown?
    ensures Reaches(c, w, w') && w'.spc == SLoop(|c.files|) && w'.rpc == RLoop(|c.files|)
    ensures w'.hist.pristine == w.hist.pristine
    ensures forall p :: p in Load(w.resume) ==>
      (p in w'.disk <==> p in w.disk) && (p in w.disk ==> w'.disk[p] == w.disk[p])
  {
    var w1 := Step(c, w, Connect);
    var w2 := Step(c, w1, S(SendOffer));
    ReachesSelf(c, w);
    ReachesStep(c, w, w, Connect);
    ReachesStep(c, w, w1, S(SendOffer));
    ReachesStep(c, w, w2, R(Respond(true)));
    var w3 := Handshake(c, w2, true);
    ReachesTrans(c, w, Step(c, w2, R(Respond(true))), w3);
    w' := Advance(c, w3, 0, |c.files|);
    ReachesTrans(c, w, w3, w');
  }

  // Nothing the two parties did earlier can wedge them: whenever the sender
  // waits, no receiver runs and the source is as scanned, a new attempt can run
  // to success on both sides.
  lemma CanAlwaysComplete(c: Config, w: World, acts: seq<Action>)
    requires Start(c, w)
    requires var w1 := Exec(c, w, acts); w1.source == c.scanned && w1.spc.SWait? && w1.rpc.RDown?
    ensures exists w' :: Reaches(c, Exec(c, w, acts), w') && w'.spc.SDone? && w'.rpc.RSuccess?
  {
    var w1 := Exec(c, w, acts);
    var w2 := WholeAttempt(c, w1);
    FinishBoth(c, w1, w2);
  }

  lemma FinishBoth(c: Config, w1: World, w: World)
    requires Reaches(c, w1, w) && w.spc == SLoop(|c.files|) && w.rpc == RLoop(|c.files|)
    ensures exists w' :: Reaches(c, w1, w') && w'.spc.SDone? && w'.rpc.RSuccess?
  {
    var w2 := Step(c, w, S(FinishSending));
    ReachesStep(c, w1, w, S(FinishSending));
    ReachesStep(c, w1, w2, R(FinishReceiving(true)));
    assert Step(c, w2, R(FinishReceiving(true))).rpc.RSuccess?;
  }

  // ---- When nil means delivered --------------------------------------------

  // Exactly when, seen before the first attempt: SendFiles returning nil means
  // delivered in every run iff each manifest entry the resume file lists is
  // already there. What else the file lists does not matter.
  lemma NilMeansDeliveredIff(c: Config, w: World)
    requires Start(c, w)
    ensures (forall w' :: Reaches(c, w, w') && w'.spc.SDone? ==> Delivered(c, w'))
       <==> (forall i :: 0 <= i < |c.files| && c.files[i].path in Load(w.resume) ==> Good(c, w, i))
  {
    if forall i :: 0 <= i < |c.files| && c.files[i].path in Load(w.resume) ==> Good(c, w, i) {
      forall w' | Reaches(c, w, w') && w'.spc.SDone? ensures Delivered(c, w') {
        var acts :| Sighted(acts) && Exec(c, w, acts) == w';
        SightedStaysSighted(c, w, acts);
        SendNilMeansDelivered(c, w, acts);
      }
    } else {
      var i :| 0 <= i < |c.files| && c.files[i].path in Load(w.resume) && !Good(c, w, i);
      ListedStaysBad(c, w, i);
    }
  }

  lemma ListedStaysBad(c: Config, w: World, i: nat)
    requires Start(c, w) && i < |c.files| && c.files[i].path in Load(w.resume) && !Good(c, w, i)
    ensures exists w' :: Reaches(c, w, w') && w'.spc.SDone? && !Delivered(c, w')
  {
    var w1 := Restored(c, w);
    var w2 := WholeAttempt(c, w1);
    ReachesTrans(c, w, w1, w2);
    ReachesStep(c, w, w2, S(FinishSending));
    var w3 := w2.(spc := SDone);
    assert Step(c, w2, S(FinishSending)) == w3;
    assert !Good(c, w3, i);
  }

  // The source put back to what was scanned, if it was ever touched.
  lemma Restored(c: Config, w: World) returns (w': World)
    requires Start(c, w)
    ensures Reaches(c, w, w') && w'.source == c.scanned
    ensures w' == w.(source := c.scanned)
  {
    w' := w.(source := c.scanned);
    if w.hist.pristine {
      ReachesSelf(c, w);
    } else {
      assert w.hist.(pristine := false) == w.hist;
      Edited(c, w, c.scanned);
    }
  }

  // ---- The price of reading blindly ----------------------------------------

  // The source file of entry j now holds other bytes, and all of them arrive.
  lemma Spoiled(c: Config, w: World, j: nat, bad: Bytes) returns (w': World)
    requires w.spc == SLoop(j) && w.rpc == RLoop(j) && w.accepted == |w.streams| && j < |c.files|
    requires c.files[j].path !in w.done && c.files[j].path !in w.skip
    requires c.files[j].path in w.source && w.source[c.files[j].path] == bad
    ensures Reaches(c, w, w') && w'.resume == w.resume
    ensures c.files[j].path in w'.disk && w'.disk[c.files[j].path] == bad
  {
    var w1 := Opened(w, j);
    OpenOne(c, w, j);
    WriteOne(c, w1, j, w.streams, bad);
    var w2 := w1.(streams := w.streams + [Stream(j, bad, false, "", false)], spc := SCopy(j, |bad|));
    ReachesTrans(c, w, w1, w2);
    var w3 := w2.(accepted := w2.accepted + 1, rpc := RAccepted(j));
    assert Step(c, w2, R(Accept)) == w3;
    ReachesStep(c, w, w2, R(Accept));
    CreateOne(c, w3, j);
    var w4 := w3.(disk := w3.disk[c.files[j].path := []], rpc := RCopy(j, 0, c.hash.seed));
    ReachesTrans(c, w, w3, w4);
    ReadOne(c, w4, j, bad);
    w' := Read(c, w4, j, bad);
    ReachesTrans(c, w, w4, w');
  }

  // The receiver asked for every file, and both sides have come to entry j.
  lemma BlindUpTo(c: Config, w: World, j: nat) returns (w': World)
    requires c.Valid() && Asked(w) && j < |c.files|
    ensures Reaches(c, Step(c, w, R(Respond(false))), w')
    ensures w'.spc == SLoop(j) && w'.rpc == RLoop(j) && w'.accepted == |w'.streams|
    ensures w'.done == [] && w'.skip == []
    ensures c.files[j].path in Load(w.resume) ==> c.files[j].path in Load(w'.resume)
  {
    var w0 := Step(c, w, R(Respond(false)));
    var w1 := Handshake(c, w, false);
    Edited(c, w1, c.scanned);
    var w2 := w1.(source := c.scanned, hist := w1.hist.(pristine := false));
    ReachesTrans(c, w0, w1, w2);
    w' := Advance(c, w2, 0, j);
    ReachesTrans(c, w0, w2, w');
  }

  // A receiver that could not read its listing receives its entries again. If
  // the source of a listed one has changed, its good copy is overwritten while
  // the listing still names it.
  lemma BlindLoadCanLie(c: Config, w: World, j: nat, bad: Bytes) returns (w': World)
    requires c.Valid() && Asked(w)
    requires j < |c.files| && c.files[j].path in Load(w.resume) && c.hash.Sum(bad) != c.files[j].digest
    ensures Reaches(c, Step(c, w, R(Respond(false))), w') && !ResumeSound(c, w')
  {
    var w0 := Step(c, w, R(Respond(false)));
    var w3 := BlindUpTo(c, w, j);
    var spoiled := c.scanned[c.files[j].path := bad];
    Edited(c, w3, spoiled);
    var w4 := w3.(source := spoiled, hist := w3.hist.(pristine := false));
    ReachesTrans(c, w0, w3, w4);
    w' := Spoiled(c, w4, j, bad);
    ReachesTrans(c, w0, w4, w');
    assert c.files[j].path in Load(w'.resume);
    assert !Good(c, w', j);
  }

  // Exactly when answering an offer keeps the listing true ever after: iff the
  // resume file could be read or lists no manifest entry. (The digest is not
  // one that fits every content.)
  lemma RespondKeepsSoundIff(c: Config, w: World, acts: seq<Action>, readable: bool)
    requires Init(c, w)
    requires var w1 := Exec(c, w, acts); !w1.hist.blindLoad && Asked(w1)
    requires forall i :: 0 <= i < |c.files| ==> exists bad :: c.hash.Sum(bad) != c.files[i].digest
    ensures
      var w1 := Exec(c, w, acts);
      (forall w2 :: Reaches(c, Step(c, w1, R(Respond(readable))), w2) ==> ResumeSound(c, w2)) <==>
      (readable || forall i :: 0 <= i < |c.files| ==> c.files[i].path !in Load(w1.resume))
  {
    var w1 := Exec(c, w, acts);
    if readable || forall i :: 0 <= i < |c.files| ==> c.files[i].path !in Load(w1.resume) {
      InitHasInv(c, w);
      RunKeeps(c, w, acts);
      StaysSound(c, w1, readable);
    } else {
      var j :| 0 <= j < |c.files| && c.files[j].path in Load(w1.resume);
      var bad :| c.hash.Sum(bad) != c.files[j].digest;
      var w2 := BlindLoadCanLie(c, w1, j, bad);
    }
  }

  lemma StaysSound(c: Config, w: World, readable: bool)
    requires Inv(c, w) && !w.hist.blindLoad && Asked(w)
    requires readable || forall i :: 0 <= i < |c.files| ==> c.files[i].path !in Load(w.resume)
    ensures forall w' :: Reaches(c, Step(c, w, R(Respond(readable))), w') ==> ResumeSound(c, w')
  {
    var w0 := Step(c, w, R(Respond(readable)));
    StepKeeps(c, w, R(Respond(readable)));
    assert !w0.hist.blindLoad;
    forall w' | Reaches(c, w0, w') ensures ResumeSound(c, w') {
      var more :| Sighted(more) && Exec(c, w0, more) == w';
      RunKeeps(c, w0, more);
      SightedStaysSighted(c, w0, more);
    }
  }

  lemma {:induction false} SightedStaysSighted(c: Config, w: World, acts: seq<Action>)
    requires Sighted(acts) && !w.hist.blindLoad
    ensures !Exec(c, w, acts).hist.blindLoad
    decreases |acts|
  {
    if acts != [] {
      var front := acts[..|acts| - 1];
      assert acts == front + [acts[|acts| - 1]];
      SightedStaysSighted(c, w, front);
      SightedStep(c, Exec(c, w, front), acts[|acts| - 1]);
    }
  }

  lemma SightedStep(c: Config, w: World, a: Action)
    requires a != R(Respond(false)) && !w.hist.blindLoad
    ensures !Step(c, w, a).hist.blindLoad
  {
    if Enabled(c, w, a) {
      if a.S? {
        SenderFrames(c, w, a.sa);
      } else if a.R? {
        OnlyRespondBlinds(c, w, a.ra);
      }
    }
  }

  lemma OnlyRespondBlinds(c: Config, w: World, a: ReceiverAction)
    requires ReceiverEnabled(c, w, a) && a != Respond(false)
    ensures ReceiverApply(c, w, a).hist.blindLoad == w.hist.blindLoad
  {
  }
}
