// What every step of the transfer machine keeps.
module TransferInvariant {
  import opened Manifests
  import opened TransferModel

  // ---- Counting the entries that still travel -----------------------------

  ghost predicate Pending(c: Config, skip: seq<Path>, i: nat) {
    i < |c.files| && c.files[i].path !in skip
  }

  // How many entries before index i are not skipped.
  ghost function Pend(c: Config, skip: seq<Path>, i: nat): nat
    requires i <= |c.files|
  {
    if i == 0 then 0
    else Pend(c, skip, i - 1) + if Pending(c, skip, i - 1) then 1 else 0
  }

  lemma {:induction false} PendMonotone(c: Config, skip: seq<Path>, i: nat, j: nat)
    requires i <= j <= |c.files|
    ensures Pend(c, skip, i) <= Pend(c, skip, j)
    decreases j
  {
    if i < j { PendMonotone(c, skip, i, j - 1); }
  }

  // Two pending entries with the same rank are the same entry.
  lemma {:induction false} PendInjective(c: Config, skip: seq<Path>, i: nat, j: nat)
    requires Pending(c, skip, i) && Pending(c, skip, j)
    requires Pend(c, skip, i) == Pend(c, skip, j)
    ensures i == j
  {
    if i < j {
      PendMonotone(c, skip, i + 1, j);
    } else if j < i {
      PendMonotone(c, skip, j + 1, i);
    }
  }

  // ---- The invariant, one concern at a time -------------------------------

  ghost predicate Acked(s: Stream) {
    s.ackFin && s.ack == OkAck
  }

  // The k-th stream carries the k-th entry that is not skipped.
  ghost predicate StreamShape(c: Config, w: World) {
    forall k :: 0 <= k < |w.streams| ==>
      Pending(c, w.skip, w.streams[k].entry) && Pend(c, w.skip, w.streams[k].entry) == k
  }

  // Every stream but the newest has been acknowledged and ended.
  ghost predicate OneAhead(w: World) {
    forall k :: 0 <= k < |w.streams| - 1 ==> Acked(w.streams[k])
  }

  ghost predicate AllAcked(w: World) {
    forall k :: 0 <= k < |w.streams| ==> Acked(w.streams[k])
  }

  ghost predicate ManifestShape(w: World) {
    && (w.resp.Some? ==> w.resp.value == w.skip)
    && (w.resp.None? ==> w.streams == [] && w.accepted == 0 && (w.rpc.RDown? || w.rpc.RManifest?))
    && (w.rpc.RManifest? ==> w.resp.None?)
  }

  ghost predicate SenderShape(c: Config, w: World) {
    match w.spc
    case SWait => true
    case SExit => true
    case SConnected => w.streams == []
    case SOffered => w.streams == []
    case SLoop(i) =>
      && w.resp.Some? && w.done == w.skip
      && i <= |c.files| && |w.streams| == Pend(c, w.skip, i) && AllAcked(w)
    case SCopy(i, off) =>
      && w.resp.Some? && w.done == w.skip
      && Pending(c, w.skip, i) && |w.streams| == Pend(c, w.skip, i) + 1
      && w.streams[|w.streams| - 1].entry == i && !w.streams[|w.streams| - 1].fin
      && (w.hist.pristine ==> off == |w.streams[|w.streams| - 1].sent|)
    case SAck(i) =>
      && w.resp.Some? && w.done == w.skip
      && Pending(c, w.skip, i) && |w.streams| == Pend(c, w.skip, i) + 1
      && w.streams[|w.streams| - 1].entry == i && w.streams[|w.streams| - 1].fin
    case SDone => w.resp.Some? && |w.streams| == Pend(c, w.skip, |c.files|) && AllAcked(w)
  }

  ghost predicate ReceiverShape(c: Config, w: World) {
    && w.accepted <= |w.streams|
    && (forall k :: w.accepted <= k < |w.streams| ==> w.streams[k].ack == "" && !w.streams[k].ackFin)
    && (w.rpc.RLoop? ==> w.rpc.j <= |c.files| && w.accepted == Pend(c, w.skip, w.rpc.j))
    && (w.rpc.InFile() ==>
      && Pending(c, w.skip, w.rpc.j)
      && w.accepted == Pend(c, w.skip, w.rpc.j) + 1
      && Current(w).entry == w.rpc.j
      && !Current(w).ackFin
      && (if w.rpc.RAccepted? || w.rpc.RCopy? || w.rpc.RVerified? then Current(w).ack == ""
          else if w.rpc.RUnwind? then Current(w).ack != OkAck
          else Current(w).ack == OkAck))
  }

  // An ack the sender can read to its end means: on disk, verified, recorded.
  ghost predicate AckMeaning(c: Config, w: World)
    requires c.Valid()
  {
    forall k :: 0 <= k < |w.streams| && Acked(w.streams[k]) ==>
      && w.streams[k].entry < |c.files|
      && Good(c, w, w.streams[k].entry)
      && c.files[w.streams[k].entry].path in w.hist.recorded * w.hist.closed
  }

  ghost predicate PristineShape(c: Config, w: World)
    requires c.Valid()
  {
    w.hist.pristine ==>
      && w.source == c.scanned
      && forall k :: 0 <= k < |w.streams| ==> CarriesScanned(c, w.streams[k])
  }

  // The stream's bytes are a prefix, and when ended all, of what was scanned.
  ghost predicate CarriesScanned(c: Config, s: Stream)
    requires c.Valid()
  {
    && s.entry < |c.files|
    && s.sent <= c.scanned[c.files[s.entry].path]
    && (s.fin ==> s.sent == c.scanned[c.files[s.entry].path])
  }

  // The file being received.
  ghost predicate FileShape(c: Config, w: World)
    requires c.Valid()
  {
    && (w.rpc.RCopy? ==>
      && w.rpc.j < |c.files| && HasCurrent(w) && c.files[w.rpc.j].path in w.disk
      && w.rpc.pos <= |Current(w).sent|
      && w.disk[c.files[w.rpc.j].path] == Current(w).sent[..w.rpc.pos]
      && w.rpc.state == c.hash.Absorb(c.hash.seed, w.disk[c.files[w.rpc.j].path]))
    && (w.rpc.RVerified? || w.rpc.RAcked? || w.rpc.RLoaded? || w.rpc.RSaving? || w.rpc.RSaved? || w.rpc.RFileClosed? ==>
      w.rpc.j < |c.files| && Good(c, w, w.rpc.j))
    && (w.rpc.RSaved? || w.rpc.RFileClosed? ==> c.files[w.rpc.j].path in w.hist.recorded)
    && (w.rpc.RFileClosed? ==> c.files[w.rpc.j].path in w.hist.closed)
  }

  // `list` names no entry from index j on that is still to be received.
  ghost predicate Avoids(c: Config, skip: seq<Path>, list: seq<Path>, j: nat) {
    forall i :: j <= i < |c.files| && c.files[i].path !in skip ==> c.files[i].path !in list
  }

  // The resume state never claims a file that is, or is about to be, rewritten.
  ghost predicate ListShape(c: Config, w: World)
    requires c.Valid()
  {
    !w.hist.blindLoad ==>
      && AllGood(c, w, Load(w.resume))
      && (w.resp.Some? ==> AllGood(c, w, w.skip))
      && (w.rpc.Receiving() ==>
          Avoids(c, w.skip, Load(w.resume), if w.rpc.RSaved? || w.rpc.RFileClosed? then w.rpc.j + 1 else w.rpc.j))
      && (w.rpc.RLoaded? || w.rpc.RSaving? ==>
          AllGood(c, w, w.rpc.list) && Avoids(c, w.skip, w.rpc.list, w.rpc.j + 1))
  }

  // Every entry the receiver has passed and did not skip is on disk.
  ghost predicate PassedShape(c: Config, w: World)
    requires c.Valid()
  {
    forall i :: 0 <= i < Passed(c, w) && c.files[i].path !in w.skip ==> Good(c, w, i)
  }

  // How far ReceiveFiles has got in this process.
  ghost function Passed(c: Config, w: World): (n: nat)
    ensures n <= |c.files|
  {
    if w.rpc.RSuccess? then |c.files|
    else if w.rpc.Receiving() && w.rpc.j <= |c.files| then w.rpc.j
    else 0
  }

  // All of this holds whatever resume state the run started from.
  ghost predicate Core(c: Config, w: World) {
    && c.Valid()
    && ManifestShape(w)
    && StreamShape(c, w)
    && OneAhead(w)
    && ReceiverShape(c, w)
    && SenderShape(c, w)
    && PristineShape(c, w)
    && FileShape(c, w)
    && AckMeaning(c, w)
    && PassedShape(c, w)
  }

  ghost predicate Inv(c: Config, w: World) {
    Core(c, w) && ListShape(c, w)
  }

  // ---- Preservation --------------------------------------------------------

  lemma AllGoodKept(c: Config, w: World, w': World, list: seq<Path>)
    requires c.Valid() && w'.disk == w.disk && (w'.hist.pristine ==> w.hist.pristine)
    requires AllGood(c, w, list)
    ensures AllGood(c, w', list)
  {
  }

  lemma AllGoodElsewhere(c: Config, w: World, w': World, list: seq<Path>, q: Path)
    requires c.Valid() && (w'.hist.pristine ==> w.hist.pristine)
    requires forall p :: p in w.disk && p != q ==> p in w'.disk && w'.disk[p] == w.disk[p]
    requires AllGood(c, w, list) && q !in list
    ensures AllGood(c, w', list)
  {
  }

  // A sender step leaves the receiver's fields alone and touches at most the
  // sending half of the newest stream, or adds one.
  ghost predicate SenderFrame(w: World, w': World) {
    && w'.disk == w.disk && w'.resume == w.resume && w'.rpc == w.rpc && w'.skip == w.skip
    && w'.resp == w.resp && w'.accepted == w.accepted
    && w'.hist.recorded == w.hist.recorded && w'.hist.closed == w.hist.closed
    && (w'.hist.pristine ==> w.hist.pristine)
    && w'.hist.blindLoad == w.hist.blindLoad && w'.hist.cleanSaves == w.hist.cleanSaves
    && w'.hist.succeeded == w.hist.succeeded && w'.hist.attempts == w.hist.attempts
    && w'.hist.opens - w.hist.opens == |w'.streams| - |w.streams|
    && |w.streams| <= |w'.streams|
    && (forall k :: 0 <= k < |w.streams| ==> Extends(w.streams[k], w'.streams[k]))
    && (forall k :: |w.streams| <= k < |w'.streams| ==>
      w'.streams[k].ack == "" && !w'.streams[k].ackFin)
  }

  ghost predicate Extends(s: Stream, s': Stream) {
    && s'.entry == s.entry && s'.ack == s.ack && s'.ackFin == s.ackFin
    && s.sent <= s'.sent && (s.fin ==> s'.fin)
  }

  lemma SenderFrames(c: Config, w: World, a: SenderAction)
    requires SenderEnabled(c, w, a)
    ensures SenderFrame(w, SenderApply(c, w, a))
  {
    if a.WriteChunk? || a.FinishWrite? || a.SourceFault? {
      NewestStreamFrames(c, w, a);
    }
  }

  lemma NewestStreamFrames(c: Config, w: World, a: SenderAction)
    requires SenderEnabled(c, w, a) && (a.WriteChunk? || a.FinishWrite? || a.SourceFault?)
    ensures SenderFrame(w, SenderApply(c, w, a))
  {
  }

  lemma SenderKeepsSender(c: Config, w: World, a: SenderAction)
    requires ManifestShape(w) && StreamShape(c, w) && OneAhead(w) && SenderShape(c, w) && SenderEnabled(c, w, a)
    ensures SenderShape(c, SenderApply(c, w, a))
  {
  }

  lemma SenderKeepsStreams(c: Config, w: World, a: SenderAction)
    requires ManifestShape(w) && StreamShape(c, w) && OneAhead(w) && SenderShape(c, w) && SenderEnabled(c, w, a)
    ensures var w' := SenderApply(c, w, a);
      ManifestShape(w') && StreamShape(c, w') && OneAhead(w')
  {
  }

  lemma SenderKeepsPristine(c: Config, w: World, a: SenderAction)
    requires c.Valid() && SenderShape(c, w) && PristineShape(c, w) && SenderEnabled(c, w, a)
    ensures PristineShape(c, SenderApply(c, w, a))
  {
    if a.WriteChunk? {
      WritingKeepsPristine(c, w, a.n);
    }
  }

  // What is written next is what comes next in the scanned bytes.
  lemma WritingKeepsPristine(c: Config, w: World, n: nat)
    requires c.Valid() && SenderShape(c, w) && PristineShape(c, w) && SenderEnabled(c, w, WriteChunk(n))
    ensures PristineShape(c, SenderApply(c, w, WriteChunk(n)))
  {
    var w', last := SenderApply(c, w, WriteChunk(n)), |w.streams| - 1;
    if w.hist.pristine {
      var all, s := c.scanned[c.files[w.spc.i].path], w.streams[last];
      assert s.sent == all[..|s.sent|];
      assert s.sent + all[|s.sent|..|s.sent| + n] == all[..|s.sent| + n];
      assert CarriesScanned(c, w'.streams[last]);
    }
  }

  lemma SenderKeepsReceiver(c: Config, w: World, w': World)
    requires Core(c, w) && SenderFrame(w, w')
    ensures ReceiverShape(c, w') && FileShape(c, w') && AckMeaning(c, w') && PassedShape(c, w')
  {
  }

  lemma SenderKeepsList(c: Config, w: World, w': World)
    requires Inv(c, w) && SenderFrame(w, w')
    ensures ListShape(c, w')
  {
  }

  // A receiver step leaves the sender's fields and the sending halves alone, and
  // never touches a stream it has ended.
  ghost predicate ReceiverFrame(w: World, w': World) {
    && w'.spc == w.spc && w'.done == w.done && w'.source == w.source
    && w'.hist.pristine == w.hist.pristine
    && w.hist.recorded <= w'.hist.recorded && w.hist.closed <= w'.hist.closed
    && w'.hist.attempts == w.hist.attempts && w'.hist.opens == w.hist.opens
    && (w.hist.blindLoad ==> w'.hist.blindLoad)
    && (w.resp.Some? ==> w'.resp == w.resp && w'.skip == w.skip)
    && |w'.streams| == |w.streams|
    && (forall k :: 0 <= k < |w.streams| ==>
      && w'.streams[k].entry == w.streams[k].entry
      && w'.streams[k].sent == w.streams[k].sent && w'.streams[k].fin == w.streams[k].fin
      && (w.streams[k].ackFin ==> w'.streams[k] == w.streams[k]))
  }

  lemma ReceiverKeepsSender(c: Config, w: World, w': World)
    requires ManifestShape(w) && StreamShape(c, w) && OneAhead(w) && SenderShape(c, w) && ReceiverFrame(w, w')
    ensures StreamShape(c, w') && OneAhead(w') && SenderShape(c, w')
  {
  }

  lemma ReceiverKeepsPristine(c: Config, w: World, w': World)
    requires c.Valid() && PristineShape(c, w) && ReceiverFrame(w, w')
    ensures PristineShape(c, w')
  {
  }

  // The receiver's steps: writing the file, replying, saving the resume state,
  // closing, and the loop around them.
  predicate Copying(a: ReceiverAction) {
    a.Create? || a.ReadChunk? || a.CheckDigest?
  }

  predicate Replying(a: ReceiverAction) {
    a.CreateFail? || a.CopyFail? || a.WriteAck? || a.AckFail?
  }

  predicate Saving(a: ReceiverAction) {
    a.Reload? || a.TruncateResume? || a.SaveRefused? || a.WriteResume? || a.SaveFail?
  }

  predicate Closing(a: ReceiverAction) {
    a.CloseFile? || a.CloseStream? || a.UnwindClose?
  }

  predicate Looping(a: ReceiverAction) {
    a.Respond? || a.SkipReceived? || a.Accept? || a.FinishReceiving? || a.ReceiverStop?
  }

  lemma CopyingFrames(c: Config, w: World, a: ReceiverAction)
    requires ManifestShape(w) && ReceiverShape(c, w)
    requires ReceiverEnabled(c, w, a) && Copying(a)
    ensures ReceiverFrame(w, ReceiverApply(c, w, a)) && ManifestShape(ReceiverApply(c, w, a))
  {
  }

  lemma CopyingKeepsReceiver(c: Config, w: World, a: ReceiverAction)
    requires ManifestShape(w) && StreamShape(c, w) && ReceiverShape(c, w)
    requires ReceiverEnabled(c, w, a) && Copying(a)
    ensures ReceiverShape(c, ReceiverApply(c, w, a))
  {
    if a.CheckDigest? {
      CheckKeepsReceiver(c, w);
    }
  }

  lemma CheckKeepsReceiver(c: Config, w: World)
    requires ManifestShape(w) && StreamShape(c, w) && ReceiverShape(c, w)
    requires ReceiverEnabled(c, w, CheckDigest)
    ensures ReceiverShape(c, ReceiverApply(c, w, CheckDigest))
  {
  }

  lemma CopyingKeepsFile(c: Config, w: World, a: ReceiverAction)
    requires c.Valid() && ReceiverShape(c, w) && FileShape(c, w) && PristineShape(c, w)
    requires ReceiverEnabled(c, w, a) && Copying(a)
    ensures FileShape(c, ReceiverApply(c, w, a))
  {
    if a.ReadChunk? {
      var s := Current(w).sent;
      var data := s[w.rpc.pos..w.rpc.pos + a.n];
      assert s[..w.rpc.pos] + data == s[..w.rpc.pos + a.n];
      c.hash.AbsorbChunks(c.hash.seed, s[..w.rpc.pos], data);
    }
    if a.CheckDigest? {
      assert Current(w).sent[..w.rpc.pos] == Current(w).sent;
    }
  }

  lemma CopyingKeepsAcks(c: Config, w: World, a: ReceiverAction)
    requires c.Valid() && ManifestShape(w) && StreamShape(c, w) && ReceiverShape(c, w)
    requires FileShape(c, w) && AckMeaning(c, w)
    requires ReceiverEnabled(c, w, a) && Copying(a)
    ensures AckMeaning(c, ReceiverApply(c, w, a))
  {
  }

  lemma CopyingKeepsPassed(c: Config, w: World, a: ReceiverAction)
    requires c.Valid() && ManifestShape(w) && ReceiverShape(c, w) && FileShape(c, w) && PassedShape(c, w)
    requires ReceiverEnabled(c, w, a) && Copying(a)
    ensures PassedShape(c, ReceiverApply(c, w, a))
  {
  }

  lemma CopyingKeepsList(c: Config, w: World, a: ReceiverAction)
    requires c.Valid() && ManifestShape(w) && ReceiverShape(c, w) && FileShape(c, w) && ListShape(c, w)
    requires ReceiverEnabled(c, w, a) && Copying(a)
    ensures ListShape(c, ReceiverApply(c, w, a))
  {
    var w' := ReceiverApply(c, w, a);
    if !w'.hist.blindLoad {
      var p := c.files[w.rpc.j].path;
      AllGoodElsewhere(c, w, w', Load(w.resume), p);
      AllGoodElsewhere(c, w, w', w.skip, p);
    }
  }

  lemma ReplyingFrames(c: Config, w: World, a: ReceiverAction)
    requires ManifestShape(w) && ReceiverShape(c, w)
    requires ReceiverEnabled(c, w, a) && Replying(a)
    ensures ReceiverFrame(w, ReceiverApply(c, w, a)) && ManifestShape(ReceiverApply(c, w, a))
  {
  }

  lemma ReplyingKeepsReceiver(c: Config, w: World, a: ReceiverAction)
    requires ManifestShape(w) && StreamShape(c, w) && ReceiverShape(c, w)
    requires ReceiverEnabled(c, w, a) && Replying(a)
    ensures ReceiverShape(c, ReceiverApply(c, w, a))
  {
  }

  lemma ReplyingKeepsFile(c: Config, w: World, a: ReceiverAction)
    requires c.Valid() && ReceiverShape(c, w) && FileShape(c, w) && PristineShape(c, w)
    requires ReceiverEnabled(c, w, a) && Replying(a)
    ensures FileShape(c, ReceiverApply(c, w, a))
  {
  }

  lemma ReplyingKeepsAcks(c: Config, w: World, a: ReceiverAction)
    requires c.Valid() && ManifestShape(w) && StreamShape(c, w) && ReceiverShape(c, w)
    requires FileShape(c, w) && AckMeaning(c, w)
    requires ReceiverEnabled(c, w, a) && Replying(a)
    ensures AckMeaning(c, ReceiverApply(c, w, a))
  {
  }

  lemma ReplyingKeepsPassed(c: Config, w: World, a: ReceiverAction)
    requires c.Valid() && ManifestShape(w) && ReceiverShape(c, w) && FileShape(c, w) && PassedShape(c, w)
    requires ReceiverEnabled(c, w, a) && Replying(a)
    ensures PassedShape(c, ReceiverApply(c, w, a))
  {
  }

  lemma ReplyingKeepsList(c: Config, w: World, a: ReceiverAction)
    requires c.Valid() && ManifestShape(w) && ReceiverShape(c, w) && FileShape(c, w) && ListShape(c, w)
    requires ReceiverEnabled(c, w, a) && Replying(a)
    ensures ListShape(c, ReceiverApply(c, w, a))
  {
  }

  lemma SavingFrames(c: Config, w: World, a: ReceiverAction)
    requires ManifestShape(w) && ReceiverShape(c, w)
    requires ReceiverEnabled(c, w, a) && Saving(a)
    ensures ReceiverFrame(w, ReceiverApply(c, w, a)) && ManifestShape(ReceiverApply(c, w, a))
  {
  }

  lemma SavingKeepsReceiver(c: Config, w: World, a: ReceiverAction)
    requires ManifestShape(w) && StreamShape(c, w) && ReceiverShape(c, w)
    requires ReceiverEnabled(c, w, a) && Saving(a)
    ensures ReceiverShape(c, ReceiverApply(c, w, a))
  {
  }

  lemma SavingKeepsFile(c: Config, w: World, a: ReceiverAction)
    requires c.Valid() && ReceiverShape(c, w) && FileShape(c, w) && PristineShape(c, w)
    requires ReceiverEnabled(c, w, a) && Saving(a)
    ensures FileShape(c, ReceiverApply(c, w, a))
  {
  }

  lemma SavingKeepsAcks(c: Config, w: World, a: ReceiverAction)
    requires c.Valid() && ManifestShape(w) && StreamShape(c, w) && ReceiverShape(c, w)
    requires FileShape(c, w) && AckMeaning(c, w)
    requires ReceiverEnabled(c, w, a) && Saving(a)
    ensures AckMeaning(c, ReceiverApply(c, w, a))
  {
  }

  lemma SavingKeepsPassed(c: Config, w: World, a: ReceiverAction)
    requires c.Valid() && ManifestShape(w) && ReceiverShape(c, w) && FileShape(c, w) && PassedShape(c, w)
    requires ReceiverEnabled(c, w, a) && Saving(a)
    ensures PassedShape(c, ReceiverApply(c, w, a))
  {
  }

  lemma SavingKeepsList(c: Config, w: World, a: ReceiverAction)
    requires c.Valid() && ManifestShape(w) && ReceiverShape(c, w) && FileShape(c, w) && ListShape(c, w)
    requires ReceiverEnabled(c, w, a) && Saving(a)
    ensures ListShape(c, ReceiverApply(c, w, a))
  {
  }

  lemma ClosingFrames(c: Config, w: World, a: ReceiverAction)
    requires ManifestShape(w) && ReceiverShape(c, w)
    requires ReceiverEnabled(c, w, a) && Closing(a)
    ensures ReceiverFrame(w, ReceiverApply(c, w, a)) && ManifestShape(ReceiverApply(c, w, a))
  {
  }

  lemma ClosingKeepsReceiver(c: Config, w: World, a: ReceiverAction)
    requires ManifestShape(w) && StreamShape(c, w) && ReceiverShape(c, w)
    requires ReceiverEnabled(c, w, a) && Closing(a)
    ensures ReceiverShape(c, ReceiverApply(c, w, a))
  {
  }

  lemma ClosingKeepsFile(c: Config, w: World, a: ReceiverAction)
    requires c.Valid() && ReceiverShape(c, w) && FileShape(c, w) && PristineShape(c, w)
    requires ReceiverEnabled(c, w, a) && Closing(a)
    ensures FileShape(c, ReceiverApply(c, w, a))
  {
  }

  lemma ClosingKeepsAcks(c: Config, w: World, a: ReceiverAction)
    requires c.Valid() && ManifestShape(w) && StreamShape(c, w) && ReceiverShape(c, w)
    requires FileShape(c, w) && AckMeaning(c, w)
    requires ReceiverEnabled(c, w, a) && Closing(a)
    ensures AckMeaning(c, ReceiverApply(c, w, a))
  {
  }

  lemma ClosingKeepsPassed(c: Config, w: World, a: ReceiverAction)
    requires c.Valid() && ManifestShape(w) && ReceiverShape(c, w) && FileShape(c, w) && PassedShape(c, w)
    requires ReceiverEnabled(c, w, a) && Closing(a)
    ensures PassedShape(c, ReceiverApply(c, w, a))
  {
  }

  lemma ClosingKeepsList(c: Config, w: World, a: ReceiverAction)
    requires c.Valid() && ManifestShape(w) && ReceiverShape(c, w) && FileShape(c, w) && ListShape(c, w)
    requires ReceiverEnabled(c, w, a) && Closing(a)
    ensures ListShape(c, ReceiverApply(c, w, a))
  {
    var w' := ReceiverApply(c, w, a);
    if !w'.hist.blindLoad {
      AllGoodKept(c, w, w', Load(w.resume));
      if w.resp.Some? {
        AllGoodKept(c, w, w', w.skip);
      }
    }
  }

  lemma LoopingFrames(c: Config, w: World, a: ReceiverAction)
    requires ManifestShape(w) && ReceiverShape(c, w)
    requires ReceiverEnabled(c, w, a) && Looping(a)
    ensures ReceiverFrame(w, ReceiverApply(c, w, a)) && ManifestShape(ReceiverApply(c, w, a))
  {
  }

  lemma LoopingKeepsReceiver(c: Config, w: World, a: ReceiverAction)
    requires ManifestShape(w) && StreamShape(c, w) && ReceiverShape(c, w)
    requires ReceiverEnabled(c, w, a) && Looping(a)
    ensures ReceiverShape(c, ReceiverApply(c, w, a))
  {
    if a.Accept? {
      PendInjective(c, w.skip, w.streams[w.accepted].entry, w.rpc.j);
    }
  }

  lemma LoopingKeepsFile(c: Config, w: World, a: ReceiverAction)
    requires c.Valid() && ReceiverShape(c, w) && FileShape(c, w) && PristineShape(c, w)
    requires ReceiverEnabled(c, w, a) && Looping(a)
    ensures FileShape(c, ReceiverApply(c, w, a))
  {
  }

  lemma LoopingKeepsAcks(c: Config, w: World, a: ReceiverAction)
    requires c.Valid() && ManifestShape(w) && StreamShape(c, w) && ReceiverShape(c, w)
    requires FileShape(c, w) && AckMeaning(c, w)
    requires ReceiverEnabled(c, w, a) && Looping(a)
    ensures AckMeaning(c, ReceiverApply(c, w, a))
  {
  }

  lemma LoopingKeepsPassed(c: Config, w: World, a: ReceiverAction)
    requires c.Valid() && ManifestShape(w) && ReceiverShape(c, w) && FileShape(c, w) && PassedShape(c, w)
    requires ReceiverEnabled(c, w, a) && Looping(a)
    ensures PassedShape(c, ReceiverApply(c, w, a))
  {
  }

  lemma LoopingKeepsList(c: Config, w: World, a: ReceiverAction)
    requires c.Valid() && ManifestShape(w) && ReceiverShape(c, w) && FileShape(c, w) && ListShape(c, w)
    requires ReceiverEnabled(c, w, a) && Looping(a)
    ensures ListShape(c, ReceiverApply(c, w, a))
  {
    var w' := ReceiverApply(c, w, a);
    if !w'.hist.blindLoad {
      AllGoodKept(c, w, w', Load(w.resume));
      if w.resp.Some? {
        AllGoodKept(c, w, w', w.skip);
      }
    }
  }

  lemma SenderStepKeeps(c: Config, w: World, a: SenderAction)
    requires Core(c, w) && SenderEnabled(c, w, a)
    ensures Core(c, SenderApply(c, w, a)) && SenderFrame(w, SenderApply(c, w, a))
  {
    SenderFrames(c, w, a);
    SenderKeepsSender(c, w, a);
    SenderKeepsStreams(c, w, a);
    SenderKeepsPristine(c, w, a);
    SenderKeepsReceiver(c, w, SenderApply(c, w, a));
  }

  lemma ReceiverStepKeeps(c: Config, w: World, a: ReceiverAction)
    requires Core(c, w) && ReceiverEnabled(c, w, a)
    ensures Core(c, ReceiverApply(c, w, a)) && ReceiverFrame(w, ReceiverApply(c, w, a))
  {
    if Copying(a) {
      CopyingFrames(c, w, a);
      CopyingKeepsReceiver(c, w, a);
      CopyingKeepsFile(c, w, a);
      CopyingKeepsAcks(c, w, a);
      CopyingKeepsPassed(c, w, a);
    } else if Replying(a) {
      ReplyingFrames(c, w, a);
      ReplyingKeepsReceiver(c, w, a);
      ReplyingKeepsFile(c, w, a);
      ReplyingKeepsAcks(c, w, a);
      ReplyingKeepsPassed(c, w, a);
    } else if Saving(a) {
      SavingFrames(c, w, a);
      SavingKeepsReceiver(c, w, a);
      SavingKeepsFile(c, w, a);
      SavingKeepsAcks(c, w, a);
      SavingKeepsPassed(c, w, a);
    } else if Closing(a) {
      ClosingFrames(c, w, a);
      ClosingKeepsReceiver(c, w, a);
      ClosingKeepsFile(c, w, a);
      ClosingKeepsAcks(c, w, a);
      ClosingKeepsPassed(c, w, a);
    } else {
      LoopingFrames(c, w, a);
      LoopingKeepsReceiver(c, w, a);
      LoopingKeepsFile(c, w, a);
      LoopingKeepsAcks(c, w, a);
      LoopingKeepsPassed(c, w, a);
    }
    ReceiverKeepsSender(c, w, ReceiverApply(c, w, a));
    ReceiverKeepsPristine(c, w, ReceiverApply(c, w, a));
  }

  lemma ReceiverKeepsList(c: Config, w: World, a: ReceiverAction)
    requires Inv(c, w) && ReceiverEnabled(c, w, a)
    ensures ListShape(c, ReceiverApply(c, w, a))
  {
    if Copying(a) {
      CopyingKeepsList(c, w, a);
    } else if Replying(a) {
      ReplyingKeepsList(c, w, a);
    } else if Saving(a) {
      SavingKeepsList(c, w, a);
    } else if Closing(a) {
      ClosingKeepsList(c, w, a);
    } else {
      LoopingKeepsList(c, w, a);
    }
  }

  // Connect and EditSource: no file, no list changes.
  lemma OthersKeepList(c: Config, w: World, a: Action)
    requires Inv(c, w) && Enabled(c, w, a) && (a.Connect? || a.EditSource?)
    ensures ListShape(c, Apply(c, w, a))
  {
  }

  lemma EditKeepsCore(c: Config, w: World, contents: map<Path, Bytes>)
    requires Core(c, w)
    ensures Core(c, Apply(c, w, EditSource(contents)))
  {
    var w' := Apply(c, w, EditSource(contents));
    SenderKeepsReceiver(c, w, w');
  }

  lemma ConnectKeepsCore(c: Config, w: World)
    requires Core(c, w) && Enabled(c, w, Connect)
    ensures Core(c, Apply(c, w, Connect))
  {
  }

  lemma StepKeepsCore(c: Config, w: World, a: Action)
    requires Core(c, w)
    ensures Core(c, Step(c, w, a))
  {
    if Enabled(c, w, a) {
      match a
      case EditSource(contents) => EditKeepsCore(c, w, contents);
      case Connect => ConnectKeepsCore(c, w);
      case S(sa) => SenderStepKeeps(c, w, sa);
      case R(ra) => ReceiverStepKeeps(c, w, ra);
    }
  }

  lemma StepKeeps(c: Config, w: World, a: Action)
    requires Inv(c, w)
    ensures Inv(c, Step(c, w, a))
  {
    StepKeepsCore(c, w, a);
    if Enabled(c, w, a) {
      if a.S? {
        SenderStepKeeps(c, w, a.sa);
        SenderKeepsList(c, w, Apply(c, w, a));
      } else if a.R? {
        ReceiverKeepsList(c, w, a.ra);
      } else {
        OthersKeepList(c, w, a);
      }
    }
  }

  // Over whole runs: `Core` from any start, `Inv` from one with a sound list.
  lemma {:induction false} RunKeepsCore(c: Config, w: World, acts: seq<Action>)
    requires Core(c, w)
    ensures Core(c, Exec(c, w, acts))
    decreases |acts|
  {
    if acts != [] {
      RunKeepsCore(c, w, acts[..|acts| - 1]);
      StepKeepsCore(c, Exec(c, w, acts[..|acts| - 1]), acts[|acts| - 1]);
    }
  }

  lemma {:induction false} RunKeeps(c: Config, w: World, acts: seq<Action>)
    requires Inv(c, w)
    ensures Inv(c, Exec(c, w, acts))
    decreases |acts|
  {
    if acts != [] {
      RunKeeps(c, w, acts[..|acts| - 1]);
      StepKeeps(c, Exec(c, w, acts[..|acts| - 1]), acts[|acts| - 1]);
    }
  }

  lemma StartHasCore(c: Config, w: World)
    requires Start(c, w)
    ensures Core(c, w)
  {
  }

  lemma InitHasInv(c: Config, w: World)
    requires Init(c, w)
    ensures Inv(c, w)
  {
  }
}
