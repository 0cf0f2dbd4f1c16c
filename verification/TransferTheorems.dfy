// What a user of the transfer can rely on, over every run.
module TransferTheorems {
  import opened Manifests
  import opened TransferModel
  import opened TransferInvariant

  // ---- The resume state ----------------------------------------------------

  // In every run, with stops anywhere, whatever manifest entry the resume state
  // on disk names is there with its digest, unless some ReceiveManifest failed
  // to read a listing that names one.
  lemma ResumeAlwaysSound(c: Config, w: World, acts: seq<Action>)
    requires Init(c, w)
    ensures !Exec(c, w, acts).hist.blindLoad ==> ResumeSound(c, Exec(c, w, acts))
  {
    InitHasInv(c, w);
    RunKeeps(c, w, acts);
  }

  // Where a path was listed from: the start, or this manifest.
  ghost predicate Known(c: Config, before: seq<Path>, list: seq<Path>) {
    forall p :: p in list ==> p in before || p in Paths(c)
  }

  ghost predicate AllKnown(c: Config, before: seq<Path>, w: World) {
    && Known(c, before, Load(w.resume))
    && (w.rpc.RLoaded? || w.rpc.RSaving? ==> Known(c, before, w.rpc.list))
  }

  lemma StepKeepsKnown(c: Config, before: seq<Path>, w: World, a: Action)
    requires AllKnown(c, before, w)
    ensures AllKnown(c, before, Step(c, w, a))
  {
    if Enabled(c, w, a) {
      if a.S? {
        SenderFrames(c, w, a.sa);
      } else if a.R? {
        ReceiverKeepsKnown(c, before, w, a.ra);
      }
    }
  }

  lemma ReceiverKeepsKnown(c: Config, before: seq<Path>, w: World, a: ReceiverAction)
    requires AllKnown(c, before, w) && ReceiverEnabled(c, w, a)
    ensures AllKnown(c, before, ReceiverApply(c, w, a))
  {
    if a.Reload? {
      assert c.files[w.rpc.j].path == Paths(c)[w.rpc.j];
    }
  }

  // Nothing is ever listed that was neither listed at the start nor is in the
  // manifest.
  lemma {:induction false} NothingUnknownIsListed(c: Config, w: World, acts: seq<Action>)
    requires Start(c, w)
    ensures AllKnown(c, Load(w.resume), Exec(c, w, acts))
    decreases |acts|
  {
    if acts != [] {
      NothingUnknownIsListed(c, w, acts[..|acts| - 1]);
      StepKeepsKnown(c, Load(w.resume), Exec(c, w, acts[..|acts| - 1]), acts[|acts| - 1]);
    }
  }

  // The step where an unreadable listing does its damage, exactly: truncating
  // entry j keeps the listing true iff the listing does not claim j, or j is a
  // file whose content is as good when empty.
  lemma TruncationKeepsSoundIff(c: Config, w: World)
    requires c.Valid() && ResumeSound(c, w)
    requires ReceiverEnabled(c, w, Create)
    ensures var e := c.files[w.rpc.j];
      ResumeSound(c, ReceiverApply(c, w, Create)) <==>
      (e.path in Load(w.resume) ==>
        c.hash.Sum([]) == e.digest && (w.hist.pristine ==> c.scanned[e.path] == []))
  {
  }

  // ---- What success means --------------------------------------------------

  // Whatever resume state the run started from: when SendFiles has returned nil,
  // all it did not skip is on the receiver's disk.
  lemma UnskippedArrive(c: Config, w: World, acts: seq<Action>, i: nat)
    requires Start(c, w)
    requires i < |c.files| && c.files[i].path !in Exec(c, w, acts).skip
    ensures var w' := Exec(c, w, acts);
      w'.spc.SDone? ==> Good(c, w', i)
  {
    StartHasCore(c, w);
    RunKeepsCore(c, w, acts);
    var w' := Exec(c, w, acts);
    if w'.spc.SDone? {
      AckedEntryIsGood(c, w', i);
    }
  }

  // The entry's own stream is the one of its rank, and it has been acknowledged.
  lemma AckedEntryIsGood(c: Config, w: World, i: nat)
    requires c.Valid() && StreamShape(c, w) && SenderShape(c, w) && AckMeaning(c, w)
    requires w.spc.SDone? && Pending(c, w.skip, i)
    ensures Good(c, w, i)
  {
    PendMonotone(c, w.skip, i + 1, |c.files|);
    var k := Pend(c, w.skip, i);
    assert k < |w.streams| && Acked(w.streams[k]);
    PendInjective(c, w.skip, w.streams[k].entry, i);
  }

  // So with a listing recorded for this manifest, SendFiles returning nil means
  // the whole manifest has arrived: what this attempt sent and what every
  // earlier one left behind. It stays so, since runs go on from here.
  lemma SendNilMeansDelivered(c: Config, w: World, acts: seq<Action>)
    requires Init(c, w)
    ensures var w' := Exec(c, w, acts);
      w'.spc.SDone? && !w'.hist.blindLoad ==> Delivered(c, w')
  {
    InitHasInv(c, w);
    RunKeeps(c, w, acts);
    var w' := Exec(c, w, acts);
    if w'.spc.SDone? && !w'.hist.blindLoad {
      forall i | 0 <= i < |c.files| ensures Good(c, w', i) {
        if c.files[i].path in w'.skip {
          assert GoodPath(c, w', c.files[i].path);
        } else {
          UnskippedArrive(c, w, acts, i);
        }
      }
    }
  }

  // From a source left alone since the scan the copy is byte for byte.
  lemma UntouchedSourceArrivesWhole(c: Config, w: World, acts: seq<Action>, i: nat)
    requires Init(c, w) && i < |c.files|
    ensures var w' := Exec(c, w, acts);
      var p := c.files[i].path;
      w'.spc.SDone? && w'.hist.pristine && !w'.hist.blindLoad ==>
        p in w'.source && p in w'.disk && w'.disk[p] == w'.source[p]
  {
    SendNilMeansDelivered(c, w, acts);
    InitHasInv(c, w);
    RunKeeps(c, w, acts);
    var w' := Exec(c, w, acts);
    if w'.spc.SDone? && w'.hist.pristine && !w'.hist.blindLoad {
      assert Good(c, w', i);
    }
  }

  // The receiver's own success means the same.
  lemma ReceiveNilMeansDelivered(c: Config, w: World, acts: seq<Action>)
    requires Init(c, w)
    ensures var w' := Exec(c, w, acts);
      w'.rpc.RSuccess? && !w'.hist.blindLoad ==> Delivered(c, w')
  {
    InitHasInv(c, w);
    RunKeeps(c, w, acts);
    var w' := Exec(c, w, acts);
    if w'.rpc.RSuccess? && !w'.hist.blindLoad {
      forall i | 0 <= i < |c.files| ensures Good(c, w', i) {
        if c.files[i].path in w'.skip {
          assert w'.resp.Some?;
          assert GoodPath(c, w', c.files[i].path);
        } else {
          assert Passed(c, w') == |c.files|;
        }
      }
    }
  }

  // A listing recorded for another manifest is believed all the same: the
  // sender can return nil with nothing delivered.
  lemma StaleListingSkipsUnsent(c: Config, w: World, e: Entry)
    requires Start(c, w) && c.files == [e]
    requires w.resume == Listing([e.path]) && e.path !in w.disk
    ensures exists w' :: Reaches(c, w, w') && w'.spc.SDone? && !Delivered(c, w')
  {
    var w1 := Step(c, w, Connect);
    var w2 := Step(c, w1, S(SendOffer));
    var w3 := Step(c, w2, R(Respond(true)));
    var w4 := Step(c, w3, S(TakeResponse));
    var w5 := Step(c, w4, S(SkipSent));
    var w6 := Step(c, w5, S(FinishSending));
    assert w6.spc.SDone? && w6.disk == w.disk;
    assert !Good(c, w6, 0);
    ReachesSelf(c, w);
    ReachesStep(c, w, w, Connect);
    ReachesStep(c, w, w1, S(SendOffer));
    ReachesStep(c, w, w2, R(Respond(true)));
    ReachesStep(c, w, w3, S(TakeResponse));
    ReachesStep(c, w, w4, S(SkipSent));
    ReachesStep(c, w, w5, S(FinishSending));
  }

  // ---- Streams -------------------------------------------------------------

  // The entries that travel, in manifest order: the reference both sides must
  // agree with although only a position connects them.
  ghost function Remaining(c: Config, skip: seq<Path>, n: nat): seq<nat>
    requires n <= |c.files|
  {
    if n == 0 then []
    else Remaining(c, skip, n - 1) + if Pending(c, skip, n - 1) then [n - 1] else []
  }

  lemma {:induction false} RemainingAt(c: Config, skip: seq<Path>, n: nat, i: nat)
    requires n <= |c.files|
    ensures |Remaining(c, skip, n)| == Pend(c, skip, n)
    ensures i < n && Pending(c, skip, i) ==>
      Pend(c, skip, i) < Pend(c, skip, n) && Remaining(c, skip, n)[Pend(c, skip, i)] == i
    decreases n
  {
    if n > 0 {
      RemainingAt(c, skip, n - 1, i);
    }
  }

  // The k-th file stream is opened for the k-th remaining entry.
  lemma StreamsCarryRemaining(c: Config, w: World)
    requires StreamShape(c, w)
    ensures |w.streams| <= |Remaining(c, w.skip, |c.files|)|
    ensures forall k :: 0 <= k < |w.streams| ==> w.streams[k].entry == Remaining(c, w.skip, |c.files|)[k]
  {
    var rest := Remaining(c, w.skip, |c.files|);
    forall k | 0 <= k < |w.streams| ensures k < |rest| && w.streams[k].entry == rest[k] {
      RemainingAt(c, w.skip, |c.files|, w.streams[k].entry);
    }
    if w.streams != [] {
      RemainingAt(c, w.skip, |c.files|, w.streams[|w.streams| - 1].entry);
    }
  }

  lemma OnlyNewestOpen(w: World, k: nat)
    requires OneAhead(w) && k < |w.streams| && !w.streams[k].ackFin
    ensures k == |w.streams| - 1
  {
  }

  // The receiver writes what its k-th accepted stream carries to the entry the
  // sender opened it for; and the sender is never more than one stream ahead of
  // what the receiver has accepted and ended.
  lemma ReceiverKeepsUp(c: Config, w: World)
    requires StreamShape(c, w) && OneAhead(w) && ReceiverShape(c, w)
    ensures w.rpc.InFile() ==> 0 < w.accepted <= |w.streams| && w.rpc.j == w.streams[w.accepted - 1].entry
    ensures forall k :: 0 <= k < |w.streams| - 1 ==> w.streams[k].ackFin
    ensures w.accepted <= |w.streams| <= w.accepted + 1
  {
    if w.accepted < |w.streams| {
      OnlyNewestOpen(w, w.accepted);
    }
  }

  // Position alone pairs the streams, in every run.
  lemma StreamPairing(c: Config, w: World, acts: seq<Action>)
    requires Start(c, w)
    ensures var w' := Exec(c, w, acts);
      var rest := Remaining(c, w'.skip, |c.files|);
      && w'.accepted <= |w'.streams| <= |rest|
      && (forall k :: 0 <= k < |w'.streams| ==> w'.streams[k].entry == rest[k])
      && (w'.rpc.InFile() ==> 0 < w'.accepted && w'.rpc.j == rest[w'.accepted - 1])
      && (forall k :: 0 <= k < |w'.streams| - 1 ==> w'.streams[k].ackFin)
      && |w'.streams| <= w'.accepted + 1
  {
    StartHasCore(c, w);
    RunKeepsCore(c, w, acts);
    StreamsCarryRemaining(c, Exec(c, w, acts));
    ReceiverKeepsUp(c, Exec(c, w, acts));
  }

  ghost predicate Durable(c: Config, w: World, i: nat)
    requires c.Valid()
  {
    && i < |c.files|
    && Good(c, w, i)
    && c.files[i].path in w.hist.recorded * w.hist.closed
    && !(w.rpc.InFile() && w.rpc.j == i)
  }

  lemma AckedIsDurable(c: Config, w: World)
    requires c.Valid() && StreamShape(c, w) && ReceiverShape(c, w) && SenderShape(c, w) && AckMeaning(c, w)
    requires w.spc.SAck? && Acked(w.streams[|w.streams| - 1])
    ensures Durable(c, w, w.spc.i)
  {
  }

  // When sendFile is about to return nil for entry i, the receiver has verified
  // its digest, completed its save attempt and left receiveFile for it, in
  // every interleaving, although "ok" was written before the save.
  lemma AckImpliesDurable(c: Config, w: World, acts: seq<Action>)
    requires Start(c, w)
    ensures var w' := Exec(c, w, acts);
      SenderEnabled(c, w', TakeAck) && SenderApply(c, w', TakeAck).spc.SLoop? ==>
        Durable(c, w', w'.spc.i)
  {
    StartHasCore(c, w);
    RunKeepsCore(c, w, acts);
    var w' := Exec(c, w, acts);
    if SenderEnabled(c, w', TakeAck) && SenderApply(c, w', TakeAck).spc.SLoop? {
      AckedIsDurable(c, w');
    }
  }

  // No false alarm: from an untouched source the digests always agree.
  lemma UntouchedSourceNeverMismatches(c: Config, w: World, acts: seq<Action>)
    requires Start(c, w)
    ensures var w' := Exec(c, w, acts);
      w'.hist.pristine && ReceiverEnabled(c, w', CheckDigest) ==>
        ReceiverApply(c, w', CheckDigest).rpc.RVerified?
  {
    StartHasCore(c, w);
    RunKeepsCore(c, w, acts);
    var w' := Exec(c, w, acts);
    if w'.hist.pristine && ReceiverEnabled(c, w', CheckDigest) {
      assert Current(w').sent[..w'.rpc.pos] == Current(w').sent;
    }
  }
}
