// Progress over attempts, while every save and every reload works: the listing
// is a growing prefix of the manifest, and little is sent twice.
module TransferProgress {
  import opened Manifests
  import opened TransferModel
  import opened TransferInvariant

  ghost predicate Clean(w: World) {
    w.hist.cleanSaves && !w.hist.blindLoad
  }

  // The listing, with a save that is under way counted as done.
  ghost function Listed(w: World): seq<Path> {
    if w.rpc.RSaving? then w.rpc.list else Load(w.resume)
  }

  // How many manifest entries the listing must hold at this point of
  // ReceiveFiles.
  ghost function Reached(w: World): nat
    requires w.rpc.Receiving()
  {
    match w.rpc
    case RLoop(j) => if j < |w.skip| then |w.skip| else j
    case RSaving(j, _) => j + 1
    case RSaved(j) => j + 1
    case RFileClosed(j) => j + 1
    case _ => w.rpc.j
  }

  ghost predicate PrefixShape(c: Config, w: World) {
    Clean(w) ==>
      && Listed(w) <= Paths(c)
      && (w.resp.Some? ==> w.skip <= Paths(c))
      && (w.rpc.Receiving() ==> |Listed(w)| == Reached(w))
      && (w.rpc.InFile() ==> |w.skip| <= w.rpc.j)
      && (w.rpc.RLoaded? ==> w.rpc.list <= Paths(c) && |w.rpc.list| == w.rpc.j + 1)
  }

  ghost predicate CountShape(c: Config, w: World) {
    Clean(w) && !w.hist.succeeded ==>
      && (w.resp.Some? ==> |w.skip| <= |Listed(w)|)
      && (forall k :: 0 <= k < |w.streams| && Acked(w.streams[k]) ==> w.streams[k].entry < |Listed(w)|)
      && (w.hist.attempts == 0 ==> w.hist.opens == 0 && w.resp.None? && w.rpc.RDown?)
      && (w.hist.attempts > 0 ==>
          w.hist.opens + 1 <= (if w.resp.Some? then |w.skip| else |Listed(w)|) + w.hist.attempts + |w.streams|)
  }

  // Skipping a prefix leaves a suffix.
  lemma {:induction false} PendAfterPrefix(c: Config, skip: seq<Path>, i: nat)
    requires DistinctPaths(c.files) && skip <= Paths(c) && i <= |c.files|
    ensures Pend(c, skip, i) == if i <= |skip| then 0 else i - |skip|
    ensures i < |c.files| ==> (Pending(c, skip, i) <==> |skip| <= i)
    decreases i
  {
    PrefixMembers(c, skip, i);
    if i > 0 {
      PendAfterPrefix(c, skip, i - 1);
    }
  }

  lemma PrefixMembers(c: Config, skip: seq<Path>, i: nat)
    requires DistinctPaths(c.files) && skip <= Paths(c)
    ensures i < |c.files| ==> (c.files[i].path in skip <==> i < |skip|)
  {
    if i < |c.files| {
      forall k | 0 <= k < |skip| ensures skip[k] == c.files[k].path {
        assert skip[k] == Paths(c)[k];
      }
      if i < |skip| {
        assert skip[i] == c.files[i].path;
      }
    }
  }

  lemma SenderKeepsProgress(c: Config, w: World, w': World)
    requires SenderFrame(w, w') && ManifestShape(w')
    requires PrefixShape(c, w) && CountShape(c, w)
    ensures PrefixShape(c, w') && CountShape(c, w')
  {
  }

  lemma CopyingKeepsPrefix(c: Config, w: World, a: ReceiverAction)
    requires ReceiverEnabled(c, w, a) && Copying(a)
    requires ReceiverShape(c, w) && PrefixShape(c, w)
    ensures PrefixShape(c, ReceiverApply(c, w, a))
  {
  }

  lemma CopyingKeepsCount(c: Config, w: World, a: ReceiverAction)
    requires ReceiverEnabled(c, w, a) && Copying(a)
    requires ReceiverShape(c, w) && PrefixShape(c, w) && CountShape(c, w)
    ensures CountShape(c, ReceiverApply(c, w, a))
  {
    var w' := ReceiverApply(c, w, a);
    if a.CheckDigest? {
      CountKept(c, w, w');
    }
  }

  // Nothing newly acknowledged and nothing newly listed.
  lemma CountKept(c: Config, w: World, w': World)
    requires CountShape(c, w) && w.rpc.InFile()
    requires w' == w.(streams := w'.streams, rpc := w'.rpc) && Listed(w') == Listed(w)
    requires |w'.streams| == |w.streams|
    requires forall k :: 0 <= k < |w.streams| && Acked(w'.streams[k]) ==>
               Acked(w.streams[k]) && w'.streams[k].entry == w.streams[k].entry
    ensures CountShape(c, w')
  {
  }

  lemma ReplyingKeepsPrefix(c: Config, w: World, a: ReceiverAction)
    requires ReceiverEnabled(c, w, a) && Replying(a)
    requires ReceiverShape(c, w) && PrefixShape(c, w)
    ensures PrefixShape(c, ReceiverApply(c, w, a))
  {
  }

  lemma ReplyingKeepsCount(c: Config, w: World, a: ReceiverAction)
    requires ReceiverEnabled(c, w, a) && Replying(a)
    requires ReceiverShape(c, w) && PrefixShape(c, w) && CountShape(c, w)
    ensures CountShape(c, ReceiverApply(c, w, a))
  {
  }

  lemma SavingKeepsPrefix(c: Config, w: World, a: ReceiverAction)
    requires ReceiverEnabled(c, w, a) && Saving(a)
    requires ReceiverShape(c, w) && PrefixShape(c, w)
    ensures PrefixShape(c, ReceiverApply(c, w, a))
  {
  }

  lemma SavingKeepsCount(c: Config, w: World, a: ReceiverAction)
    requires ReceiverEnabled(c, w, a) && Saving(a)
    requires ReceiverShape(c, w) && PrefixShape(c, w) && CountShape(c, w)
    ensures CountShape(c, ReceiverApply(c, w, a))
  {
  }

  lemma ClosingKeepsPrefix(c: Config, w: World, a: ReceiverAction)
    requires ReceiverEnabled(c, w, a) && Closing(a)
    requires ReceiverShape(c, w) && PrefixShape(c, w)
    ensures PrefixShape(c, ReceiverApply(c, w, a))
  {
  }

  lemma ClosingKeepsCount(c: Config, w: World, a: ReceiverAction)
    requires ReceiverEnabled(c, w, a) && Closing(a)
    requires ReceiverShape(c, w) && PrefixShape(c, w) && CountShape(c, w)
    ensures CountShape(c, ReceiverApply(c, w, a))
  {
  }

  lemma LoopingKeepsPrefix(c: Config, w: World, a: ReceiverAction)
    requires ReceiverEnabled(c, w, a) && Looping(a)
    requires c.Valid() && ManifestShape(w) && ReceiverShape(c, w) && PrefixShape(c, w)
    ensures PrefixShape(c, ReceiverApply(c, w, a))
  {
    if w.rpc.RLoop? && w.rpc.j < |c.files| && Clean(w) {
      PrefixMembers(c, w.skip, w.rpc.j);
    }
    if a.Respond? {
      RespondKeepsPrefix(c, w, a.readable);
    }
  }

  lemma RespondKeepsPrefix(c: Config, w: World, readable: bool)
    requires ReceiverEnabled(c, w, Respond(readable)) && PrefixShape(c, w)
    ensures PrefixShape(c, ReceiverApply(c, w, Respond(readable)))
  {
    if Clean(w) {
      ClearSight(c, w.resume, readable);
    }
  }

  // Nothing listed can be overlooked while the listing is a prefix.
  lemma ClearSight(c: Config, r: ResumeFile, readable: bool)
    requires Load(r) <= Paths(c)
    ensures !Overlooks(c, Load(r), LoadIf(readable, r)) ==> LoadIf(readable, r) == Load(r)
  {
    if !readable && Load(r) != [] {
      assert Load(r)[0] == Paths(c)[0] == c.files[0].path;
    }
  }

  lemma LoopingKeepsCount(c: Config, w: World, a: ReceiverAction)
    requires ReceiverEnabled(c, w, a) && Looping(a)
    requires c.Valid() && ManifestShape(w) && ReceiverShape(c, w) && PrefixShape(c, w) && CountShape(c, w)
    ensures CountShape(c, ReceiverApply(c, w, a))
  {
    if a.Respond? && Clean(w) {
      ClearSight(c, w.resume, a.readable);
    }
  }

  // Within an attempt at most one stream more than what has been listed.
  lemma OneUnlisted(c: Config, w: World)
    requires Core(c, w) && PrefixShape(c, w) && CountShape(c, w)
    requires Clean(w) && !w.hist.succeeded && w.resp.Some?
    ensures |w.streams| <= |Listed(w)| - |w.skip| + 1
  {
    if |w.streams| >= 2 {
      var k := |w.streams| - 2;
      assert Acked(w.streams[k]);
      PendAfterPrefix(c, w.skip, w.streams[k].entry);
    }
  }

  lemma ConnectKeepsProgress(c: Config, w: World)
    requires Core(c, w) && PrefixShape(c, w) && CountShape(c, w)
    requires Enabled(c, w, Connect)
    ensures PrefixShape(c, Apply(c, w, Connect)) && CountShape(c, Apply(c, w, Connect))
  {
    if Clean(w) && !w.hist.succeeded && w.resp.Some? {
      OneUnlisted(c, w);
    }
  }

  lemma StepKeepsProgress(c: Config, w: World, a: Action)
    requires Core(c, w) && PrefixShape(c, w) && CountShape(c, w)
    ensures PrefixShape(c, Step(c, w, a)) && CountShape(c, Step(c, w, a))
  {
    if Enabled(c, w, a) {
      match a
      case EditSource(contents) =>
      case Connect => ConnectKeepsProgress(c, w);
      case S(sa) =>
        SenderStepKeeps(c, w, sa);
        SenderKeepsProgress(c, w, SenderApply(c, w, sa));
      case R(ra) => ReceiverKeepsProgress(c, w, ra);
    }
  }

  lemma ReceiverKeepsProgress(c: Config, w: World, a: ReceiverAction)
    requires Core(c, w) && PrefixShape(c, w) && CountShape(c, w) && ReceiverEnabled(c, w, a)
    ensures PrefixShape(c, ReceiverApply(c, w, a)) && CountShape(c, ReceiverApply(c, w, a))
  {
    if Copying(a) {
      CopyingKeepsPrefix(c, w, a);
      CopyingKeepsCount(c, w, a);
    } else if Replying(a) {
      ReplyingKeepsPrefix(c, w, a);
      ReplyingKeepsCount(c, w, a);
    } else if Saving(a) {
      SavingKeepsPrefix(c, w, a);
      SavingKeepsCount(c, w, a);
    } else if Closing(a) {
      ClosingKeepsPrefix(c, w, a);
      ClosingKeepsCount(c, w, a);
    } else {
      LoopingKeepsPrefix(c, w, a);
      LoopingKeepsCount(c, w, a);
    }
  }

  // A start whose listing an earlier clean run of the same manifest left.
  ghost predicate CleanStart(c: Config, w: World) {
    Start(c, w) && w.hist.cleanSaves && Load(w.resume) <= Paths(c)
  }

  lemma {:induction false} RunKeepsProgress(c: Config, w: World, acts: seq<Action>)
    requires CleanStart(c, w)
    ensures Core(c, Exec(c, w, acts))
    ensures PrefixShape(c, Exec(c, w, acts)) && CountShape(c, Exec(c, w, acts))
    decreases |acts|
  {
    if acts == [] {
      StartHasCore(c, w);
    } else {
      RunKeepsProgress(c, w, acts[..|acts| - 1]);
      StepKeepsCore(c, Exec(c, w, acts[..|acts| - 1]), acts[|acts| - 1]);
      StepKeepsProgress(c, Exec(c, w, acts[..|acts| - 1]), acts[|acts| - 1]);
    }
  }

  // ---- Results -------------------------------------------------------------

  // While saves and loads work, the listing is at all times a duplicate-free
  // prefix of the manifest.
  lemma ListingIsPrefix(c: Config, w: World, acts: seq<Action>)
    requires CleanStart(c, w)
    ensures var w' := Exec(c, w, acts);
      Clean(w') ==>
        && Listed(w') <= Paths(c)
        && forall i, j :: 0 <= i < j < |Listed(w')| ==> Listed(w')[i] != Listed(w')[j]
  {
    RunKeepsProgress(c, w, acts);
    var w' := Exec(c, w, acts);
    if Clean(w') {
      forall i, j | 0 <= i < j < |Listed(w')| ensures Listed(w')[i] != Listed(w')[j] {
        assert Listed(w')[i] == Paths(c)[i] && Listed(w')[j] == Paths(c)[j];
      }
    }
  }

  lemma ListingGrowsInStep(c: Config, w: World, a: ReceiverAction)
    requires ReceiverEnabled(c, w, a) && ReceiverShape(c, w) && PrefixShape(c, w)
    requires Clean(ReceiverApply(c, w, a)) && !ReceiverApply(c, w, a).hist.succeeded
    ensures Listed(w) <= Listed(ReceiverApply(c, w, a))
  {
  }

  lemma FlagsOnlyFall(c: Config, w: World, a: ReceiverAction)
    requires ReceiverEnabled(c, w, a)
    ensures Clean(ReceiverApply(c, w, a)) ==> Clean(w)
    ensures w.hist.succeeded ==> ReceiverApply(c, w, a).hist.succeeded
  {
  }

  lemma ListingGrows(c: Config, w: World, a: Action)
    requires Core(c, w) && PrefixShape(c, w)
    ensures var w' := Step(c, w, a);
      Clean(w') && !w'.hist.succeeded ==> Clean(w) && !w.hist.succeeded && Listed(w) <= Listed(w')
  {
    if Enabled(c, w, a) {
      match a
      case EditSource(contents) =>
      case Connect =>
      case S(sa) => SenderFrames(c, w, sa);
      case R(ra) =>
        FlagsOnlyFall(c, w, ra);
        if Clean(ReceiverApply(c, w, ra)) && !ReceiverApply(c, w, ra).hist.succeeded {
          ListingGrowsInStep(c, w, ra);
        }
    }
  }

  // It never shrinks until a full success deletes it.
  lemma {:induction false} ListingNeverShrinks(c: Config, w: World, acts: seq<Action>, more: seq<Action>)
    requires CleanStart(c, w)
    ensures var w1 := Exec(c, w, acts);
      var w2 := Exec(c, w, acts + more);
      Clean(w2) && !w2.hist.succeeded ==> Clean(w1) && !w1.hist.succeeded && Listed(w1) <= Listed(w2)
    decreases |more|
  {
    if more == [] {
      assert acts + more == acts;
    } else {
      var front, a := more[..|more| - 1], more[|more| - 1];
      ListingNeverShrinks(c, w, acts, front);
      assert (acts + more)[..|acts + more| - 1] == acts + front;
      RunKeepsProgress(c, w, acts + front);
      ListingGrows(c, Exec(c, w, acts + front), a);
    }
  }

  // Streams opened over all attempts so far: at most one per listed entry and
  // one per attempt.
  lemma LittleIsResent(c: Config, w: World, acts: seq<Action>)
    requires CleanStart(c, w)
    ensures var w' := Exec(c, w, acts);
      Clean(w') && !w'.hist.succeeded ==> w'.hist.opens <= |Listed(w')| + w'.hist.attempts
  {
    RunKeepsProgress(c, w, acts);
    var w' := Exec(c, w, acts);
    if Clean(w') && !w'.hist.succeeded && w'.resp.Some? {
      OneUnlisted(c, w');
    }
  }

  lemma BoundAtTheEnd(c: Config, w: World)
    requires Core(c, w) && PrefixShape(c, w) && CountShape(c, w)
    requires Clean(w) && !w.hist.succeeded && w.rpc == RLoop(|c.files|)
    ensures w.hist.attempts > 0 && w.hist.opens <= |c.files| + (w.hist.attempts - 1)
  {
    PendAfterPrefix(c, w.skip, |c.files|);
    if w.streams != [] {
      var last := w.streams[|w.streams| - 1].entry;
      PendMonotone(c, w.skip, last + 1, |c.files|);
    }
  }

  // And when the receiver first returns nil: at most one per manifest entry and
  // one per interrupted attempt, that is, per attempt before this one.
  lemma RetransmissionBound(c: Config, w: World, acts: seq<Action>)
    requires CleanStart(c, w)
    ensures var w' := Exec(c, w, acts);
      Clean(w') && !w'.hist.succeeded && ReceiverEnabled(c, w', FinishReceiving(true)) ==>
        w'.hist.attempts > 0 && w'.hist.opens <= |c.files| + (w'.hist.attempts - 1)
  {
    RunKeepsProgress(c, w, acts);
    var w' := Exec(c, w, acts);
    if Clean(w') && !w'.hist.succeeded && ReceiverEnabled(c, w', FinishReceiving(true)) {
      BoundAtTheEnd(c, w');
    }
  }
}
