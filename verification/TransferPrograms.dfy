// The two programs of the transfer as they are written: loops over the
// manifest that update shared state in place. Before every operation that can
// block, the other party and the source tree take any number of steps of their
// own. `acts` remembers every step so far, so `Valid` says that what the
// programs did is a run of the machine; a crash between two statements is that
// run cut short, which TransferTheorems speaks about too. Whether a call that can
// fail goes through is an input, a fate.
module TransferPrograms {
  import opened Options
  import opened Manifests
  import opened TransferModel
  import opened TransferInvariant
  import opened TransferTheorems

  // w is where the recorded steps lead. The guard keeps the recorded run folded
  // up in the programs' own proofs; the lemmas of the class unfold it.
  ghost predicate Ran(c: Config, start: World, acts: seq<Action>, w: World) {
    forall k: int {:trigger Unfold(k)} :: Unfold(k) ==> Start(c, start) && w == Exec(c, start, acts)
  }

  ghost predicate Unfold(k: int) { true }

  // Action a leads from w to w2, folded up likewise. One lemma for each of the
  // larger steps says where it leads.
  ghost predicate Leads(c: Config, w: World, a: Action, w2: World) {
    forall k: int {:trigger Unfold(k)} :: Unfold(k) ==> Step(c, w, a) == w2
  }

  lemma RespondLeads(c: Config, w: World, readable: bool)
    requires w.rpc == RManifest && w.offered
    ensures var list := LoadIf(readable, w.resume);
      Leads(c, w, R(Respond(readable)),
            w.(skip := list, resp := Some(list), rpc := RLoop(0),
               hist := w.hist.(blindLoad := w.hist.blindLoad || Overlooks(c, Load(w.resume), list))))
  {
  }

  lemma ReadLeads(c: Config, w: World, j: nat, pos: nat, state: int, n: nat)
    requires w.rpc == RCopy(j, pos, state) && j < |c.files| && HasCurrent(w)
    requires pos + n <= |Current(w).sent| && c.files[j].path in w.disk
    ensures var p, data := c.files[j].path, Current(w).sent[pos..pos + n];
      Leads(c, w, R(ReadChunk(n)),
            w.(disk := w.disk[p := w.disk[p] + data], rpc := RCopy(j, pos + n, c.hash.Absorb(state, data))))
  {
  }

  lemma TruncateLeads(c: Config, w: World, j: nat, list: seq<Path>)
    requires w.rpc == RLoaded(j, list) && j < |c.files| && HasCurrent(w)
    ensures Leads(c, w, R(TruncateResume), w.(resume := Corrupt, rpc := RSaving(j, list)))
    ensures Leads(c, w, R(SaveRefused), w.(rpc := RSaved(j), hist := Recorded(c, w, false)))
  {
  }

  lemma WriteLeads(c: Config, w: World, j: nat, list: seq<Path>)
    requires w.rpc == RSaving(j, list) && j < |c.files| && HasCurrent(w)
    ensures Leads(c, w, R(WriteResume), w.(resume := Listing(list), rpc := RSaved(j), hist := Recorded(c, w, true)))
    ensures Leads(c, w, R(SaveFail), w.(rpc := RSaved(j), hist := Recorded(c, w, false)))
  {
  }

  lemma FinishLeads(c: Config, w: World, removed: bool)
    requires w.rpc == RLoop(|c.files|)
    ensures Leads(c, w, R(FinishReceiving(removed)),
                  w.(resume := if removed then Absent else w.resume, rpc := RSuccess,
                     hist := w.hist.(succeeded := true)))
  {
  }

  lemma OpenLeads(c: Config, w: World, i: nat)
    requires w.spc == SLoop(i) && i < |c.files| && c.files[i].path !in w.done && c.files[i].path in w.source
    ensures Leads(c, w, S(OpenStream),
                  w.(streams := w.streams + [Stream(i, [], false, "", false)], spc := SCopy(i, 0),
                     hist := w.hist.(opens := w.hist.opens + 1)))
  {
  }

  lemma EndLeads(c: Config, w: World, i: nat, off: nat)
    requires w.spc == SCopy(i, off) && i < |c.files| && w.streams != []
    ensures var last := |w.streams| - 1;
      var ended := w.streams[last := w.streams[last].(fin := true)];
      && (off >= |Content(c, w, i)| ==> Leads(c, w, S(FinishWrite), w.(streams := ended, spc := SAck(i))))
      && Leads(c, w, S(SourceFault), w.(streams := ended, spc := SExit, hist := w.hist.(pristine := false)))
  {
  }

  // ---- What the surroundings answer -----------------------------------------

  // Which calls of receiveFile go through: AcceptStream, os.Create, io.Copy, the
  // write of the ack, and the reads and writes of the resume file.
  datatype FileFate = FileFate(
    accept: bool, create: bool, copy: bool, ack: bool, reload: bool, truncate: bool, write: bool)

  // manifest: stream, decoding, directories and answer; readable: the read of the
  // resume file; remove: its removal at the end.
  datatype ReceiverFate = ReceiverFate(manifest: bool, readable: bool, files: nat -> FileFate, remove: bool)

  // Of sendFile: os.Open, OpenStreamSync, reads of the source, io.Copy's writes and
  // the close, the read of the ack; and whether, if the connection failed, the peer
  // has closed it and signaling is alive.
  datatype SendFate = SendFate(open: bool, stream: bool, readable: bool, copy: bool, ack: bool, rejoin: bool)

  datatype AttemptFate = AttemptFate(manifest: bool, files: nat -> SendFate)

  // The resume file after saveResumeState.
  function Saved(f: FileFate, r: ResumeFile, p: Path): ResumeFile {
    if !f.truncate then r else if !f.write then Corrupt else Listing(LoadIf(f.reload, r) + [p])
  }

  // After the first n entries have been received.
  ghost function SavedUpTo(c: Config, skip: seq<Path>, files: nat -> FileFate, r: ResumeFile, n: nat): ResumeFile
    requires n <= |c.files|
  {
    if n == 0 then r
    else
      var r1 := SavedUpTo(c, skip, files, r, n - 1);
      if Pending(c, skip, n - 1) then Saved(files(n - 1), r1, c.files[n - 1].path) else r1
  }

  ghost function Names(c: Config, entries: seq<nat>): seq<Path>
    requires forall k :: 0 <= k < |entries| ==> entries[k] < |c.files|
  {
    seq(|entries|, k requires 0 <= k < |entries| => c.files[entries[k]].path)
  }

  // When saving works, that is what it listed before and then the entries
  // received, in order.
  lemma {:induction false} SavedUpToLists(c: Config, skip: seq<Path>, files: nat -> FileFate, r: ResumeFile, n: nat)
    requires n <= |c.files|
    requires forall j :: 0 <= j < n ==> files(j).reload && files(j).truncate && files(j).write
    ensures forall k :: 0 <= k < |Remaining(c, skip, n)| ==> Remaining(c, skip, n)[k] < n
    ensures Load(SavedUpTo(c, skip, files, r, n)) == Load(r) + Names(c, Remaining(c, skip, n))
  {
    if n == 0 {
      assert Load(r) + [] == Load(r);
    } else {
      SavedUpToLists(c, skip, files, r, n - 1);
      var before := Remaining(c, skip, n - 1);
      if Pending(c, skip, n - 1) {
        assert Names(c, before + [n - 1]) == Names(c, before) + [c.files[n - 1].path];
        assert (Load(r) + Names(c, before)) + [c.files[n - 1].path] == Load(r) + Names(c, Remaining(c, skip, n));
      }
    }
  }

  class Transfer {
    const c: Config
    var source: map<Path, Bytes>
    var disk: map<Path, Bytes>
    var resume: ResumeFile
    var spc: SenderPc
    var done: seq<Path>
    var rpc: ReceiverPc
    var skip: seq<Path>
    var offered: bool
    var resp: Option<seq<Path>>
    var streams: seq<Stream>
    var accepted: nat
    var hist: History
    ghost const start: World
    ghost var acts: seq<Action>

    function View(): World
      reads this
    {
      World(source, disk, resume, spc, done, rpc, skip, offered, resp, streams, accepted, hist)
    }

    ghost predicate Valid()
      reads this
    {
      Ran(c, start, acts, View())
    }

    constructor (c: Config, w: World)
      requires Start(c, w)
      ensures Valid() && this.c == c && start == w && acts == []
    {
      this.c := c;
      source, disk, resume, spc, done := w.source, w.disk, w.resume, w.spc, w.done;
      rpc, skip, offered, resp := w.rpc, w.skip, w.offered, w.resp;
      streams, accepted, hist := w.streams, w.accepted, w.hist;
      start, acts := w, [];
    }

    lemma HasCore()
      requires Valid()
      ensures Core(c, View())
    {
      assert Unfold(0);
      StartHasCore(c, start);
      RunKeepsCore(c, start, acts);
    }

    // What the receiver's position tells it.
    lemma ReceiverFacts()
      requires Valid()
      ensures rpc.InFile() ==> rpc.j < |c.files| && HasCurrent(View())
      ensures rpc.RCopy? ==>
        && c.files[rpc.j].path in disk && rpc.pos <= |Current(View()).sent|
        && (Current(View()).fin && rpc.pos == |Current(View()).sent| ==>
            c.hash.finish(rpc.state) == c.hash.Sum(Current(View()).sent))
    {
      HasCore();
      if rpc.RCopy? && rpc.pos == |Current(View()).sent| {
        assert Current(View()).sent[..rpc.pos] == Current(View()).sent;
      }
    }

    // What the sender's position tells it.
    lemma SenderFacts()
      requires Valid()
      ensures spc.SCopy? || spc.SAck? ==> spc.i < |c.files| && streams != []
      ensures spc.SAck? ==> streams[|streams| - 1].entry == spc.i && streams[|streams| - 1].fin
      ensures spc.SAck? && hist.pristine ==>
        c.Valid() && streams[|streams| - 1].sent == c.scanned[c.files[spc.i].path]
      ensures spc.SAck? && Acked(streams[|streams| - 1]) ==>
        c.Valid() && Good(c, View(), spc.i) && c.files[spc.i].path in hist.recorded * hist.closed
    {
      HasCore();
    }

    // The theorems, at the state the programs are in.
    lemma Promises()
      requires Valid()
      ensures Init(c, start) && !hist.blindLoad ==>
        && ResumeSound(c, View())
        && (rpc.RSuccess? || spc.SDone? ==> Delivered(c, View()))
    {
      assert Unfold(0);
      if Init(c, start) {
        ResumeAlwaysSound(c, start, acts);
        ReceiveNilMeansDelivered(c, start, acts);
        SendNilMeansDelivered(c, start, acts);
      }
    }

    // Enter a step that has just been made into the record.
    ghost method Did(before: World, a: Action)
      requires Ran(c, start, acts, before) && View() == Step(c, before, a)
      modifies this`acts
      ensures Valid()
    {
      assert Unfold(0);
      acts := acts + [a];
      assert acts[..|acts| - 1] == old(acts);
    }

    // Likewise, a step that is known to lead here.
    ghost method Made(before: World, a: Action)
      requires Ran(c, start, acts, before) && Leads(c, before, a, View())
      modifies this`acts
      ensures Valid()
    {
      assert Unfold(0);
      Did(before, a);
    }

    // ---- The other party --------------------------------------------------

    method Become(w: World)
      modifies this
      ensures View() == w && acts == old(acts)
    {
      BecomeDisks(w);
      BecomeParties(w);
      BecomeWire(w);
    }

    method BecomeDisks(w: World)
      modifies this
      ensures acts == old(acts)
      ensures View() == old(View()).(source := w.source, disk := w.disk, resume := w.resume, hist := w.hist)
    {
      source, disk, resume, hist := w.source, w.disk, w.resume, w.hist;
    }

    method BecomeParties(w: World)
      modifies this
      ensures acts == old(acts)
      ensures View() == old(View()).(spc := w.spc, done := w.done, rpc := w.rpc, skip := w.skip)
    {
      spc, done, rpc, skip := w.spc, w.done, w.rpc, w.skip;
    }

    method BecomeWire(w: World)
      modifies this
      ensures acts == old(acts)
      ensures View() == old(View()).(offered := w.offered, resp := w.resp, streams := w.streams, accepted := w.accepted)
    {
      offered, resp, streams, accepted := w.offered, w.resp, w.streams, w.accepted;
    }

    method StepOther(a: Action)
      requires Valid()
      modifies this
      ensures Valid() && View() == Step(c, old(View()), a)
    {
      ghost var before := View();
      var w := Step(c, View(), a);
      Become(w);
      Did(before, a);
    }

    // What the receiver may count on while others run.
    ghost predicate ReceiverRely(w: World, w': World) {
      && w'.rpc == w.rpc && w'.disk == w.disk && w'.resume == w.resume
      && w'.skip == w.skip && w'.accepted == w.accepted
      && w'.hist.recorded == w.hist.recorded && w'.hist.closed == w.hist.closed
      && w'.hist.blindLoad == w.hist.blindLoad
      && |w.streams| <= |w'.streams|
    }

    method SenderRuns()
      requires Valid()
      modifies this
      ensures Valid() && ReceiverRely(old(View()), View())
    {
      var steps: nat := *;
      while steps > 0
        invariant Valid() && ReceiverRely(old(View()), View())
      {
        var edit: bool := *;
        ghost var w := View();
        if edit {
          var contents: map<Path, Bytes> := *;
          StepOther(EditSource(contents));
        } else {
          var sa: SenderAction := *;
          if SenderEnabled(c, View(), sa) {
            SenderFrames(c, View(), sa);
          }
          StepOther(S(sa));
        }
        steps := steps - 1;
      }
    }

    // What the sender may count on while others run.
    ghost predicate SenderRely(w: World, w': World) {
      && w'.spc == w.spc && w'.done == w.done && w'.hist.attempts == w.hist.attempts
      && |w'.streams| == |w.streams|
      && (forall k :: 0 <= k < |w.streams| ==> w'.streams[k].sent == w.streams[k].sent)
    }

    method ReceiverRuns()
      requires Valid()
      modifies this
      ensures Valid() && SenderRely(old(View()), View())
    {
      var steps: nat := *;
      while steps > 0
        invariant Valid() && SenderRely(old(View()), View())
      {
        var edit: bool := *;
        if edit {
          var contents: map<Path, Bytes> := *;
          StepOther(EditSource(contents));
        } else {
          var ra: ReceiverAction := *;
          HasCore();
          if ReceiverEnabled(c, View(), ra) {
            ReceiverStepKeeps(c, View(), ra);
          }
          StepOther(R(ra));
        }
        steps := steps - 1;
      }
    }

    // ---- The receiver -----------------------------------------------------

    // What no step of receiveFile touches.
    ghost predicate Steady(w: World, w': World) {
      w'.skip == w.skip && w'.hist.blindLoad == w.hist.blindLoad
    }

    // The stream in hand has come to its end, and brought what the manifest says.
    ghost predicate Arrived(j: nat)
      reads this
    {
      && HasCurrent(View()) && j < |c.files| && Current(View()).fin
      && c.hash.Sum(Current(View()).sent) == c.files[j].digest
    }

    // Any return of an error before a file stream is held.
    method ReceiverGivesUp()
      requires Valid() && !rpc.RDown?
      modifies this
      ensures Valid() && rpc == RDown && spc == old(spc)
      ensures disk == old(disk) && resume == old(resume) && Steady(old(View()), View())
      ensures streams == old(streams) && accepted == old(accepted) && hist.attempts == old(hist.attempts)
      ensures offered == old(offered)
    {
      ReceiverFacts();
      ghost var w := View();
      hist := hist.(cleanSaves := hist.cleanSaves && !rpc.RSaving?);
      rpc := RDown;
      Did(w, R(ReceiverStop));
    }

    // The answer is what loadResumeState finds: the listing as it is on disk, and
    // nothing if the file is absent, corrupt or cannot be read.
    method ReceiveManifest(f: ReceiverFate) returns (ok: bool)
      requires Valid() && rpc == RManifest
      modifies this
      ensures Valid()
      ensures ok <==> offered && f.manifest
      ensures ok ==> rpc == RLoop(0) && resp == Some(skip)
      ensures ok ==> skip == if f.readable && resume.Listing? then resume.completed else []
      ensures !ok ==> rpc == RDown
      ensures f.readable || !ok ==> hist.blindLoad == old(hist.blindLoad)
      ensures disk == old(disk) && resume == old(resume)
    {
      SenderRuns();
      if !offered || !f.manifest {
        ReceiverGivesUp();
        return false;
      }
      AnswerManifest(f.readable);
      return true;
    }

    method AnswerManifest(readable: bool)
      requires Valid() && rpc == RManifest && offered
      modifies this`hist, this`resp, this`skip, this`rpc, this`acts
      ensures Valid() && rpc == RLoop(0) && resp == Some(skip)
      ensures skip == if readable && resume.Listing? then resume.completed else []
      ensures readable ==> hist.blindLoad == old(hist.blindLoad)
    {
      ghost var w := View();
      var completed := LoadIf(readable, resume);
      hist := hist.(blindLoad := hist.blindLoad || Overlooks(c, Load(resume), completed));
      resp := Some(completed);
      skip := completed;
      rpc := RLoop(0);
      RespondLeads(c, w, readable);
      assert View() == w.(skip := skip, resp := resp, rpc := rpc, hist := hist);
      Made(w, R(Respond(readable)));
    }

    // The single operations of receiveFile, in source order.

    method AcceptStream(j: nat)
      requires Valid() && rpc == RLoop(j) && j < |c.files| && c.files[j].path !in skip
      requires accepted < |streams|
      modifies this
      ensures Valid() && rpc == RAccepted(j) && disk == old(disk) && resume == old(resume)
      ensures Steady(old(View()), View()) && accepted == old(accepted) + 1
    {
      ghost var w := View();
      accepted := accepted + 1;
      rpc := RAccepted(j);
      Did(w, R(Accept));
    }

    // os.Create: the destination exists and is empty from here on.
    method CreateDestination(j: nat, created: bool)
      requires Valid() && rpc == RAccepted(j)
      modifies this
      ensures Valid() && resume == old(resume) && j < |c.files|
      ensures Steady(old(View()), View()) && accepted == old(accepted)
      ensures created ==> rpc == RCopy(j, 0, c.hash.seed) && disk == old(disk)[c.files[j].path := []]
      ensures !created ==> rpc == RUnwind(j) && disk == old(disk)
    {
      ReceiverFacts();
      ghost var w := View();
      if created {
        disk := disk[c.files[j].path := []];
        rpc := RCopy(j, 0, c.hash.seed);
        Did(w, R(Create));
      } else {
        streams := Reply(View(), CreateFailed);
        rpc := RUnwind(j);
        Did(w, R(CreateFail));
      }
    }

    // One round of io.Copy: the bytes go to the file and into the digest.
    method CopyChunk(j: nat, pos: nat, state: int, n: nat) returns (pos': nat, state': int)
      requires Valid() && rpc == RCopy(j, pos, state)
      requires HasCurrent(View()) && pos + n <= |Current(View()).sent|
      modifies this
      ensures Valid() && rpc == RCopy(j, pos', state') && resume == old(resume) && pos' == pos + n
      ensures j < |c.files|
      ensures Steady(old(View()), View()) && accepted == old(accepted) && streams == old(streams)
      ensures forall p :: p in old(disk) && p != c.files[j].path ==> p in disk && disk[p] == old(disk)[p]
    {
      ReceiverFacts();
      ghost var w := View();
      var p, data := c.files[j].path, Current(View()).sent[pos..pos + n];
      disk := disk[p := disk[p] + data];
      pos', state' := pos + n, c.hash.Absorb(state, data);
      rpc := RCopy(j, pos', state');
      ReadLeads(c, w, j, pos, state, n);
      Made(w, R(ReadChunk(n)));
    }

    method FailCopy(j: nat)
      requires Valid() && rpc.RCopy? && rpc.j == j && HasCurrent(View())
      modifies this
      ensures Valid() && rpc == RUnwind(j) && disk == old(disk) && resume == old(resume)
      ensures Steady(old(View()), View()) && accepted == old(accepted) && j < |c.files|
      ensures HasCurrent(View()) && Current(View()).fin == old(Current(View()).fin)
    {
      ReceiverFacts();
      ghost var w := View();
      streams := Reply(View(), CopyFailed);
      rpc := RUnwind(j);
      Did(w, R(CopyFail));
    }

    method CompareDigest(j: nat) returns (same: bool)
      requires Valid() && rpc.RCopy? && rpc.j == j
      requires HasCurrent(View()) && Current(View()).fin && rpc.pos == |Current(View()).sent|
      modifies this
      ensures Valid() && disk == old(disk) && resume == old(resume)
      ensures j < |c.files| && same == (c.hash.Sum(Current(old(View())).sent) == c.files[j].digest)
      ensures Steady(old(View()), View()) && accepted == old(accepted) && same == Arrived(j)
      ensures same ==> rpc == RVerified(j)
      ensures !same ==> rpc == RUnwind(j)
    {
      ReceiverFacts();
      ghost var w := View();
      same := c.hash.finish(rpc.state) == c.files[j].digest;
      if same {
        rpc := RVerified(j);
      } else {
        streams := Reply(View(), MismatchFor(c.files[j].path));
        rpc := RUnwind(j);
      }
      Did(w, R(CheckDigest));
    }

    method WriteOk(j: nat, written: bool)
      requires Valid() && rpc == RVerified(j)
      modifies this
      ensures Valid() && disk == old(disk) && resume == old(resume) && j < |c.files|
      ensures Steady(old(View()), View()) && accepted == old(accepted)
      ensures rpc == if written then RAcked(j) else RUnwind(j)
    {
      ReceiverFacts();
      ghost var w := View();
      if written {
        streams := Reply(View(), OkAck);
        rpc := RAcked(j);
        Did(w, R(WriteAck));
      } else {
        rpc := RUnwind(j);
        Did(w, R(AckFail));
      }
    }

    method ReloadAndAppend(j: nat, readable: bool) returns (completed: seq<Path>)
      requires Valid() && rpc == RAcked(j)
      modifies this
      ensures Valid() && rpc == RLoaded(j, completed) && disk == old(disk) && resume == old(resume)
      ensures j < |c.files| && completed == LoadIf(readable, resume) + [c.files[j].path]
      ensures Steady(old(View()), View()) && accepted == old(accepted)
    {
      ReceiverFacts();
      ghost var w := View();
      completed := LoadIf(readable, resume);
      hist := hist.(cleanSaves := hist.cleanSaves && completed == Load(resume));
      completed := completed + [c.files[j].path];
      rpc := RLoaded(j, completed);
      Did(w, R(Reload(readable)));
    }

    // os.WriteFile truncates, then writes; it may fail before or between.
    method OpenResume(j: nat, completed: seq<Path>, truncated: bool)
      requires Valid() && rpc == RLoaded(j, completed)
      modifies this
      ensures Valid() && disk == old(disk) && j < |c.files|
      ensures Steady(old(View()), View()) && accepted == old(accepted)
      ensures truncated ==> rpc == RSaving(j, completed) && resume == Corrupt
      ensures !truncated ==> rpc == RSaved(j) && resume == old(resume) && c.files[j].path in hist.recorded
    {
      ReceiverFacts();
      ghost var w := View();
      TruncateLeads(c, w, j, completed);
      if truncated {
        resume := Corrupt;
        rpc := RSaving(j, completed);
        Made(w, R(TruncateResume));
      } else {
        hist := Recorded(c, View(), false);
        rpc := RSaved(j);
        Made(w, R(SaveRefused));
      }
    }

    method WriteResumeFile(j: nat, completed: seq<Path>, written: bool)
      requires Valid() && rpc == RSaving(j, completed)
      modifies this
      ensures Valid() && rpc == RSaved(j) && disk == old(disk)
      ensures resume == if written then Listing(completed) else old(resume)
      ensures Steady(old(View()), View()) && accepted == old(accepted)
      ensures j < |c.files| && c.files[j].path in hist.recorded
    {
      ReceiverFacts();
      ghost var w := View();
      WriteLeads(c, w, j, completed);
      hist := Recorded(c, View(), written);
      rpc := RSaved(j);
      if written {
        resume := Listing(completed);
        Made(w, R(WriteResume));
      } else {
        Made(w, R(SaveFail));
      }
    }

    method CloseDestination(j: nat)
      requires Valid() && rpc == RSaved(j)
      modifies this
      ensures Valid() && rpc == RFileClosed(j) && disk == old(disk) && resume == old(resume)
      ensures j < |c.files| && hist == old(hist).(closed := old(hist).closed + {c.files[j].path})
      ensures skip == old(skip) && accepted == old(accepted)
    {
      ReceiverFacts();
      ghost var w := View();
      hist := hist.(closed := hist.closed + {c.files[j].path});
      rpc := RFileClosed(j);
      Did(w, R(CloseFile));
    }

    method CloseReplyStream(j: nat)
      requires Valid() && rpc == RFileClosed(j)
      modifies this
      ensures Valid() && rpc == RLoop(j + 1) && disk == old(disk) && resume == old(resume)
      ensures hist == old(hist) && skip == old(skip) && accepted == old(accepted)
    {
      ReceiverFacts();
      ghost var w := View();
      streams := EndReply(View());
      rpc := RLoop(j + 1);
      Did(w, R(CloseStream));
    }

    // The deferred closes on an error return.
    method Unwind(j: nat)
      requires Valid() && rpc == RUnwind(j)
      modifies this
      ensures Valid() && rpc == RDown && disk == old(disk) && resume == old(resume)
      ensures Steady(old(View()), View()) && accepted == old(accepted) && Arrived(j) == old(Arrived(j))
    {
      ReceiverFacts();
      ghost var w := View();
      streams := EndReply(View());
      rpc := RDown;
      Did(w, R(UnwindClose));
    }

    // The copy loop: each round takes some of what has arrived, and the last one
    // the rest, once the sender's half has ended.
    method CopyToDisk(j: nat, alive: bool) returns (ended: bool)
      requires Valid() && rpc == RCopy(j, 0, c.hash.seed)
      modifies this
      ensures Valid() && j < |c.files| && resume == old(resume)
      ensures Steady(old(View()), View()) && accepted == old(accepted)
      ensures HasCurrent(View()) && (ended <==> alive && Current(View()).fin)
      ensures ended ==> rpc.RCopy? && rpc.j == j && rpc.pos == |Current(View()).sent|
      ensures !ended ==> rpc == RUnwind(j)
      ensures forall p :: p in old(disk) && p != c.files[j].path ==> p in disk && disk[p] == old(disk)[p]
    {
      ReceiverFacts();
      var rounds: nat := *;      // reads and writes before the last one
      var pos: nat, state := 0, c.hash.seed;
      while rounds > 0
        invariant Valid() && rpc == RCopy(j, pos, state) && resume == old(resume)
        invariant Steady(old(View()), View()) && accepted == old(accepted)
        invariant forall p :: p in old(disk) && p != c.files[j].path ==> p in disk && disk[p] == old(disk)[p]
      {
        SenderRuns();
        ReceiverFacts();
        var n: nat := *;
        if pos + n <= |Current(View()).sent| {
          pos, state := CopyChunk(j, pos, state, n);
        }
        rounds := rounds - 1;
      }
      SenderRuns();
      ReceiverFacts();
      if !alive || !Current(View()).fin {
        FailCopy(j);
        return false;
      }
      pos, state := CopyChunk(j, pos, state, |Current(View()).sent| - pos);
      return true;
    }

    // receiveFile up to the ack. Only this entry's destination is written.
    method ReceiveContents(j: nat, f: FileFate) returns (ok: bool)
      requires Valid() && rpc == RAccepted(j)
      modifies this
      ensures Valid() && j < |c.files| && resume == old(resume)
      ensures Steady(old(View()), View()) && accepted == old(accepted)
      ensures rpc == if ok then RAcked(j) else RUnwind(j)
      ensures ok ==> f.create && f.copy && f.ack
      ensures !ok ==> !f.create || !f.copy || !f.ack || !Arrived(j)
      ensures forall p :: p in old(disk) && p != c.files[j].path ==> p in disk && disk[p] == old(disk)[p]
    {
      CreateDestination(j, f.create);
      if !f.create {
        return false;
      }
      ok := CopyToDisk(j, f.copy);
      if ok {
        ok := CheckAndAck(j, f.ack);
      }
    }

    // The comparison with the manifest's digest, then "ok".
    method CheckAndAck(j: nat, written: bool) returns (ok: bool)
      requires Valid() && rpc.RCopy? && rpc.j == j
      requires HasCurrent(View()) && Current(View()).fin && rpc.pos == |Current(View()).sent|
      modifies this
      ensures Valid() && disk == old(disk) && resume == old(resume)
      ensures Steady(old(View()), View()) && accepted == old(accepted)
      ensures rpc == if ok then RAcked(j) else RUnwind(j)
      ensures ok ==> written
      ensures !ok ==> !written || !Arrived(j)
    {
      ok := CompareDigest(j);
      if ok {
        WriteOk(j, written);
        ok := written;
      }
    }

    // saveResumeState, between the ack and the closes.
    method RecordCompleted(j: nat, f: FileFate)
      requires Valid() && rpc == RAcked(j)
      modifies this
      ensures Valid() && rpc == RSaved(j) && disk == old(disk)
      ensures Steady(old(View()), View()) && accepted == old(accepted)
      ensures j < |c.files| && c.files[j].path in hist.recorded
      ensures resume == Saved(f, old(resume), c.files[j].path)
    {
      var completed := ReloadAndAppend(j, f.reload);
      OpenResume(j, completed, f.truncate);
      if f.truncate {
        SenderRuns();
        WriteResumeFile(j, completed, f.write);
      }
    }

    // Why receiveFile can return an error: a call has failed, no stream came, or
    // what came was not whole or not right.
    ghost predicate Refuses(j: nat, f: FileFate, before: nat)
      reads this
    {
      if accepted <= before then !f.accept || accepted >= |streams|
      else !f.create || !f.copy || !f.ack || !Arrived(j)
    }

    method ReceiveFile(j: nat, f: FileFate) returns (ok: bool)
      requires Valid() && rpc == RLoop(j) && j < |c.files| && c.files[j].path !in skip
      modifies this
      ensures Valid() && Steady(old(View()), View())
      ensures rpc == if ok then RLoop(j + 1) else RDown
      ensures ok ==> f.accept && f.create && f.copy && f.ack
      ensures ok ==> c.files[j].path in hist.recorded * hist.closed
      ensures !ok ==> Refuses(j, f, old(accepted))
      ensures resume == if ok then Saved(f, old(resume), c.files[j].path) else old(resume)
    {
      SenderRuns();
      if !f.accept || accepted >= |streams| {
        ReceiverGivesUp();       // the connection failed while waiting
        return false;
      }
      AcceptStream(j);
      ok := ReceiveContents(j, f);
      if ok {
        SenderRuns();
        RecordCompleted(j, f);
        CloseDestination(j);
        SenderRuns();
        CloseReplyStream(j);
      } else {
        Unwind(j);
      }
    }

    // Returns nil unless the file it has reached is refused. What it leaves on disk
    // as resume file is exactly what was saved, and nothing after a full success
    // whose removal went through.
    method ReceiveFiles(files: nat -> FileFate, remove: bool) returns (ok: bool, ghost reached: nat)
      requires Valid() && rpc == RLoop(0)
      modifies this
      ensures Valid() && Steady(old(View()), View()) && reached <= |c.files|
      ensures rpc == if ok then RSuccess else RDown
      ensures ok <==> reached == |c.files|
      ensures !ok ==> c.files[reached].path !in skip && Refuses(reached, files(reached), Pend(c, skip, reached))
      ensures resume == if ok && remove then Absent else SavedUpTo(c, skip, files, old(resume), reached)
      ensures Init(c, start) && !hist.blindLoad ==> ResumeSound(c, View())
      ensures Init(c, start) && !hist.blindLoad && ok ==> Delivered(c, View())
    {
      var j: nat := 0;
      ok, reached := true, 0;
      while j < |c.files| && ok
        invariant Valid() && j <= |c.files| && Steady(old(View()), View())
        invariant if ok then rpc == RLoop(j) && reached == j else rpc == RDown && reached < |c.files|
        invariant !ok ==> c.files[reached].path !in skip && Refuses(reached, files(reached), Pend(c, skip, reached))
        invariant reached <= |c.files| && resume == SavedUpTo(c, skip, files, old(resume), reached)
      {
        if c.files[j].path in skip {
          SkipReceivedFile(j);
        } else {
          LoopFacts();
          ok := ReceiveFile(j, files(j));
        }
        j := j + 1;
        reached := if ok then j else j - 1;
      }
      if ok {
        DeleteResumeState(remove);
      }
      Promises();
    }

    // At the head of the loop one stream has been taken per entry not skipped.
    lemma LoopFacts()
      requires Valid() && rpc.RLoop?
      ensures rpc.j <= |c.files| && accepted == Pend(c, skip, rpc.j)
    {
      HasCore();
    }

    method SkipReceivedFile(j: nat)
      requires Valid() && rpc == RLoop(j) && j < |c.files| && c.files[j].path in skip
      modifies this`rpc, this`acts
      ensures Valid() && rpc == RLoop(j + 1)
    {
      ghost var w := View();
      rpc := RLoop(j + 1);
      Did(w, R(SkipReceived));
    }

    // os.Remove, whose failure is ignored, and the return of nil.
    method DeleteResumeState(removed: bool)
      requires Valid() && rpc == RLoop(|c.files|)
      modifies this
      ensures Valid() && rpc == RSuccess && disk == old(disk) && Steady(old(View()), View())
      ensures resume == if removed then Absent else old(resume)
    {
      ghost var w := View();
      resume := if removed then Absent else resume;
      rpc := RSuccess;
      hist := hist.(succeeded := true);
      FinishLeads(c, w, removed);
      Made(w, R(FinishReceiving(removed)));
    }

    // The last two steps of runReceive, once the QUIC connection is accepted. If
    // the resume file could be read, nothing else is needed for its promises: the
    // listing stays true, and nil means delivery.
    method RunReceive(f: ReceiverFate) returns (ok: bool, ghost reached: nat)
      requires Valid() && rpc == RManifest
      modifies this
      ensures Valid() && rpc == if ok then RSuccess else RDown
      ensures ok ==> f.manifest && reached == |c.files|
      ensures reached <= |c.files|
      ensures !ok && offered && f.manifest ==>
        && reached < |c.files| && c.files[reached].path !in skip
        && Refuses(reached, f.files(reached), Pend(c, skip, reached))
      ensures resume == if ok && f.remove then Absent else SavedUpTo(c, skip, f.files, old(resume), reached)
      ensures offered && f.manifest ==> skip == if f.readable then Load(old(resume)) else []
      ensures Init(c, start) && !hist.blindLoad ==> ResumeSound(c, View())
      ensures Init(c, start) && !hist.blindLoad && ok ==> Delivered(c, View())
      ensures f.readable ==> hist.blindLoad == old(hist.blindLoad)
      ensures Init(c, start) && !old(hist.blindLoad) && f.readable ==>
        ResumeSound(c, View()) && (ok ==> Delivered(c, View()))
    {
      ok := ReceiveManifest(f);
      reached := 0;
      if ok {
        ok, reached := ReceiveFiles(f.files, f.remove);
      } else {
        Promises();
      }
    }

    // ---- The sender -------------------------------------------------------

    // Any error of an attempt: wait again if the peer closed the connection
    // during the transfer and signaling is alive, else give up.
    method SenderFails(peerClosed: bool)
      requires Valid() && !spc.SDone?
      modifies this
      ensures Valid()
      ensures spc == if peerClosed && old(spc.SLoop? || spc.SCopy? || spc.SAck?) then SWait else SExit
      ensures View() == old(View()).(spc := spc)
    {
      ghost var w := View();
      if peerClosed && (spc.SLoop? || spc.SCopy? || spc.SAck?) {
        spc := SWait;
        Did(w, S(PeerClosed));
      } else {
        spc := SExit;
        Did(w, S(SenderStop));
      }
    }

    // Fails only if the connection does, or no answer comes.
    method SendManifest(alive: bool) returns (ok: bool)
      requires Valid() && spc == SConnected
      modifies this
      ensures Valid() && hist.attempts == old(hist.attempts)
      ensures ok <==> alive && resp.Some?
      ensures ok ==> spc == SLoop(0) && resp == Some(done)
      ensures !ok ==> spc == SExit
    {
      OfferManifest();
      ReceiverRuns();
      if resp.None? || !alive {
        SenderFails(false);
        return false;
      }
      TakeAnswer();
      return true;
    }

    method OfferManifest()
      requires Valid() && spc == SConnected
      modifies this`offered, this`spc, this`acts
      ensures Valid() && spc == SOffered
    {
      ghost var w := View();
      offered := true;
      spc := SOffered;
      Did(w, S(SendOffer));
    }

    method TakeAnswer()
      requires Valid() && spc == SOffered && resp.Some?
      modifies this`done, this`spc, this`acts
      ensures Valid() && spc == SLoop(0) && resp == Some(done)
    {
      ghost var w := View();
      done := resp.value;
      spc := SLoop(0);
      Did(w, S(TakeResponse));
    }

    // One round of sendFile's io.Copy from the open source file, which may
    // change under it.
    method SendChunk(i: nat, off: nat, n: nat) returns (off': nat)
      requires Valid() && spc == SCopy(i, off) && i < |c.files| && streams != []
      requires off + n <= |Content(c, View(), i)|
      modifies this
      ensures Valid() && spc == SCopy(i, off') && off' == off + n
      ensures |streams| == |old(streams)| && source == old(source)
      ensures done == old(done) && hist.attempts == old(hist.attempts)
    {
      ghost var w := View();
      var last := |streams| - 1;
      var data := Content(c, View(), i)[off..off + n];
      streams := streams[last := streams[last].(sent := streams[last].sent + data)];
      off' := off + n;
      spc := SCopy(i, off');
      Did(w, S(WriteChunk(n)));
    }

    // stream.Close on the write side, after a full copy or deferred after a
    // read error.
    method EndStream(i: nat, off: nat, whole: bool)
      requires Valid() && spc == SCopy(i, off) && i < |c.files| && streams != []
      requires whole ==> off >= |Content(c, View(), i)|
      modifies this
      ensures Valid() && spc == if whole then SAck(i) else SExit
      ensures |streams| == |old(streams)| && done == old(done) && hist.attempts == old(hist.attempts)
    {
      ghost var w := View();
      EndLeads(c, w, i, off);
      var last := |streams| - 1;
      streams := streams[last := streams[last].(fin := true)];
      if whole {
        spc := SAck(i);
        Made(w, S(FinishWrite));
      } else {
        spc := SExit;
        hist := hist.(pristine := false);
        Made(w, S(SourceFault));
      }
    }

    // Where an error of the connection leaves runSend.
    static function AfterLoss(f: SendFate): SenderPc {
      if f.rejoin then SWait else SExit
    }

    // What the sender's own steps in one file leave alone.
    ghost predicate SendSteady(w: World, w': World) {
      |w'.streams| == |w.streams| && w'.done == w.done && w'.hist.attempts == w.hist.attempts
    }

    // io.Copy and the close of the write side.
    method CopyToStream(i: nat, f: SendFate) returns (copied: bool)
      requires Valid() && spc == SCopy(i, 0)
      modifies this
      ensures Valid() && SendSteady(old(View()), View())
      ensures copied <==> f.readable && f.copy
      ensures copied ==> spc == SAck(i) && i < |c.files| && streams != []
      ensures copied ==> streams[|streams| - 1].entry == i && streams[|streams| - 1].fin
      ensures copied && hist.pristine ==>
        c.Valid() && streams[|streams| - 1].sent == c.scanned[c.files[i].path]
      ensures !copied ==> spc == if f.readable then AfterLoss(f) else SExit
    {
      SenderFacts();
      var rounds: nat := *;      // reads and writes before the last one
      var off: nat := 0;
      while rounds > 0
        invariant Valid() && spc == SCopy(i, off) && i < |c.files| && SendSteady(old(View()), View())
      {
        ReceiverRuns();
        SenderFacts();
        var n: nat := *;
        if off + n <= |Content(c, View(), i)| {
          off := SendChunk(i, off, n);
        }
        rounds := rounds - 1;
      }
      SenderFacts();
      if !f.readable {
        EndStream(i, off, false);
        return false;
      }
      if !f.copy {
        SenderFails(f.rejoin);
        return false;
      }
      if off < |Content(c, View(), i)| {
        off := SendChunk(i, off, |Content(c, View(), i)| - off);
        SenderFacts();
      }
      EndStream(i, off, true);
      SenderFacts();
      return true;
    }

    // Why sendFile can return an error, and what runSend then does: it waits for the
    // receiver again exactly if the connection was lost and can be had again.
    ghost predicate GivesUp(i: nat, f: SendFate, before: nat)
      requires i < |c.files|
      reads this
    {
      if |streams| <= before then
        if c.files[i].path !in source || !f.open then spc == SExit
        else !f.stream && spc == AfterLoss(f)
      else
        var last := streams[|streams| - 1];
        if !f.readable then spc == SExit
        else if !f.copy || !f.ack || !last.ackFin then spc == AfterLoss(f)
        else last.ack != OkAck && spc == SExit
    }

    method SendFile(i: nat, f: SendFate) returns (ok: bool)
      requires Valid() && spc == SLoop(i) && i < |c.files| && c.files[i].path !in done
      modifies this
      ensures Valid() && done == old(done) && hist.attempts == old(hist.attempts)
      ensures ok ==> spc == SLoop(i + 1) && f.open && f.stream && f.readable && f.copy && f.ack
      ensures !ok ==> GivesUp(i, f, |old(streams)|)
    {
      ReceiverRuns();
      if c.files[i].path !in source || !f.open {
        SenderFails(false);
        return false;
      }
      if !f.stream {
        SenderFails(f.rejoin);
        return false;
      }
      OpenFileStream(i);
      ok := CopyToStream(i, f);
      if ok {
        ok := ReadAck(i, f);
      }
    }

    method OpenFileStream(i: nat)
      requires Valid() && spc == SLoop(i) && i < |c.files| && c.files[i].path !in done && c.files[i].path in source
      modifies this`streams, this`hist, this`spc, this`acts
      ensures Valid() && spc == SCopy(i, 0)
      ensures streams == old(streams) + [Stream(i, [], false, "", false)]
      ensures hist.attempts == old(hist.attempts)
    {
      ghost var w := View();
      streams := streams + [Stream(i, [], false, "", false)];
      hist := hist.(opens := hist.opens + 1);
      spc := SCopy(i, 0);
      OpenLeads(c, w, i);
      assert View() == w.(streams := streams, spc := SCopy(i, 0), hist := hist);
      Made(w, S(OpenStream));
    }

    // io.ReadAll on the receiver's half, then the comparison with "ok".
    method ReadAck(i: nat, f: SendFate) returns (ok: bool)
      requires Valid() && spc == SAck(i)
      modifies this
      ensures Valid() && SendSteady(old(View()), View()) && streams != []
      ensures ok <==> f.ack && streams[|streams| - 1].ackFin && streams[|streams| - 1].ack == OkAck
      ensures ok ==> spc == SLoop(i + 1) && i < |c.files| && c.Valid() && Good(c, View(), i)
      ensures ok ==> c.files[i].path in hist.recorded * hist.closed
      ensures !ok ==> spc == if f.ack && streams[|streams| - 1].ackFin then SExit else AfterLoss(f)
    {
      ReceiverRuns();
      SenderFacts();
      if !f.ack || !streams[|streams| - 1].ackFin {
        SenderFails(f.rejoin);
        return false;
      }
      ghost var w := View();
      ok := streams[|streams| - 1].ack == OkAck;
      spc := if ok then SLoop(i + 1) else SExit;
      Did(w, S(TakeAck));
      SenderFacts();
    }

    // Returns nil unless it has to give up at the file it has reached.
    method SendFiles(files: nat -> SendFate) returns (ok: bool, ghost reached: nat)
      requires Valid() && spc == SLoop(0)
      modifies this
      ensures Valid() && hist.attempts == old(hist.attempts)
      ensures reached <= |c.files| && (ok <==> reached == |c.files|)
      ensures ok ==> spc == SDone
      ensures !ok ==> c.files[reached].path !in done && GivesUp(reached, files(reached), Pend(c, done, reached))
      ensures Init(c, start) && !hist.blindLoad && ok ==> Delivered(c, View())
    {
      var i: nat := 0;
      ok, reached := true, 0;
      while i < |c.files| && ok
        invariant Valid() && i <= |c.files| && hist.attempts == old(hist.attempts)
        invariant if ok then spc == SLoop(i) && reached == i else reached < |c.files|
        invariant !ok ==> c.files[reached].path !in done && GivesUp(reached, files(reached), Pend(c, done, reached))
      {
        if c.files[i].path in done {
          SkipSentFile(i);
        } else {
          SendLoopFacts();
          ok := SendFile(i, files(i));
        }
        i := i + 1;
        reached := if ok then i else i - 1;
      }
      if ok {
        ghost var w := View();
        spc := SDone;
        Did(w, S(FinishSending));
        Promises();
      }
    }

    lemma SendLoopFacts()
      requires Valid() && spc.SLoop?
      ensures spc.i <= |c.files| && |streams| == Pend(c, done, spc.i)
    {
      HasCore();
    }

    method SkipSentFile(i: nat)
      requires Valid() && spc == SLoop(i) && i < |c.files| && c.files[i].path in done
      modifies this`spc, this`acts
      ensures Valid() && spc == SLoop(i + 1)
    {
      ghost var w := View();
      spc := SLoop(i + 1);
      Did(w, S(SkipSent));
    }

    method NewConnection()
      modifies this
      ensures acts == old(acts) && View() == old(View()).(
        spc := SConnected, rpc := RManifest, offered := false, resp := None, streams := [], accepted := 0,
        hist := old(hist).(recorded := {}, closed := {}, attempts := old(hist).attempts + 1))
    {
      spc, rpc := SConnected, RManifest;
      offered, resp, streams, accepted := false, None, [], 0;
      hist := hist.(recorded := {}, closed := {}, attempts := hist.attempts + 1);
    }

    method Reconnect()
      requires Valid() && spc == SWait && rpc == RDown
      modifies this
      ensures Valid() && spc == SConnected && rpc == RManifest
      ensures streams == [] && disk == old(disk) && resume == old(resume)
      ensures hist.attempts == old(hist.attempts) + 1
    {
      ghost var w := View();
      NewConnection();
      Did(w, Connect);
    }

    // The re-wait loop of runSend, from the first WaitForPeer on. `attempts` has one
    // fate for each receiver that turns up in time and is connected to. It gives up
    // only when no more of them turn up, when the manifest is not answered, or when
    // the file it has reached is given up for good.
    method RunSend(attempts: seq<AttemptFate>) returns (ok: bool, ghost reached: nat)
      requires Valid() && spc == SWait
      modifies this
      ensures Valid()
      ensures ok ==> spc == SDone
      ensures !ok ==> spc == SExit
      ensures !ok ==> Ends(attempts, hist.attempts - old(hist.attempts), reached)
      ensures Init(c, start) && !hist.blindLoad && ok ==> Delivered(c, View())
    {
      var k: nat := 0;
      reached := 0;
      while k < |attempts|
        invariant Valid() && spc == SWait && k <= |attempts|
        invariant hist.attempts == old(hist.attempts) + k
      {
        ok, reached := Attempt(attempts[k]);
        if ok {
          return true, reached;
        }
        k := k + 1;
        if spc == SExit {
          return false, reached;
        }
      }
      SenderFails(false);
      return false, reached;
    }

    // One round of the loop. When it is over, the sender is through, waits again, or
    // has given up.
    method Attempt(f: AttemptFate) returns (ok: bool, ghost reached: nat)
      requires Valid() && spc == SWait
      modifies this
      ensures Valid() && hist.attempts == old(hist.attempts) + 1
      ensures ok ==> spc == SDone
      ensures !ok ==> spc == SWait || (spc == SExit && Fatal(f, reached))
      ensures Init(c, start) && !hist.blindLoad && ok ==> Delivered(c, View())
    {
      ReceiverRuns();
      if !rpc.RDown? {
        ReceiverGivesUp();       // a new receiver follows an old one's end
      }
      Reconnect();
      reached := 0;
      ok := SendManifest(f.manifest);
      if ok {
        ok, reached := SendFiles(f.files);
      }
    }

    // The manifest was not answered, or a file is given up.
    ghost predicate Fatal(f: AttemptFate, reached: nat)
      reads this
    {
      || !f.manifest || resp.None?
      || (reached < |c.files| && c.files[reached].path !in done
          && GivesUp(reached, f.files(reached), Pend(c, done, reached)))
    }

    // Why runSend can return an error, k receivers having been connected to.
    ghost predicate Ends(attempts: seq<AttemptFate>, k: int, reached: nat)
      reads this
    {
      k == |attempts| || (0 < k <= |attempts| && Fatal(attempts[k - 1], reached))
    }
  }
}
