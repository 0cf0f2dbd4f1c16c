// One sender, one receiver and the receiver's directory, as a machine of atomic
// steps over any number of attempts (internal/client/transfer.go, driven by the
// re-wait loop of cmd/wani-client/main.go). A run is any sequence of actions; an
// action that is not enabled changes nothing. Stopping is an action too, so a
// run contains a crash between every two steps of either party.
module TransferModel {
  import opened Options
  import opened Manifests

  // What does not change during a run: the manifest built before the first
  // attempt, and the contents that were read to build it.
  datatype Config = Config(files: seq<Entry>, hash: Hasher, scanned: map<Path, Bytes>)
  {
    ghost predicate Valid() {
      DistinctPaths(files) && Describes(hash, files, scanned)
    }
  }

  // .wani-resume.json in the destination directory.
  datatype ResumeFile = Absent | Corrupt | Listing(completed: seq<Path>)

  // loadResumeState on a file that can be read: anything but a listing is empty.
  function Load(r: ResumeFile): seq<Path> {
    if r.Listing? then r.completed else []
  }

  // A bidirectional file stream. `entry` is the manifest index the sender opened
  // it for; it is not on the wire and no receiver step reads it. `sent`/`fin` is
  // the sender's half, `ack`/`ackFin` the receiver's.
  datatype Stream = Stream(entry: nat, sent: Bytes, fin: bool, ack: string, ackFin: bool)

  datatype SenderPc =
    | SWait                      // runSend, before WaitForPeer returns
    | SConnected                 // connection up, manifest not yet sent
    | SOffered                   // SendManifest, awaiting the response
    | SLoop(i: nat)              // SendFiles, top of the loop
    | SCopy(i: nat, off: nat)    // sendFile, copying file to stream
    | SAck(i: nat)               // sendFile, reading the ack to EOF
    | SDone                      // SendFiles returned nil
    | SExit                      // runSend returned an error, or the process died

  datatype ReceiverPc =
    | RDown                                   // no receiver process
    | RManifest                               // ReceiveManifest
    | RLoop(j: nat)                           // ReceiveFiles, top of the loop
    | RAccepted(j: nat)                       // receiveFile, stream accepted
    | RCopy(j: nat, pos: nat, state: int)     // file truncated, copying and hashing
    | RVerified(j: nat)                       // digest matched, "ok" not yet written
    | RAcked(j: nat)                          // "ok" written
    | RLoaded(j: nat, list: seq<Path>)        // resume state read and appended to
    | RSaving(j: nat, list: seq<Path>)        // resume file truncated for writing
    | RSaved(j: nat)                          // save attempt over
    | RFileClosed(j: nat)                     // deferred f.Close done
    | RUnwind(j: nat)                         // an error return, closes pending
    | RSuccess                                // ReceiveFiles returned nil
  {
    // Inside receiveFile, for entry j.
    predicate InFile() {
      RAccepted? || RCopy? || RVerified? || RAcked? || RLoaded? || RSaving? || RSaved? || RFileClosed? || RUnwind?
    }

    // ReceiveManifest has replied and the process still runs.
    predicate Receiving() {
      RLoop? || InFile()
    }
  }

  // History variables: they are written, never read, by the steps.
  datatype History = History(
    recorded: set<Path>,   // paths whose save attempt is over, in this attempt
    closed: set<Path>,     // destinations closed after that, in this attempt
    attempts: nat,         // connections set up
    opens: nat,            // file streams opened, all attempts together
    cleanSaves: bool,      // no save failed or was cut short, no reload failed
    blindLoad: bool,       // ReceiveManifest failed to read a listing that names a manifest entry
    pristine: bool,        // source untouched since the scan, no source read fault
    succeeded: bool)       // some ReceiveFiles returned nil

  datatype World = World(
    source: map<Path, Bytes>,
    disk: map<Path, Bytes>,
    resume: ResumeFile,
    spc: SenderPc,
    done: seq<Path>,             // sender's copy of resp.Completed
    rpc: ReceiverPc,
    skip: seq<Path>,             // receiver's copy of Completed
    offered: bool,               // manifest stream, sender's half
    resp: Option<seq<Path>>,     // manifest stream, receiver's half
    streams: seq<Stream>,        // file streams, in opening order
    accepted: nat,               // how many the receiver accepted
    hist: History)

  datatype SenderAction =
    | SendOffer
    | TakeResponse
    | SkipSent
    | OpenStream
    | WriteChunk(n: nat)
    | FinishWrite
    | SourceFault      // read error: the deferred Close still ends the stream
    | TakeAck
    | FinishSending
    | PeerClosed       // IsPeerClosedError and signaling alive: wait again
    | SenderStop

  datatype ReceiverAction =
    | Respond(readable: bool)
    | SkipReceived
    | Accept
    | Create
    | CreateFail
    | ReadChunk(n: nat)
    | CopyFail
    | CheckDigest
    | WriteAck
    | AckFail
    | Reload(readable: bool)
    | TruncateResume
    | SaveRefused      // WriteFile failed before truncating
    | WriteResume
    | SaveFail         // WriteFile failed after truncating
    | CloseFile
    | CloseStream
    | UnwindClose
    | FinishReceiving(removed: bool)
    | ReceiverStop

  datatype Action =
    | EditSource(contents: map<Path, Bytes>)
    | Connect
    | S(sa: SenderAction)
    | R(ra: ReceiverAction)

  const OkAck := "ok"
  const CreateFailed := "create failed"
  const CopyFailed := "copy failed"

  function MismatchFor(p: Path): string { "xxHash mismatch for " + p }

  // ---- Sender steps -------------------------------------------------------

  predicate SenderEnabled(c: Config, w: World, a: SenderAction) {
    match a
    case SendOffer => w.spc.SConnected?
    case TakeResponse => w.spc.SOffered? && w.resp.Some?
    case SkipSent => w.spc.SLoop? && w.spc.i < |c.files| && c.files[w.spc.i].path in w.done
    case OpenStream =>
      && w.spc.SLoop? && w.spc.i < |c.files|
      && c.files[w.spc.i].path !in w.done
      && c.files[w.spc.i].path in w.source
    case WriteChunk(n) =>
      && w.spc.SCopy? && w.spc.i < |c.files| && w.streams != []
      && w.spc.off + n <= |Content(c, w, w.spc.i)|
    case FinishWrite =>
      && w.spc.SCopy? && w.spc.i < |c.files| && w.streams != []
      && w.spc.off >= |Content(c, w, w.spc.i)|
    case SourceFault => w.spc.SCopy? && w.streams != []
    case TakeAck => w.spc.SAck? && w.streams != [] && w.streams[|w.streams| - 1].ackFin
    case FinishSending => w.spc.SLoop? && w.spc.i == |c.files|
    case PeerClosed => w.spc.SLoop? || w.spc.SCopy? || w.spc.SAck?
    case SenderStop => !w.spc.SDone?
  }

  // The bytes the sender's open file currently holds.
  function Content(c: Config, w: World, i: nat): Bytes
    requires i < |c.files|
  {
    if c.files[i].path in w.source then w.source[c.files[i].path] else []
  }

  function SenderApply(c: Config, w: World, a: SenderAction): World
    requires SenderEnabled(c, w, a)
  {
    match a
    case SendOffer => w.(offered := true, spc := SOffered)
    case TakeResponse => w.(done := w.resp.value, spc := SLoop(0))
    case SkipSent => w.(spc := SLoop(w.spc.i + 1))
    case OpenStream =>
      w.(streams := w.streams + [Stream(w.spc.i, [], false, "", false)],
         spc := SCopy(w.spc.i, 0),
         hist := w.hist.(opens := w.hist.opens + 1))
    case WriteChunk(n) =>
      var last := |w.streams| - 1;
      var data := Content(c, w, w.spc.i)[w.spc.off..w.spc.off + n];
      w.(streams := w.streams[last := w.streams[last].(sent := w.streams[last].sent + data)],
         spc := SCopy(w.spc.i, w.spc.off + n))
    case FinishWrite =>
      var last := |w.streams| - 1;
      w.(streams := w.streams[last := w.streams[last].(fin := true)], spc := SAck(w.spc.i))
    case SourceFault =>
      var last := |w.streams| - 1;
      w.(streams := w.streams[last := w.streams[last].(fin := true)], spc := SExit,
         hist := w.hist.(pristine := false))
    case TakeAck =>
      if w.streams[|w.streams| - 1].ack == OkAck then w.(spc := SLoop(w.spc.i + 1)) else w.(spc := SExit)
    case FinishSending => w.(spc := SDone)
    case PeerClosed => w.(spc := SWait)
    case SenderStop => w.(spc := SExit)
  }

  // ---- Receiver steps -----------------------------------------------------

  // The stream receiveFile is working on: the one accepted last.
  predicate HasCurrent(w: World) {
    0 < w.accepted <= |w.streams|
  }

  function Current(w: World): Stream
    requires HasCurrent(w)
  {
    w.streams[w.accepted - 1]
  }

  function Reply(w: World, text: string): seq<Stream>
    requires HasCurrent(w)
  {
    w.streams[w.accepted - 1 := Current(w).(ack := Current(w).ack + text)]
  }

  function EndReply(w: World): seq<Stream>
    requires HasCurrent(w)
  {
    w.streams[w.accepted - 1 := Current(w).(ackFin := true)]
  }

  predicate ReceiverEnabled(c: Config, w: World, a: ReceiverAction) {
    && (w.rpc.InFile() ==> w.rpc.j < |c.files| && HasCurrent(w))
    && match a
       case Respond(_) => w.rpc.RManifest? && w.offered
       case SkipReceived => w.rpc.RLoop? && w.rpc.j < |c.files| && c.files[w.rpc.j].path in w.skip
       case Accept =>
         && w.rpc.RLoop? && w.rpc.j < |c.files| && c.files[w.rpc.j].path !in w.skip
         && w.accepted < |w.streams|
       case Create => w.rpc.RAccepted?
       case CreateFail => w.rpc.RAccepted?
       case ReadChunk(n) =>
         && w.rpc.RCopy? && w.rpc.pos + n <= |Current(w).sent|
         && c.files[w.rpc.j].path in w.disk
       case CopyFail => w.rpc.RCopy?
       case CheckDigest => w.rpc.RCopy? && Current(w).fin && w.rpc.pos == |Current(w).sent|
       case WriteAck => w.rpc.RVerified?
       case AckFail => w.rpc.RVerified?
       case Reload(_) => w.rpc.RAcked?
       case TruncateResume => w.rpc.RLoaded?
       case SaveRefused => w.rpc.RLoaded?
       case WriteResume => w.rpc.RSaving?
       case SaveFail => w.rpc.RSaving?
       case CloseFile => w.rpc.RSaved?
       case CloseStream => w.rpc.RFileClosed?
       case UnwindClose => w.rpc.RUnwind?
       case FinishReceiving(_) => w.rpc.RLoop? && w.rpc.j == |c.files|
       case ReceiverStop => !w.rpc.RDown?
  }

  // Load, when the read itself may fail: an unreadable file looks empty too.
  function LoadIf(readable: bool, r: ResumeFile): seq<Path> {
    if readable then Load(r) else []
  }

  // Some manifest entry is listed but not in what was read.
  predicate Overlooks(c: Config, listed: seq<Path>, seen: seq<Path>) {
    exists i :: 0 <= i < |c.files| && c.files[i].path in listed && c.files[i].path !in seen
  }

  function Recorded(c: Config, w: World, clean: bool): History
    requires w.rpc.RLoaded? || w.rpc.RSaving?
    requires w.rpc.j < |c.files|
  {
    w.hist.(recorded := w.hist.recorded + {c.files[w.rpc.j].path}, cleanSaves := w.hist.cleanSaves && clean)
  }

  function ReceiverApply(c: Config, w: World, a: ReceiverAction): World
    requires ReceiverEnabled(c, w, a)
  {
    match a
    case Respond(readable) =>
      var list := LoadIf(readable, w.resume);
      w.(skip := list, resp := Some(list), rpc := RLoop(0),
         hist := w.hist.(blindLoad := w.hist.blindLoad || Overlooks(c, Load(w.resume), list)))
    case SkipReceived => w.(rpc := RLoop(w.rpc.j + 1))
    case Accept => w.(accepted := w.accepted + 1, rpc := RAccepted(w.rpc.j))
    case Create =>
      w.(disk := w.disk[c.files[w.rpc.j].path := []], rpc := RCopy(w.rpc.j, 0, c.hash.seed))
    case CreateFail => w.(streams := Reply(w, CreateFailed), rpc := RUnwind(w.rpc.j))
    case ReadChunk(n) =>
      var p := c.files[w.rpc.j].path;
      var data := Current(w).sent[w.rpc.pos..w.rpc.pos + n];
      w.(disk := w.disk[p := w.disk[p] + data],
         rpc := RCopy(w.rpc.j, w.rpc.pos + n, c.hash.Absorb(w.rpc.state, data)))
    case CopyFail => w.(streams := Reply(w, CopyFailed), rpc := RUnwind(w.rpc.j))
    case CheckDigest =>
      if c.hash.finish(w.rpc.state) != c.files[w.rpc.j].digest then
        w.(streams := Reply(w, MismatchFor(c.files[w.rpc.j].path)), rpc := RUnwind(w.rpc.j))
      else w.(rpc := RVerified(w.rpc.j))
    case WriteAck => w.(streams := Reply(w, OkAck), rpc := RAcked(w.rpc.j))
    case AckFail => w.(rpc := RUnwind(w.rpc.j))
    case Reload(readable) =>
      var list := LoadIf(readable, w.resume);
      w.(rpc := RLoaded(w.rpc.j, list + [c.files[w.rpc.j].path]),
         hist := w.hist.(cleanSaves := w.hist.cleanSaves && list == Load(w.resume)))
    case TruncateResume => w.(resume := Corrupt, rpc := RSaving(w.rpc.j, w.rpc.list))
    case SaveRefused => w.(rpc := RSaved(w.rpc.j), hist := Recorded(c, w, false))
    case WriteResume =>
      w.(resume := Listing(w.rpc.list), rpc := RSaved(w.rpc.j), hist := Recorded(c, w, true))
    case SaveFail => w.(rpc := RSaved(w.rpc.j), hist := Recorded(c, w, false))
    case CloseFile =>
      w.(rpc := RFileClosed(w.rpc.j), hist := w.hist.(closed := w.hist.closed + {c.files[w.rpc.j].path}))
    case CloseStream => w.(streams := EndReply(w), rpc := RLoop(w.rpc.j + 1))
    case UnwindClose => w.(streams := EndReply(w), rpc := RDown)
    case FinishReceiving(removed) =>
      w.(resume := if removed then Absent else w.resume, rpc := RSuccess,
         hist := w.hist.(succeeded := true))
    case ReceiverStop =>
      w.(rpc := RDown, hist := w.hist.(cleanSaves := w.hist.cleanSaves && !w.rpc.RSaving?))
  }

  // ---- Steps and runs -----------------------------------------------------

  predicate Enabled(c: Config, w: World, a: Action) {
    match a
    case EditSource(_) => true
    case Connect => w.spc.SWait? && w.rpc.RDown?
    case S(sa) => SenderEnabled(c, w, sa)
    case R(ra) => ReceiverEnabled(c, w, ra)
  }

  function Apply(c: Config, w: World, a: Action): World
    requires Enabled(c, w, a)
  {
    match a
    case EditSource(contents) => w.(source := contents, hist := w.hist.(pristine := false))
    case Connect =>
      w.(spc := SConnected, rpc := RManifest, offered := false, resp := None,
         streams := [], accepted := 0,
         hist := w.hist.(recorded := {}, closed := {}, attempts := w.hist.attempts + 1))
    case S(sa) => SenderApply(c, w, sa)
    case R(ra) => ReceiverApply(c, w, ra)
  }

  function Step(c: Config, w: World, a: Action): World {
    if Enabled(c, w, a) then Apply(c, w, a) else w
  }

  function Exec(c: Config, w: World, acts: seq<Action>): World {
    if acts == [] then w
    else Step(c, Exec(c, w, acts[..|acts| - 1]), acts[|acts| - 1])
  }

  lemma {:induction false} ExecConcat(c: Config, w: World, a: seq<Action>, b: seq<Action>)
    ensures Exec(c, w, a + b) == Exec(c, Exec(c, w, a), b)
    decreases |b|
  {
    if b == [] {
      assert a + b == a;
    } else {
      assert (a + b)[..|a + b| - 1] == a + b[..|b| - 1];
      ExecConcat(c, w, a, b[..|b| - 1]);
    }
  }

  // Some run leads from w to w2 in which every ReceiveManifest could read its
  // resume file.
  ghost predicate Sighted(acts: seq<Action>) {
    R(Respond(false)) !in acts
  }

  ghost predicate Reaches(c: Config, w: World, w2: World) {
    exists acts :: Sighted(acts) && Exec(c, w, acts) == w2
  }

  lemma ReachesSelf(c: Config, w: World)
    ensures Reaches(c, w, w)
  {
    assert Sighted([]) && Exec(c, w, []) == w;
  }

  lemma ReachesStep(c: Config, w: World, w2: World, a: Action)
    requires Reaches(c, w, w2) && a != R(Respond(false))
    ensures Reaches(c, w, Step(c, w2, a))
  {
    var acts :| Sighted(acts) && Exec(c, w, acts) == w2;
    assert (acts + [a])[..|acts|] == acts;
    assert Sighted(acts + [a]);
    assert Exec(c, w, acts + [a]) == Step(c, w2, a);
  }

  lemma ReachesTrans(c: Config, w: World, w2: World, w3: World)
    requires Reaches(c, w, w2) && Reaches(c, w2, w3)
    ensures Reaches(c, w, w3)
  {
    var a :| Sighted(a) && Exec(c, w, a) == w2;
    var b :| Sighted(b) && Exec(c, w2, b) == w3;
    ExecConcat(c, w, a, b);
    assert Sighted(a + b);
  }

  // ---- What runs start from, and what they are about ----------------------

  // Entry i is on the receiver's disk: its bytes have the manifest digest, and
  // if the source was never touched they are the scanned bytes themselves.
  ghost predicate Good(c: Config, w: World, i: nat)
    requires c.Valid() && i < |c.files|
  {
    var e := c.files[i];
    && e.path in w.disk
    && c.hash.Sum(w.disk[e.path]) == e.digest
    && (w.hist.pristine ==> w.disk[e.path] == c.scanned[e.path])
  }

  // If this path is a manifest entry, the entry is there.
  ghost predicate GoodPath(c: Config, w: World, p: Path)
    requires c.Valid()
  {
    forall i :: 0 <= i < |c.files| && c.files[i].path == p ==> Good(c, w, i)
  }

  ghost predicate AllGood(c: Config, w: World, list: seq<Path>)
    requires c.Valid()
  {
    forall p :: p in list ==> GoodPath(c, w, p)
  }

  // The resume state on disk tells the truth.
  ghost predicate ResumeSound(c: Config, w: World)
    requires c.Valid()
  {
    AllGood(c, w, Load(w.resume))
  }

  // Every manifest entry has arrived.
  ghost predicate Delivered(c: Config, w: World)
    requires c.Valid()
  {
    forall i :: 0 <= i < |c.files| ==> Good(c, w, i)
  }

  function Paths(c: Config): seq<Path> {
    seq(|c.files|, i requires 0 <= i < |c.files| => c.files[i].path)
  }

  // The sender has built its manifest and nobody is connected yet. The
  // destination may hold anything.
  ghost predicate Start(c: Config, w: World) {
    && c.Valid()
    && w.spc == SWait && w.rpc == RDown
    && w.streams == [] && w.accepted == 0 && w.resp == None && !w.offered
    && w.hist.recorded == {} && w.hist.closed == {} && w.hist.attempts == 0 && w.hist.opens == 0
    && !w.hist.blindLoad && !w.hist.succeeded
    && (w.hist.pristine ==> w.source == c.scanned)
  }

  // The destination is empty, or its resume state was recorded for this same
  // manifest.
  ghost predicate Init(c: Config, w: World) {
    Start(c, w) && ResumeSound(c, w)
  }
}
