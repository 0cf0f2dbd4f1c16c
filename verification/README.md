# Verified model of Wani

Wani sends files from one machine to another: a sender and a receiver pair
through a signaling server with a short code, exchange ICE candidates over it,
and then move files over ordered QUIC streams, resuming after interruptions.
This project models the four parts of Wani that have to agree with each other
and proves what they guarantee over every run.

| part | files | form |
|---|---|---|
| resumable transfer | `Manifests`, `TransferModel`, `TransferInvariant`, `TransferTheorems`, `TransferCompletion`, `TransferProgress`, `TransferPrograms` | a crash/restart transition system of sender, receiver, disk, resume file and source tree; the loops of `transfer.go` and `main.go` as methods on shared state whose every step is a step of that system |
| signaling server | `SessionModel`, `SessionInvariant`, `SessionTheorems`, `SessionStore`, `Handlers` | each lock-held section is one atomic step, `cleanupConn` and `evictExpired` are several; classes with heap sessions and three mutable maps that are tied to those steps, and handlers whose every write is stated |
| pairing and ICE exchange | `Messages`, `PairingModel`, `PairingInvariant`, `PairingTheorems`, `PairingRejoin`, `PairingIce`, `PairingExpiry`, `PairingHazards`, `PairingAgreement`, `PairingServer`, `PairingHandlers`, `PairingScripts`, `PairingSolo`, `SignalingClient` | two scripted clients and a relaying server over FIFO queues, with arbitrarily many receivers one after the other, departures and session expiry; the same two scripts over a relay that does as it likes; the server of this model tied, over whole runs, to the session store and to what the handlers write; the client scripts as methods on a connection, tied over every inbox to the model's scripts |
| pairing codes | `Codes` | printer, recogniser and wordlist parser |

A run is a sequence of actions of either party, the source tree, the clock or the
network; an action that is not enabled does nothing, so every statement over all
action sequences is a statement over every interleaving, and a crash is an action
like any other (`ReceiverStop`, `SenderStop`, `Hangup`, `Depart`, `Expire`).

## Main results

* **Resume is sound** (`ResumeAlwaysSound`): with stops between any two steps,
  inside truncation, copy, ack or save, and with source files changing after the
  scan, every manifest entry the listing on disk names is a file there with the
  manifest digest; and nothing else is ever added to it (`NothingUnknownIsListed`).
* **Success means arrival** (`SendNilMeansDelivered`, `NilMeansDeliveredIff`,
  `UntouchedSourceArrivesWhole`), and **an ack means durable**
  (`AckImpliesDurable`): in this very attempt the file has been verified, its save
  attempt is over and the file closed, although `"ok"` is written before the save.
* **Streams pair by position** (`StreamPairing`) against the independent
  reference `Remaining`, the entries not skipped in manifest order.
* **The listing is a growing prefix** (`ListingIsPrefix`, `ListingNeverShrinks`)
  and **little is sent twice** (`RetransmissionBound`).
* **An attempt can always be finished** (`CanAlwaysComplete`).
* **The session index is true** with never-reused codes (`LookupNeverDangles`,
  `CleanupTouchesOwnSessionOnly`) and **exact** with one create or join per
  connection as well (`IndexIsExact`, `EvictionIsExact`).
* **Pairing means agreement** (`NilMeansSharedSecret`, `EitherNilMeansPaired`):
  over a relay that loses, repeats, reorders, misroutes and invents messages, with
  any passwords and with any other scripts running beside these two, as soon as
  one side has seen the other's ping or pong, its peer holds the same secret: it is
  the other of the two, or some script that runs beside.
* **The methods are the scripts** (`SetUpSender`, `SetUpReceiver`,
  `PairingSolo.MethodsAgree`): over every inbox, success, outbox, secret and
  candidates are those of the model's script run over it, so agreement is agreement
  of these methods. **The handlers are the model's server** (`JoinIsAnswered`,
  `RunIsAnswered`): what they write is what the model queues, the receiver's
  session_ready first.
* **Rejoin is clean** (`RejoinIsClean`) and **ICE arrives whole**
  (`PairingIce.IceArrivesWhole`), whoever left when, in whatever order the server
  notifies, and whether or not the session has expired: nothing an earlier receiver
  left behind, and no eviction, ever gets into a credentials or candidate list that
  is complete.
* **Setups discard nothing, terminate and end complete**
  (`EveryReadGetsItsMessage`, `EverySetupCompletes`), and it is known exactly when
  (`NothingDiscardedIff`, `SetupsCompleteIff`).
* **Codes**: `ValidateCode` accepts exactly the joins of hyphen-free words
  (`ValidIff`).

Six properties one would expect are false of the code. Each has a lemma that
exhibits the failure and one that says exactly when the code is right:

* An unreadable resume file is treated as an absent one (`transfer.go:27-29`).
  The receiver then overwrites files the listing still claims. `BlindLoadCanLie`
  shows it, `TruncationKeepsSoundIff` states the step at which it begins, and
  `RespondKeepsSoundIff` the whole: the listing stays true for ever iff it could
  be read or names no manifest entry. The theorems above therefore speak of runs
  in which no listing that names a manifest entry was unreadable when the manifest
  was answered (`hist.blindLoad` is false).
* A listing is not tied to the manifest it was recorded for. After a sender has
  been restarted with changed files and the receiver run again with the same
  `-out`, `SendFiles` returns nil with stale or missing files
  (`StaleListingSkipsUnsent`). `NilMeansDeliveredIff` says exactly when nil means
  delivered, seen before the first attempt: iff every manifest entry the resume
  file lists is already there.
* `CreateSender` overwrites on a code collision, after which the first sender is
  indexed under the second's session (`CollisionMisleads`), and once that is gone
  its next relay dereferences a nil session (`CollisionPanics`).
  `CreateKeepsLinkedIff`: the index stays true iff no other connection is indexed
  under that code.
* The shipped wordlist contains `drop-down` and not `drop`, so the server can
  refuse a four-word code it has issued (`ShippedListRefusesItsOwn`).
  `GeneratedCodesValidateIff`: for any number of words, every generated code
  validates iff every hyphen-separated part of every word is a word.
* `readUntil` can discard a message that is needed (`StartIsSwallowed`).
  `NothingDiscardedIff`: it never discards anything iff the server notifies the
  receiver first, which it does, and no receiver leaves before its setup is
  complete, which nothing prevents.
* A setup can come to stand with both sides waiting, after such a discard
  (`SwallowedStrands`), or because the session has expired five minutes after the
  join while the sender was still scanning (`ExpiryStrands`).
  `SetupsCompleteIff`: every setup completes iff the receiver is told first, no
  receiver leaves halfway, and the session does not expire.

Where the documentation and the code disagree the model follows the code:
`README.md:32` and `wani_overview.md:43` say the digest is checked after the
write to disk, but it covers the bytes as they are streamed
(`transfer.go:228-229`); `sessions.go:191-194` can delete a session that has been
rejoined since it was collected (`RejoinedSessionCanBeEvicted`). The command that
`main.go:392` prints for resuming passes the joined directory as `-out`, to which
`transfer.go:100-103` joins the root name again: followed to the letter, a
directory starts afresh one level down, and the listing is only met again under
the original `-out`.

## Assumptions

* Whether a call that can fail goes through is an input: the fates of
  `TransferPrograms`, `broken` and `draws` of `Handlers`, the inbox of
  `SignalingClient`. Contracts say what each method does for each of them.
* Channels are reliable and ordered, as QUIC streams are by sections 2.1 and 2.2
  of RFC 9000. A file stream's two halves end separately.
* The digest is any streaming function: nothing is assumed of it but that it
  absorbs byte after byte, in particular not that it has no collisions.
* Manifest paths are distinct and valid UTF-8 (JSON would replace other bytes, in
  the manifest and in the answered listing, so that the two skip tests could
  differ), and the manifest is built once, before the first
  attempt. Delivery theorems start from a resume state that is true of this
  manifest (`Init`); `NilMeansDeliveredIff`, `UnskippedArrive` and `StreamPairing`
  from any.
* Progress bounds assume that no save or reload fails or is cut short
  (`hist.cleanSaves`).
* Cryptography is symbolic: a derived key is the password and both shares, a MAC
  is its key and its label, confirmation as in section 4 of RFC 9382. Each setup
  draws fresh shares. `PairingTheorems` is about setups in which no receiver leaves
  halfway and the session does not expire; `PairingRejoin`, `PairingIce`,
  `PairingAgreement` and the iff lemmas of `PairingHazards` are not.
* A write to a receiver that has just gone fails or is silently lost; both are
  steps of the pairing model.
* Time is an integer number of seconds that never decreases; two eviction ticks
  are at most one interval apart.

## Model

| member | source | states |
|---|---|---|
| Manifests.Hasher.AbsorbChunks | internal/client/transfer.go:228-236 | Feeding the hash chunk by chunk gives the digest of the whole, however the stream is cut |
| Manifests.FileEntry | internal/client/manifest.go:74-93 | Fails iff the file cannot be read, else size and digest describe the same bytes |
| Manifests.WalkDirectory | internal/client/manifest.go:37-68 | Succeeds iff the walk meets no error and every regular file is readable. Then every entry is the path, size and digest of a regular file, in walk order by a strictly increasing index map, and every regular file, an empty one too, has its entry |
| Manifests.BuildManifest | internal/client/manifest.go:18-70 | A missing root fails; one that is no directory is read whatever its type and listed alone under an empty root name, failing iff it is unreadable; a directory is listed under its name, every regular file of the walk and nothing else, in order, with path, size and digest of the bytes scanned |
| TransferTheorems.ResumeAlwaysSound | internal/client/transfer.go:25-46 | In every run, with stops and source changes anywhere, each listed manifest entry is a file on disk with the manifest digest |
| TransferTheorems.NothingUnknownIsListed | internal/client/transfer.go:252-254 | In every run the listing names only manifest entries and what it named at the start |
| TransferTheorems.TruncationKeepsSoundIff | internal/client/transfer.go:221-226 | os.Create on an entry keeps the listing true iff the listing does not claim that entry or the entry is as good when empty |
| TransferTheorems.UnskippedArrive | internal/client/transfer.go:132-149 | From any resume state: when SendFiles has returned nil, every entry it did not skip is on the receiver's disk with its digest |
| TransferTheorems.SendNilMeansDelivered | internal/client/transfer.go:132-149 | With a resume state true of this manifest, nil means every entry is on the receiver's disk with its digest, over all earlier interrupted attempts |
| TransferTheorems.UntouchedSourceArrivesWhole | internal/client/transfer.go:151-192 | If the source has not changed since the scan, each delivered file equals its source byte for byte |
| TransferTheorems.ReceiveNilMeansDelivered | internal/client/transfer.go:197-211 | When ReceiveFiles returns nil, every manifest entry is on disk with its digest |
| TransferTheorems.StaleListingSkipsUnsent | internal/client/transfer.go:99-120 | A listing from another manifest makes SendFiles return nil although the file is absent |
| TransferTheorems.RemainingAt | internal/client/transfer.go:133-147 | Rank of an entry among those not skipped is its place in the reference list of entries that travel |
| TransferTheorems.StreamsCarryRemaining | internal/client/transfer.go:137-147 | The k-th file stream is opened for the k-th remaining entry |
| TransferTheorems.ReceiverKeepsUp | internal/client/transfer.go:198-207 | The receiver writes what the newest accepted stream carries to the entry it was opened for; all but the newest stream are ended |
| TransferTheorems.StreamPairing | internal/client/transfer.go:132-211 | In every run, for any manifest and any Completed list, k-th stream opened and k-th stream accepted are for the same, the k-th remaining, entry; the sender is at most one stream ahead |
| TransferTheorems.AckImpliesDurable | internal/client/transfer.go:183-191 | When sendFile is about to return nil, the receiver has, in this attempt, verified the digest, finished its save attempt, closed the file and left receiveFile for that entry, in every interleaving |
| TransferTheorems.AckedIsDurable | internal/client/transfer.go:218-256 | An ack read to its end implies all of that, because the stream is closed last |
| TransferTheorems.UntouchedSourceNeverMismatches | internal/client/transfer.go:241-245 | No false alarm: while the source is as scanned the digest comparison always succeeds |
| TransferInvariant.PendInjective | internal/client/transfer.go:137-147 | Two entries that travel never share a stream |
| TransferInvariant.StepKeepsCore | internal/client/transfer.go:132-257 | Each step of sender, receiver, source and reconnection keeps the invariant, whatever the resume state was at the start |
| TransferInvariant.StepKeeps | internal/client/transfer.go:132-257 | Each step, stops included, also keeps the listing free of any file that is or will be rewritten, unless a listing was not readable |
| TransferInvariant.RunKeeps | cmd/wani-client/main.go:130-266 | The invariant holds over any number of attempts |
| TransferInvariant.SenderKeepsPristine | internal/client/transfer.go:170-181 | What is on a stream is a prefix, once it is ended all, of what was scanned, while the source is untouched |
| TransferInvariant.CopyingKeepsFile | internal/client/transfer.go:228-245 | During the copy the destination holds exactly the bytes received so far and the hash state is theirs; a file past the comparison has the manifest digest |
| TransferInvariant.ClosingKeepsAcks | internal/client/transfer.go:218-226 | Only the final close makes an ack readable to its end, and then the file is good, recorded and closed in this attempt |
| TransferInvariant.SavingKeepsList | internal/client/transfer.go:252-254 | Truncating and rewriting the resume file never lists a file that is not good, nor one still to be received |
| TransferInvariant.CopyingKeepsList | internal/client/transfer.go:221-238 | Truncating and writing a destination never makes the listing untrue, because the listing avoids all entries still to come |
| TransferCompletion.SendOne | internal/client/transfer.go:151-181 | From before an entry the sender can open, copy and end its stream, in steps of the system |
| TransferCompletion.ReceiveOne | internal/client/transfer.go:213-245 | The receiver can create, copy and verify it |
| TransferCompletion.FinishOne | internal/client/transfer.go:247-256 | It can then ack, save and close, after which the listing has that path appended |
| TransferCompletion.OneEntry | internal/client/transfer.go:151-257 | Both parties can get from one entry to the next |
| TransferCompletion.CanAlwaysComplete | cmd/wani-client/main.go:130-266 | From every reachable state in which the sender waits, no receiver runs and the source is as scanned, some attempt ends with nil on both sides |
| TransferCompletion.WholeAttempt | internal/client/transfer.go:132-257 | Such an attempt skips exactly what the listing names and leaves those files alone |
| TransferCompletion.NilMeansDeliveredIff | internal/client/transfer.go:132-149 | From any start: nil means delivered in every run iff each manifest entry listed at the start is on disk with its digest then |
| TransferCompletion.BlindLoadCanLie | internal/client/transfer.go:26-29 | If a listing names a manifest entry and cannot be read, a state can be reached in which it claims a file that has been overwritten with other bytes |
| TransferCompletion.RespondKeepsSoundIff | internal/client/transfer.go:113-128 | After an answered manifest the listing stays true in every continuation, whatever becomes of the source, iff it could be read or names no manifest entry |
| TransferProgress.PendAfterPrefix | internal/client/transfer.go:198-207 | Skipping a prefix leaves exactly the rest to travel, in order |
| TransferProgress.RunKeepsProgress | internal/client/transfer.go:197-257 | Listing, skip list and stream count stay in step over every run while saves work |
| TransferProgress.ListingIsPrefix | internal/client/transfer.go:252-254 | While saves work, the listing is exactly a prefix of the manifest's paths, without duplicates |
| TransferProgress.ListingNeverShrinks | internal/client/transfer.go:209-254 | The listing at any time is a prefix of the listing at any later time until a full success |
| TransferProgress.LittleIsResent | internal/client/transfer.go:132-149 | Streams opened over all attempts so far are at most the listed entries plus the attempts |
| TransferProgress.RetransmissionBound | cmd/wani-client/main.go:249-266 | Up to the receiver's first full success at most one stream per manifest entry and one per interrupted attempt has been opened |
| TransferPrograms.Transfer.Promises | internal/client/transfer.go:132-257 | At every point of the programs the listing is true and success of either party means delivery |
| TransferPrograms.Transfer.SenderRuns | internal/client/transfer.go:132-192 | Any steps of the other party and the source leave the receiver's position, disk and listing alone and never take a stream away |
| TransferPrograms.Transfer.ReceiverRuns | internal/client/transfer.go:197-257 | Any steps of the other party and the source leave the sender's position and sent bytes alone |
| TransferPrograms.Transfer.ReceiveManifest | internal/client/transfer.go:86-128 | Succeeds iff the manifest has come and the connection holds. The answer and skip list are exactly the listing on disk if it could be read, and empty if it is absent, corrupt or unreadable |
| TransferPrograms.Transfer.CopyToDisk | internal/client/transfer.go:228-239 | Ends with the ended stream used up iff no read or write fails and the stream has ended, else unwinds; no other file changes |
| TransferPrograms.Transfer.CompareDigest | internal/client/transfer.go:241-245 | Accepts iff the digest of the whole stream is the manifest's |
| TransferPrograms.Transfer.WriteResumeFile | internal/client/transfer.go:37-46 | The listing is replaced as a whole or left cut short; the save attempt is recorded either way |
| TransferPrograms.Transfer.RecordCompleted | internal/client/transfer.go:252-254 | The resume file afterwards, for each of the three calls failing or not: untouched, cut short, or the reloaded listing with this path appended |
| TransferPrograms.SavedUpToLists | internal/client/transfer.go:197-257 | When saving works, the listing left behind is the one found and then exactly the entries received so far, in manifest order |
| TransferPrograms.Transfer.ReceiveFile | internal/client/transfer.go:213-257 | Returns nil only with its entry's save attempt over, its file closed in this attempt, and the resume file exactly as saved; an error only if a call has failed, no stream came, or what came was not whole or not right, and then the resume file is untouched |
| TransferPrograms.Transfer.ReceiveFiles | internal/client/transfer.go:197-211 | The loop is a run of the system; nil means delivery, an error that the file it has reached was refused. The resume file is then exactly what was saved up to there, and gone after a full success whose removal went through |
| TransferPrograms.Transfer.DeleteResumeState | internal/client/transfer.go:48-50 | The resume file is gone iff its removal went through, and nothing else changes |
| TransferPrograms.Transfer.RunReceive | cmd/wani-client/main.go:332-397 | Manifest exchange and files together, from a fresh connection. If the resume file could be read the listing stays true and nil means delivery, with no other condition |
| TransferPrograms.Transfer.SendManifest | internal/client/transfer.go:58-80 | Succeeds iff the connection holds and an answer comes, and then skips exactly what the receiver answered |
| TransferPrograms.Transfer.CopyToStream | internal/client/transfer.go:170-181 | Succeeds iff neither source nor connection fails; then its stream is the newest, carries this entry and is ended, and while the source is untouched it carries all that was scanned |
| TransferPrograms.Transfer.ReadAck | internal/client/transfer.go:183-191 | Succeeds iff the receiver's half can be read to its end and says "ok", and then the receiver's file is good, its save attempt over and the file closed in this attempt; a lost connection, and only that, can be waited out |
| TransferPrograms.Transfer.SendFile | internal/client/transfer.go:151-192 | An error has its cause among: source missing or unreadable, connection lost, another answer than "ok"; it says which of them leave the sender waiting for a rejoin |
| TransferPrograms.Transfer.SendFiles | internal/client/transfer.go:132-149 | The loop is a run of the system; nil means delivery, an error that the file it has reached was given up |
| TransferPrograms.Transfer.RunSend | cmd/wani-client/main.go:127-267 | The re-wait loop returns nil only with everything delivered over all its attempts; it gives up only when no more receivers turn up, the manifest is not answered, or a file is given up for good, never while the lost peer can rejoin |
| SessionInvariant.JoinKeepsLinked | internal/server/sessions.go:91-114 | Join and rejoin keep the index true |
| SessionInvariant.JoinReplaces | internal/server/sessions.go:91-114 | Pointwise, on any store: the newcomer is the receiver, whoever held that side is not indexed any more, the deadline is five minutes ahead, and nothing else has changed |
| SessionInvariant.DisconnectKeepsLinked | internal/server/sessions.go:132-146 | A receiver's dormancy keeps the index true and leaves no receiver connection |
| SessionInvariant.DeleteKeepsLinked | internal/server/sessions.go:149-163 | Deletion keeps the index true |
| SessionInvariant.CreateKeepsLinkedIff | internal/server/sessions.go:74-85 | Creation keeps the index true iff no other connection is indexed under the code |
| SessionInvariant.CreateKeepsExact | internal/server/sessions.go:74-85 | For a fresh code and connection, creation keeps the index exact |
| SessionInvariant.JoinKeepsExact | internal/server/sessions.go:91-114 | For a connection not yet indexed, join keeps the index exact |
| SessionInvariant.DisconnectKeepsExact | internal/server/sessions.go:132-146 | Dormancy keeps the index exact |
| SessionInvariant.DeleteKeepsExact | internal/server/sessions.go:149-163 | Deletion keeps the index exact |
| SessionTheorems.StepKeepsTierOne | internal/server/ws.go:43-133 | With fresh codes each critical section keeps the index true and every pending cleanup the connection's own |
| SessionTheorems.LookupNeverDangles | internal/server/sessions.go:117-127 | In every run both maps have one domain, a lookup finds a live session holding the connection on a known side, and a relay goes to the other end of that session |
| SessionTheorems.CleanupTouchesOwnSessionOnly | internal/server/ws.go:120-133 | In every interleaving the second half of a cleanup detaches only that receiver, or deletes only that sender's session, and leaves every other session alone |
| SessionTheorems.CollisionMisleads | internal/server/sessions.go:74-85 | When a code is issued twice, a run leads to a connection indexed as sender of a session that another one created |
| SessionTheorems.CollisionPanics | internal/server/ws.go:98-111 | After a collision a run leads to a connection whose next relay dereferences a nil session |
| SessionTheorems.StepKeepsTierTwo | internal/server/sessions.go:74-163 | With one create or join per connection each critical section keeps the index exact |
| SessionTheorems.IndexIsExact | internal/server/sessions.go:54-62 | In every run a connection sits in a session on a side iff the maps say so |
| SessionTheorems.OneSeatPerConnection | internal/server/sessions.go:54-62 | No connection sits in two sessions or on two sides |
| SessionTheorems.DeleteIsLocal | internal/server/sessions.go:149-163 | A sender's exit removes its session and exactly the connections indexed under it; all else stays |
| SessionTheorems.SecondJoinBreaksExactness | internal/server/ws.go:76-86 | Without the one-request rule a run exists in which a session's receiver is not indexed any more |
| SessionTheorems.DeadlinesMoveOnlySo | internal/server/sessions.go:74-146 | Every step: a deadline becomes now plus five minutes on creation and on an accepted join, now plus fifteen on the receiver's departure, and is otherwise left as it was |
| SessionTheorems.NoSessionOverstays | internal/server/sessions.go:11-16 | In every run no deadline is more than 15 minutes ahead and no session outlives its deadline by more than one tick interval unless its eviction is under way |
| SessionTheorems.RejoinedSessionCanBeEvicted | internal/server/sessions.go:182-195 | A session collected for eviction and then rejoined is deleted with its new deadline ahead |
| SessionTheorems.EvictionIsExact | internal/server/sessions.go:182-195 | Taken atomically, eviction removes exactly the sessions past their deadline with exactly their connections |
| SessionModel.EvictOneMore | internal/server/sessions.go:192-194 | Deleting codes one after the other, in any order, is removing them all at once |
| SessionStore.SessionStore.constructor | internal/server/sessions.go:65-71 | A new store is the empty one |
| SessionStore.SessionStore.CreateSender | internal/server/sessions.go:74-85 | The heap store after it is the specification's, with a fresh session object |
| SessionStore.SessionStore.AddReceiver | internal/server/sessions.go:91-114 | Succeeds iff the session exists without a live receiver, and then all three maps and the session are as specified, else nothing changes |
| SessionStore.SessionStore.Lookup | internal/server/sessions.go:117-127 | Finds what the maps hold, a missing session included |
| SessionStore.SessionStore.DisconnectReceiver | internal/server/sessions.go:132-146 | The heap store after it is the specification's |
| SessionStore.SessionStore.Delete | internal/server/sessions.go:149-163 | The heap store after it is the specification's |
| SessionStore.SessionStore.CollectExpired | internal/server/sessions.go:182-191 | Collects exactly the codes past their deadline, in whatever order the map is walked |
| SessionStore.SessionStore.EvictExpired | internal/server/sessions.go:182-195 | Uninterrupted, it removes exactly those and their connections, whatever the order |
| Handlers.Server.HandleCreateSession | internal/server/ws.go:63-73 | Issues the code of the four words drawn, creates its session and sends it to the creator; it fails without change iff a draw fails |
| Handlers.Server.HandleJoinSession | internal/server/ws.go:76-95 | Joins iff the code is present, valid and joinable; then session_ready is written to the receiver, and to the sender after that and only if it went through |
| Handlers.Server.Peer | internal/server/ws.go:98-114 | The connection handleRelay writes to is the other end of the sender's own session, or there is none; it panics iff the session it is indexed under is gone |
| Handlers.Server.HandleRelay | internal/server/ws.go:98-115 | Kind and payload reach that end unchanged, once, or nobody and an error is returned |
| Handlers.Server.Dispatch | internal/server/ws.go:43-60 | For every kind of message, known or not: exact next store, exact writes in order and outcome; what is on the wire when all goes well is spelled out, a relay's kind and payload as they came |
| Handlers.DoneIff | internal/server/ws.go:43-115 | Success iff the request is in order and everybody it must be written to can be reached, a panic iff a relay meets a missing session; success means exactly the right messages to the right ends in the right order |
| Handlers.Server.HandleMessage | internal/server/ws.go:29-39 | The same, with an error, but not a panic, written back to its cause; a true index stays true unless an issued code was in use |
| Handlers.Server.CleanupConn | internal/server/ws.go:120-133 | Uninterrupted, a receiver's exit makes its session dormant and any other deletes it |
| PairingInvariant.SenderSaysLog | internal/identity/ephemeral.go:75-110 | What the sender's script sends next is the next entry of the conversation written down in advance |
| PairingInvariant.ReceiverSaysLog | internal/identity/ephemeral.go:112-145 | The same for the receiver's script |
| PairingInvariant.SenderTakesLog | internal/client/signaling.go:118-136 | Taking the next entry of its log, the sender learns exactly what it should and never fails |
| PairingInvariant.ReceiverTakesLog | internal/client/signaling.go:140-158 | The same for the receiver |
| PairingInvariant.StepKeeps | internal/server/ws.go:76-115 | Each step of clients, server, users and network keeps: what is under way is a contiguous piece of the conversation, or all is quiet |
| PairingTheorems.EveryReadGetsItsMessage | internal/client/signaling.go:220-234 | In every run readUntil discards nothing, and the k-th message a side reads is the k-th its counterpart's script sends, session_ready first |
| PairingTheorems.PairedSidesAgree | cmd/wani-client/main.go:146-178 | When a setup is relayed in full both sides end with the same secret, and it is set at each call of SharedSecret, those for QUIC included |
| PairingTheorems.SetUpsExchangeIce | internal/client/ice.go:83-132 | With complete setups the sender's lists also stay those of its receiver when that one has gone on to the transfer or has left |
| PairingTheorems.OneReadyAtMost | cmd/wani-client/main.go:130-143 | With complete setups at most one session_ready, that of the present receiver, is before a sender that waits |
| PairingRejoin.StepClear | internal/server/ws.go:76-133 | For every order of notifications, departures and expiry: in an attempt only the receiver that has heard the share speaks, nothing follows a sentinel, and every step keeps that |
| PairingRejoin.RejoinIsClean | cmd/wani-client/main.go:130-143 | In every such run, while the sender waits for a peer, nothing it said is under way and its queue holds only session_ready messages |
| PairingIce.StepWhole | internal/client/ice.go:83-132 | Under every rule each step keeps: what is under way either way, hop by hop, is a slice of what that side says from where the other stands, and what has been read so far is what was sent |
| PairingIce.IceArrivesWhole | internal/client/ice.go:83-132 | In every run, with receivers leaving halfway, either order of notifications and expiry anywhere: a read loop that has ended at the sentinel holds exactly the other side's credentials and candidates, in order |
| PairingAgreement.SenderCompares | internal/identity/ephemeral.go:95-108 | The sender's script sets its secret only on the confirmation, and goes on to ICE only on the pong, under its own key |
| PairingAgreement.ReceiverCompares | internal/client/signaling.go:140-158 | The receiver's script goes on only on the confirmation, and answers only the ping, under its own key |
| PairingAgreement.PlaySound | internal/identity/ephemeral.go:75-145 | Over any relay that cannot make proofs, each proof under a fresh share was said by the one script that says it, under that script's key, or elsewhere by a script with a share of its own |
| PairingAgreement.NilMeansSharedSecret | internal/client/signaling.go:118-158 | Over any such relay, with any other scripts beside: once PingPong has returned nil or WaitAndPong has accepted the ping, the peer holds the same secret, and is the other of the two, from one password and this setup's shares, or a script elsewhere that confirmed that very secret |
| PairingAgreement.EitherNilMeansPaired | internal/client/signaling.go:118-158 | With nobody else under these shares it is the other of the two: both sides hold the same secret, from one password and this setup's shares |
| PairingAgreement.SecretIsSetWhereUsed | internal/identity/ephemeral.go:147-153 | Over any such relay the secret is set at every call of SharedSecret |
| PairingServer.StoreFollows | internal/server/sessions.go:87-163 | Each step of the pairing model's server is the store's critical section for it, or touches no session |
| PairingServer.JoinMirrors | internal/server/sessions.go:91-114 | A join takes the slot exactly when AddReceiver accepts it |
| PairingServer.DepartFollows | internal/server/ws.go:24-27 | A receiver that is gone keeps the slot until its clean-up has run |
| PairingServer.RelaysFollow | internal/server/ws.go:98-115 | Relays reach the other end exactly when the slot says so |
| PairingServer.OthersDoNotShow | internal/server/sessions.go:74-163 | Creations, joins, departures and deletions of other sessions leave this one as it is |
| PairingServer.RunMirrors | internal/server/ws.go:63-133 | In every run of the pairing model its server mirrors a store that has gone through exactly the critical sections of that run, and its relays have that store's targets |
| PairingHandlers.SenderIsAnswered | internal/server/ws.go:98-109 | What the handler writes for any relayed message of the sender, errors included, is what the model's server step queues for either end, its silent loss included |
| PairingHandlers.ReceiverIsAnswered | internal/server/ws.go:98-114 | The same for the receiver's messages |
| PairingHandlers.JoinIsAnswered | internal/server/ws.go:76-95 | A join has the model's effect on the slot and the store; its two writes, in their order, are the two notifications exactly if the model's rule is receiver first |
| PairingHandlers.RunIsAnswered | internal/server/ws.go:98-115 | So in every run of the pairing model, with the store that has gone through it |
| PairingExpiry.ExpiryEnds | internal/server/sessions.go:182-195 | Eviction under a setup leaves each side with what was already on its way, and then errors |
| PairingExpiry.NothingIsDiscarded | internal/client/signaling.go:220-234 | Expiry or not, nothing is discarded if the receiver is told first and none leaves halfway |
| PairingTheorems.NoDeadlock | internal/client/ice.go:83-132 | While the session lasts and a setup is not done some client or the server can move |
| PairingTheorems.EveryStepMakesProgress | internal/identity/ephemeral.go:75-145 | Every such step keeps the setup going and lowers a measure over unsent messages, both hops and due notifications |
| PairingTheorems.SetupTerminates | cmd/wani-client/main.go:146-178 | Without departures and expiry a setup takes at most as many steps as the measure says, and can only stop when it is complete |
| PairingTheorems.EverySetupCompletes | cmd/wani-client/main.go:299-326 | Without departures and expiry: from every reachable state with a setup under way, every run of clients and server is bounded, and where it stops both sides are done, have the same secret and each other's credentials and candidates |
| PairingHazards.StartIsSwallowed | internal/client/signaling.go:220-234 | If a receiver is attached while the sender's first SPAKE2 message is already under way, JoinSession can throw that message away, and the receiver then waits for it |
| PairingHazards.SenderToldFirst | internal/server/ws.go:87-93 | With the opposite notification order that situation is reachable |
| PairingHazards.StaleReady | internal/server/ws.go:117-128 | With the order as it is, a receiver that joins and leaves before the sender looks makes it reachable too |
| PairingHazards.NothingDiscardedIff | internal/server/ws.go:76-95 | No run ever discards a message iff the receiver is told first and no receiver leaves halfway |
| PairingHazards.SwallowedStrands | internal/server/ws.go:76-95 | Without either of these a run leads to both sides waiting for ever |
| PairingHazards.ExpiryStrands | internal/server/sessions.go:182-195 | If the session expires before the sender has taken its session_ready, the sender fails and the receiver waits for ever |
| PairingHazards.SetupsCompleteIff | cmd/wani-client/main.go:133-175 | Every setup under way is completed by clients and server in every run iff the receiver is told first, no receiver leaves halfway and the session does not expire |
| SignalingClient.Connection.ReadUntil | internal/client/signaling.go:220-234 | Returns what ReadOf says and consumes exactly what ReadOf leaves out |
| PairingScripts.ReadOfIsFirst | internal/client/signaling.go:220-234 | It succeeds iff a message of the wanted kind comes before any error, returns the first such and leaves what follows it |
| SignalingClient.Connection.CreateSession | internal/client/signaling.go:48-60 | Asks once and returns the code of the first session_created before any error, an empty one being an error |
| SignalingClient.Connection.JoinSession | internal/client/signaling.go:64-75 | Asks with the code and succeeds iff a session_ready comes before any error |
| SignalingClient.Connection.WaitForPeer | internal/client/signaling.go:80-91 | Sends nothing and succeeds iff a session_ready comes before any error |
| SignalingClient.Connection.ExchangeAsSender | internal/identity/ephemeral.go:75-110 | Over every inbox it goes where the model's script goes; the secret is set iff it succeeds, only after the peer has confirmed that very key, and a proper peer always makes it succeed |
| SignalingClient.Connection.ExchangeAsReceiver | internal/identity/ephemeral.go:112-145 | The same on the receiver's side |
| SignalingClient.Connection.PingPong | internal/client/signaling.go:118-136 | Succeeds iff the answer is the pong under the sender's own secret; over every inbox it goes where the model's script goes |
| SignalingClient.Connection.WaitAndPong | internal/client/signaling.go:140-158 | Answers iff the message is the ping under the receiver's own secret; the same |
| SignalingClient.Connection.SendIce | internal/client/ice.go:83-107 | Sends credentials, then each candidate in order, then the sentinel |
| SignalingClient.Connection.ReadIce | internal/client/ice.go:109-132 | Holds and leaves what IceOf says of its inbox |
| PairingScripts.IceOfLog | internal/client/ice.go:83-132 | From what the other side sends it takes exactly those credentials and candidates and not one message more |
| SignalingClient.Connection.SetUpSender | cmd/wani-client/main.go:133-175 | Over every inbox: success, outbox, secret, ICE side and what is left unread are those of the model's script run over it; success needs both the confirmation and the pong under its own secret; the peer's whole side of a conversation makes it succeed and is consumed exactly |
| SignalingClient.Connection.SetUpReceiver | cmd/wani-client/main.go:295-323 | The same for the receiver |
| SignalingClient.Connection.SenderTakesConversation | cmd/wani-client/main.go:133-175 | The model's script over the peer's side of the conversation is through, consumes exactly that, has sent its own side, and holds the common key and the peer's ICE side |
| SignalingClient.Connection.ReceiverTakesConversation | cmd/wani-client/main.go:295-323 | The same for the receiver |
| PairingScripts.SenderAloneIsRun | cmd/wani-client/main.go:133-175 | That script over an inbox is a run of the pairing model in which only the sender moves |
| PairingScripts.ReceiverAloneIsRun | cmd/wani-client/main.go:295-323 | The same for the receiver |
| PairingSolo.SenderMethodAgrees | internal/client/signaling.go:118-136 | Over any relay, with any scripts beside: if SetUpSender succeeds over what it was given, its secret is its peer's, which is the other of the two or a script elsewhere that confirmed that very secret |
| PairingSolo.ReceiverMethodAgrees | internal/client/signaling.go:140-158 | The same for SetUpReceiver |
| PairingSolo.MethodsAgree | cmd/wani-client/main.go:146-178 | With nobody else about, two setups that both succeed hold the same secret, whatever the relay did |
| SignalingClient.Connection.ScriptsSayTheLogs | internal/client/signaling.go:96-158 | What the two scripts send is what the relayed conversation has each side read |
| Codes.JoinSplit | internal/protocol/codes.go:54 | Joining undoes splitting, for every text |
| Codes.SplitJoin | internal/protocol/codes.go:48 | Splitting undoes joining when no part contains the separator |
| Codes.TrimSpaceIff | internal/protocol/codes.go:21-25 | The one text without outer white space that white space surrounds |
| Codes.ParseWordlist | internal/protocol/codes.go:20-31 | Slice and set hold the same words: the trimmed non-blank lines, in order |
| Codes.WordsOfAt | internal/protocol/codes.go:24-30 | Every line that is not blank gives its word, trimmed, and nothing else does, in order |
| Codes.GenerateCode | internal/protocol/codes.go:35-49 | For every outcome of the random source: a code, the join of exactly the n words drawn, iff n is positive and no draw fails |
| Codes.ValidateCode | internal/protocol/codes.go:53-64 | Accepts iff every hyphen-separated part is in the set |
| Codes.ValidIff | internal/protocol/codes.go:53-64 | For any list, accepts exactly the joins of its hyphen-free words |
| Codes.ValidIffFromHyphenFree | internal/protocol/codes.go:53-64 | For a hyphen-free list, accepts exactly the joins of its words |
| Codes.CodesAreDistinct | internal/protocol/codes.go:33-49 | For a hyphen-free list, distinct word lists give distinct codes |
| Codes.GeneratedCodesValidateIff | internal/protocol/codes.go:35-64 | For any n > 0, every n-word code that can be generated validates iff every part of every word is a word |
| Codes.ShippedListRefusesItsOwn | internal/protocol/wordlist.txt:2009 | A list with drop-down and without drop generates a four-word code it refuses |

## Left out

- QUIC, TLS, ICE connectivity, SPAKE2, xxHash, HMAC, JSON and WebSocket internals: library code; channels, an arbitrary digest and symbolic keys stand for them, and a message arrives whole or not at all.
- Certificates, STUN and the HMAC proof over QUIC (`internal/client/quic.go`, `internal/client/stun.go`): wrappers; whether an error counts as a closed peer is a free choice of the model.
- Directory creation, path joining and separators, Windows quoting, permissions: plumbing; a destination is a map from manifest paths to bytes.
- `.wani-resume.json` is kept apart from that map: a manifest path equal to it would be a second writer of the listing.
- Progress bars and `progressReader`, clipboard, flags, printing, HTTP health endpoint: user interface.
- Losing what was written to disk but not yet flushed, and edits of the destination by others: a stop of a program keeps what it wrote.
- The destination on disk is taken to hold what was written to it; the digest covers streamed bytes, so a disk that corrupts them is not detected by the code either.
- One destination and one receiver process at a time: a receiver that still runs when the next one connects is not modelled.
- Success of the receiver without success of the sender is possible, because closing the connection can overtake the last ack; nothing is claimed about it.
- A session with a live receiver can expire and a rejoin can shorten a deadline; the session model has both, the pairing model has expiry at any time as a rule that can be switched off.
- `handleRelay` reads `session.receiverConn` outside the store lock; a relay is one atomic step here, and only `AddReceiver` with its notifications and `cleanupConn` are split.
- Clocks are read inside the critical section they belong to, where the program reads them just before it.
- Server restarts, and messages still queued for a connection when it ends: the queues of a departing receiver are dropped.
- The signaling connection of a sender breaking during setup, and timeouts: they end the program, which the scripts' failure results cover but the queue model does not.
- The pairing model is about one session: a receiver that brings another session's code is answered with an error there.
- PairingHandlers.JoinIsAnswered: assumes, like its neighbours, that both ends can be written to; Handlers.DoneIff says what happens otherwise, for which the pairing model has only the departure of a receiver.
- Copy loops end after an arbitrary finite number of reads or writes, by completing or by an error; endless stalls are not represented.
- PairingTheorems.EverySetupCompletes: assumes, like all of PairingTheorems, that no receiver leaves before its setup is complete and the session does not expire; PairingHazards.SetupsCompleteIff proves that it must.
- TransferCompletion.RespondKeepsSoundIff: assumes of each manifest digest that some content does not have it, as is the case for every digest that is not constant.
- Entropy of codes: the draws of the random source are an input, any words or a failure.
- TURN relay, compression and ponds: planned, not implemented in the repository.
