# File Tunnel: a verified model

A File Tunnel pairs a desktop with a phone for a short time. The desktop creates a tunnel and shows
a pairing secret; the phone claims it once, declares files, and uploads them in resumable chunks; the
desktop downloads them; both may watch events through one-time tickets. The tunnel ends by
completion, cancellation or expiry.

The project models that service and proves what it promises over **every run**: any number of files,
tickets and uploads, any interleaving of requests by anyone, the two halves of every upload
interleaved with everything else, and the passing of time.

## How it is organised

| file | content |
|---|---|
| `Text.dfy`, `ContentRange.dfy` | trimming, 64-bit decimals, the strict `Content-Range` parser |
| `UploadBuffer.dfy` | the append-only upload buffer, as a class, and whole sessions with one buffer |
| `BodyCollection.dfy` | the loop that collects a request body from a stream of chunks |
| `Declaration.dfy`, `Capabilities.dfy` | the admission policy and the authorization matrix |
| `TunnelModel.dfy` | one tunnel as a value, each handler as a function on it, and runs |
| `Tunnel.dfy` | the tunnel as a class with files, buffers and tickets updated in place; every method is proved equal to its function in `TunnelModel.dfy` |
| `Changes.dfy` | the seven effects a step can have, and that a step has no other |
| `Invariants.dfy`, `Lifecycle.dfy` | what every reachable state satisfies; what runs can never do |
| `Atomicity.dfy` | an upload in two halves is an upload in one piece |
| `Integrity.dfy`, `Conservation.dfy` | what is downloaded is what was uploaded; no byte is lost or invented |
| `EventLog.dfy` | what a watching client knows, against what a snapshot says |
| `SetProtocol.dfy`, `BitProtocol.dfy` | the set-valued protocol over domains of any size, and its bit-mask implementation |
| `Refinement.dfy` | the tunnel refines the set-valued protocol, with the exact condition under which it does |
| `Answers.dfy` | the answer to every kind of request in a legal run, told by phases, the clock, who asks, and history |
| `Reachability.dfy` | whatever happened before, an open tunnel can still be completed with every file delivered |
| `Witnesses.dfy` | concrete runs: a transfer that succeeds, and the runs behind the exact conditions |

The two central types are `World` (the tunnel, the clock, and the uploads between their halves) and
`Run` (a creation followed by requests). `Legal` runs are those with a valid creation, fresh
identifiers and a clock that does not run backwards; nothing else is assumed of clients.

Regions that hold the lock are atomic steps. An upload is two steps: it checks the tunnel under the
shared lock and receives its body without any lock (`UploadBegins`), then checks again and appends
under the exclusive lock (`UploadCommits`). Between them any other step may happen.

## Where the code differs from its documentation, and what is proved instead

* **Empty files.** A file declared with size 0 is complete from the start. It can be downloaded while
  still `Declared`, it never causes `file.available`, and sending it again is always fresh, which
  turns `Downloaded` back into `Available`. Several properties one would expect of all files therefore
  have an exact condition:
  * a client that watched all events knows what a snapshot says *if and only if* no empty file is
    currently `Available` (`EventLog.WatchingEqualsSnapshot`, `Witnesses.EmptyUploadIsNotAnnounced`);
  * a file moves backwards *if and only if* the step completes an upload to it while the tunnel is
    not over and the file has size 0 and is `Downloaded` (`Lifecycle.FilesMoveForward`,
    `Lifecycle.ResendingReopens`); all of this is visible before the step;
  * a run is a run of the abstract protocol *if and only if* it has no such step
    (`Refinement.RefinementIsExact`, `Witnesses.EmptyFileBreaksRefinement`). Positive sizes are
    sufficient (`Refinement.PositiveSizesNeverReopen`) but more than is needed: empty files that are
    not sent again after their download are followed too;
  * the progress events of a file rise strictly *if and only if* it is not empty or was stored into
    at most once (`EventLog.ProgressRises`).
* **Retries.** docs/resumable-uploads.md:20 calls an exact retry idempotent without a limit in time. It
  is accepted *if and only if* the tunnel is not over: after the last download, a cancellation or
  expiry the retry of an accepted chunk is refused (`Integrity.RetriesAreAbsorbed`).
* **Domain size.** formal/README.md:15-18 says that the checked invariants do not depend on the two files and two
  tickets of the finite model. `SetProtocol.SafetyForEveryDomain` proves it.
* **Phases.** The finite model enters `Transferring` on a partial download, src/protocol.rs does not. They
  differ *exactly* for a download in `Connected` that succeeds and is not the last one
  (`BitProtocol.MasksAgreeWithSets`). No reachable state has one, because nothing is available before
  `Transferring` (`BitProtocol.QuietStatesAgree`, `BitProtocol.EveryScriptRefines`); the mask
  invariants alone do not exclude it (`BitProtocol.QuietIsNeeded`).
* **Progress predicate.** formal/README.md:21-22 says that handlers call the progress predicate. None does; it is an
  invariant all the same (`Invariants.CountersAreExact`).
* **Refused calls.** A refused request changes nothing, with one exception: presenting a ticket after
  its own time is refused and still uses it up (`Lifecycle.RefusalsArePure`).

## Model

| member | source | states |
|---|---|---|
| `Text.TrimIsExact` | src/resumable.rs:38 | trimming yields a text, be it empty or not, exactly when the input is that text with only whitespace around it |
| `Text.SplitOnceFinds` | src/resumable.rs:42-53 | splitting at a separator recovers both parts when the first part does not contain it |
| `Text.ParseU64IsExact` | src/resumable.rs:322-330 | the strict number parser yields `n` exactly for the canonical decimal text of an `n` within 64 bits |
| `ContentRanges.ParseOfCanonical` | src/resumable.rs:37-76 | on `bytes a-b/t` with any 64-bit numbers and padding, which of the four arithmetic refusals or which range results, in the order of the source |
| `ContentRanges.ParsedIsCanonical` | src/resumable.rs:37-76 | an accepted text is, once trimmed, the canonical text of a nonempty range with the expected total |
| `ContentRanges.ParseIsExact` | src/resumable.rs:37-76 | a range is the parse of a text if and only if the text is its padded canonical print and its total is the expected one |
| `ContentRanges.EveryRangeIsProduced` | src/resumable.rs:24-76 | every valid range is parsed from its own print or is the implicit range of an empty file: the range type is exactly what the two constructors make |
| `ContentRanges.AcceptedIsRangeResp` | src/resumable.rs:32-76 | the accepted language lies inside `range-resp` of section 14.4 of RFC 9110 |
| `ContentRanges.ParseWithoutParts` | src/resumable.rs:38-42 | a text is refused for its unit exactly when it lacks the unit, and for its syntax when it has no slash |
| `ContentRanges.ParseOfParts` | src/resumable.rs:42-52 | around the first slash: wildcards, other slashes and lists are refused first, then totals that are no 64-bit number, then other totals, and the rest is left to the bounds |
| `ContentRanges.BoundsOfParts` | src/resumable.rs:53-58 | bounds without a hyphen or with two are refused for their syntax, and with anything but two 64-bit numbers for a number |
| `Uploads.UploadBuffer.constructor` | src/resumable.rs:157-162 | a new buffer has its total and no bytes |
| `Uploads.UploadBuffer.Append` | src/resumable.rs:192-250 | for every range whose length exists, hand-built ones included, the in-place append and its answer are those of the value `AppendTo` about which the session properties are proved |
| `Uploads.AppendFacts` | src/resumable.rs:188-250 | refusals and replays change nothing; acceptance means the body reads back at its range; freshness means it was appended at the old end, and stays within the total exactly when the range does |
| `Uploads.AppendRefusals` | src/resumable.rs:197-234 | exactly when each refusal is given, with the values it carries; a chunk is never too large for an index |
| `Uploads.AppendsAtOffset` | src/resumable.rs:189-250 | a chunk at the offset with the right total and length is always stored as fresh |
| `Uploads.SessionInvariant` | src/resumable.rs:192-250 | over any sequence of calls the bytes are the fresh bodies in order; with ranges a request can carry the offset stays within the total, and a positive total bounds the number of fresh calls |
| `Uploads.AcceptedReadsBack` | src/resumable.rs:192-250 | whatever was accepted, fresh or replayed, reads back at its own range after every later call |
| `Uploads.EmptyFilesAcceptForever` | src/resumable.rs:178-250 | the bound on fresh calls fails for total 0: any number of empty bodies is fresh |
| `Uploads.StoredIsPrefix` | src/resumable.rs:192-250 | if all bodies are slices of one source, the bytes are always a prefix of it, and complete means equal |
| `Uploads.SlicesNeverConflict` | src/resumable.rs:192-250 | slices of one source are refused only as gaps or overlaps, never as conflicts, and a slice at the offset is always fresh |
| `Uploads.ResumeConverges` | docs/resumable-uploads.md:44 | from any state left behind by a client of one source, probing and sending the next piece delivers the source in at most as many requests as bytes were missing |
| `Bodies.CollectBody` | src/lib.rs:559-579 | the loop computes the specified collection and never holds more than the declared length |
| `Bodies.CollectedIsExact` | src/lib.rs:559-579 | collection succeeds exactly for an unbroken stream of the declared length, and yields the concatenation |
| `Bodies.RefusedBodies` | src/lib.rs:562-579 | too much before the stream ends or breaks is refused as too long, then a break as unreadable, then too little as too short |
| `Bodies.ChunkingIsInvisible` | src/lib.rs:562-579 | two streams of the same bytes give the same bytes or the same error |
| `Declarations.ValidationIsExact` | src/declaration.rs:40-68 | a declaration is accepted if and only if there is room and name, size, media type and digest meet the policy, and a refusal names the first of these that fails |
| `Declarations.Utf8LengthIsExact` | src/declaration.rs:45 | the length of a name is its number of characters plus one for each from U+0080, U+0800 and U+10000 on |
| `Declarations.MediaMeaning` | src/declaration.rs:70-78 | a media type is accepted exactly when a pattern is universal, equal, or a wildcard for all subtypes of its type |
| `SetProtocol.StepKeepsSafe` | formal/file_tunnel_protocol.qnt:43-215 | each action keeps capability exchange, ticket order, file order and phase consistency |
| `SetProtocol.SafetyForEveryDomain` | formal/README.md:15-18 | every state reachable over any finite sets of files and tickets is safe |
| `SetProtocol.OneTimeOverRuns` | formal/README.md:7-9 | over a whole run the claim happens at most once and each ticket is issued at most once and redeemed at most once |
| `SetProtocol.PathKeepsDownloads` | formal/file_tunnel_protocol.qnt:43-164 | no path forgets a declared, available or downloaded file or an issued ticket, or leaves a terminal phase |
| `SetProtocol.CompletionIsReachable` | formal/README.md:18-19 | any nonempty set of files can be carried from creation to completion |
| `BitProtocol.ProtocolCell.constructor` | src/protocol.rs:118-129 | the cell starts in the initial state |
| `BitProtocol.ProtocolCell.Apply` | src/protocol.rs:174-254 | the in-place transition stores the next state of `Transition`, and a rejection changes nothing |
| `BitProtocol.DecodeIsFaithful` | src/protocol.rs:132-142 | inclusion, equality and emptiness of bounded masks are those of the sets they stand for |
| `BitProtocol.BitOperations` | src/protocol.rs:191-231 | testing, setting and clearing a bit is membership, insertion and removal |
| `BitProtocol.DownloadAgrees` | src/protocol.rs:225-236 | with bounded masks, a download matches its set action if and only if it is not a successful, non-last one by the desktop in `Connected` |
| `BitProtocol.MasksAgreeWithSets` | src/protocol.rs:180-276 | with bounded masks, a transition matches its set action if and only if it is no such download; matching means success exactly when the set action is enabled and the principal is the one meant for it, and the same next state |
| `BitProtocol.RejectionsAreExact` | src/protocol.rs:180-276 | a rejection is for the capability exactly when scope, secret or phase do not allow the action, else for the identity exactly when it is outside the domain, and else a conflict |
| `BitProtocol.QuietStatesAgree` | src/protocol.rs:180-276 | while nothing is available before `Transferring`, every transition matches its set action |
| `BitProtocol.SetsAreOffered` | formal/file_tunnel_protocol.qnt:43-162 | conversely, every enabled set action, other than a partial download in `Connected`, is performed by some mask action |
| `BitProtocol.PartialDownloadsAreNotOffered` | formal/file_tunnel_protocol.qnt:117-127 | a partial download in `Connected` is performed by no mask action |
| `BitProtocol.InvariantsAreSetFacts` | src/protocol.rs:132-161 | the mask invariants hold exactly when their set form does |
| `BitProtocol.TransitionKeepsInvariants` | src/protocol.rs:163-172 | from any state with the invariants every accepted transition has them again, so asserting them cannot fail |
| `BitProtocol.QuietIsNeeded` | src/protocol.rs:225-236 | a state with the invariants that has a download differing from its set action, so the invariants alone do not give agreement |
| `BitProtocol.EveryScriptRefines` | src/protocol.rs:163-254 | every script of accepted and rejected actions follows a path of the set protocol and ends in a safe state |
| `Tunnels.Tunnel.Create` | src/lib.rs:370-409 | creation is refused for invalid limits and otherwise makes a waiting tunnel with its limits, expiry and secrets |
| `Tunnels.Tunnel.PublishEvent` | src/lib.rs:874-892 | one more event with the next sequence number, nothing else changed |
| `Tunnels.Tunnel.ClaimTunnel` | src/lib.rs:411-439 | new state and answer of the claim handler, every refusal in order |
| `Tunnels.Tunnel.GetTunnel` | src/lib.rs:441-463 | the snapshot or its refusal |
| `Tunnels.Tunnel.CancelTunnel` | src/lib.rs:465-480 | new state and answer of the cancel handler |
| `Tunnels.Tunnel.DeclareFile` | src/lib.rs:482-532 | new state and answer of the declare handler; a fresh record and buffer are stored |
| `Tunnels.Tunnel.UploadFileBegin` | src/lib.rs:540-579 | the first half of an upload: its checks, its range and its body, changing nothing |
| `Tunnels.Tunnel.UploadFileCommit` | src/lib.rs:581-622 | the second half: checks, append, record, phase and events, touching this file only |
| `Tunnels.Tunnel.UploadStatus` | src/lib.rs:625-641 | the resume probe, changing nothing |
| `Tunnels.Tunnel.DownloadFile` | src/lib.rs:643-677 | content and its type, file status, completion and the closing of tickets |
| `Tunnels.Tunnel.CreateEventTicket` | src/lib.rs:679-696 | the ticket is stored with its expiry |
| `Tunnels.Tunnel.ConnectEvents` | src/lib.rs:704-726 | the ticket is removed before its expiry is looked at |
| `Changes.ChunkFacts` | src/lib.rs:585-622 | a commit that is not fresh changes nothing, a replay matches stored bytes, a fresh one extends the buffer at its end and moves record, phase and log accordingly |
| `Changes.StepIsChange` | src/lib.rs:411-730 | a step changes the tunnel by one of seven effects, each only when its precondition holds |
| `Invariants.EveryRunIsOk` | src/lib.rs:411-730 | every reachable state: counters match buffers and statuses, limits, exactly one of the two secrets, complete if and only if there are files and all are downloaded, no tickets after an end, events numbered 1..n, and waiting uploads still carry the phone secret and fit their file |
| `Invariants.CountersAreExact` | src/protocol.rs:70-72 | progress never exceeds the declared size, and complete means `Available`, `Downloaded` or empty |
| `Lifecycle.RefusalsArePure` | src/lib.rs:411-730 | a refused request leaves the tunnel alone, except that a stale ticket presented to a live tunnel is used up |
| `Lifecycle.CapabilitiesStaySeparate` | formal/README.md:8 | without the capability of its kind no request succeeds or changes anything, at either half of an upload |
| `Lifecycle.IntrudersAreInvisible` | formal/README.md:8 | over whole runs: without the requests that lack their capability, the run is still one the server can have and leaves the same tunnel, uploads and issued tickets |
| `Lifecycle.EndsAreFinal` | src/lib.rs:800-808 | after completion, cancellation or expiry no later step, including the commit of an upload begun before, changes the tunnel |
| `Lifecycle.TermsNeverChange` | src/lib.rs:376-394 | lifetime, limits, accepted media and the desktop secret stay those of creation |
| `Lifecycle.FilesMoveForward` | src/lib.rs:592-598 | a file's status goes back if and only if the step completes an upload to it while the tunnel is not over and the file has size 0 and is downloaded; stored bytes are only extended |
| `Lifecycle.ResendingReopens` | src/lib.rs:581-599 | in every run a step stores into a downloaded file exactly under that condition |
| `Lifecycle.ClaimedAtMostOnce` | src/lib.rs:411-439 | over a run the claims granted are one or none, exactly as the phone secret exists, and exactly one of the two secrets does |
| `Lifecycle.ClaimNeverFindsSecretGone` | src/lib.rs:420-429 | while waiting and unexpired, a claim fails only for a wrong secret: the missing-secret conflict cannot happen |
| `Lifecycle.TicketsAreOneTime` | src/lib.rs:698-726 | each ticket was issued, and subscriptions with it plus its presence never exceed one |
| `Lifecycle.SubscriptionsAreTimely` | src/lib.rs:719-726 | a subscription is granted only to a live tunnel and within thirty seconds of issuing its ticket |
| `Lifecycle.DeclarationsWereAdmissible` | src/lib.rs:492-523 | every accepted declaration met the whole policy of its tunnel, and its record still carries it |
| `Lifecycle.StoredFilesWereDeclared` | src/lib.rs:493-523 | every stored file goes back to an accepted declaration, and there are never more than the agreed number, at most 100 |
| `Atomicity.UploadIsAtomic` | src/lib.rs:534-623 | in every reachable state, committing a received upload gives the answer and the tunnel of the whole handler run at that moment |
| `Atomicity.LateRefusals` | src/lib.rs:581-592 | a commit is refused only by expiry, phase, gap, overlap or conflict: never for the secret, a missing file, a changed total, a body length or a size |
| `Atomicity.InterleavingIsInvisible` | src/lib.rs:534-623 | every interleaved run leaves what the schedule leaves in which each upload runs in one piece at its commit |
| `Atomicity.ChunkingIsInvisible` | src/lib.rs:559-601 | the way a client cuts its body changes neither answer nor tunnel |
| `Atomicity.ResumeIsAccepted` | docs/resumable-uploads.md:44 | a piece sent at a probed offset is fresh and is acknowledged with its own end |
| `Integrity.StoredIsFreshBodies` | src/lib.rs:585-601 | a live file holds exactly its fresh bodies in commit order |
| `Integrity.AcceptedReadsBack` | src/lib.rs:581-622 | every accepted PUT, fresh or replayed, reads back at its own range for the rest of the run |
| `Integrity.RetriesAreAbsorbed` | docs/resumable-uploads.md:20 | the handler, and its second half alone, accept the repetition of an accepted PUT if and only if the tunnel is not over, with the current offset, as a replay and without change if the file is not empty; otherwise it is told expiry or conflict |
| `Integrity.DeliveryIsExact` | src/lib.rs:653-676 | a download is exactly the fresh bodies in commit order, of the declared size, equal to every other download of the file, and contains every accepted PUT at its place |
| `Integrity.DeliveryHasDeclaredType` | src/lib.rs:657-660 | a download is labelled with the declared media type if a header field can carry it and with the fallback otherwise |
| `Integrity.SourceIsDelivered` | src/lib.rs:534-677 | if all accepted bodies are cut from one source of the declared size, every download is that source |
| `Conservation.BytesAreConserved` | src/lib.rs:493-601 | until cancellation the bytes of all files together are the fresh bodies of the run together, and these never exceed the number of files times the file limit |
| `EventLog.WatchingIsInStep` | src/lib.rs:874-892 | after every step, folding all events gives the tunnel status and each file's status and progress, with available empty files seen as uploading |
| `EventLog.WatchingEqualsSnapshot` | src/lib.rs:441-463 | folding all events gives the snapshot if and only if no empty file is currently available |
| `EventLog.LogTellsEveryFile` | src/lib.rs:585-621 | for each live file: one announcement, `file.available` exactly once if nonempty and complete and else never; progress rises strictly to the offset if the file is not empty and stays 0 if it is; events numbered 1..n |
| `EventLog.ProgressRises` | src/lib.rs:592-612 | one progress event per stored body, strictly rising if and only if the file is not empty or was stored into at most once |
| `Refinement.StepIsFollowed` | src/lib.rs:411-730 | each step that does not complete an upload to a downloaded empty file is followed by the named enabled protocol actions: none for probes, snapshots, replays, partial chunks and repeated downloads, a redeem for a stale ticket |
| `Refinement.RefinementIsExact` | src/lib.rs:411-730 | a run over any finite domain of identities is followed by the protocol if and only if it never completes an upload, before the tunnel is over, to a downloaded file of size 0 |
| `Refinement.FollowedIsSafe` | formal/file_tunnel_protocol.qnt:184-215 | protocol safety transfers to the tunnel |
| `Refinement.PositiveSizesNeverReopen` | src/lib.rs:592-598 | with positive declared sizes the condition always holds |
| `EventLog.LogIsHistory` | src/lib.rs:434-891 | the log is exactly what the accepted requests write, one after the other: which events, for which file, with which bytes and numbers |
| `Answers.CreationIsExact` | src/lib.rs:777-798 | a creation is accepted exactly within the limits of the service, and a refusal names the first limit that fails |
| `Answers.ClaimIsAnswered` | src/lib.rs:411-439 | a claim succeeds exactly with the secret of the creation, if none was granted and the tunnel is not over; it is told the end of the lifetime; each refusal in its order |
| `Answers.SnapshotIsAnswered` | src/lib.rs:441-463 | desktop and phone can read the tunnel until it is cancelled or expired; they see phase, end of lifetime and exactly the declared files, each as declared, with its stored bytes, and (if not empty) the status its history gives it |
| `Answers.CancelIsAnswered` | src/lib.rs:465-480 | a cancellation succeeds exactly for the desktop while the tunnel is not over, claimed or not, and leaves no files and no tickets; each refusal in its order |
| `Answers.DeclarationIsAnswered` | src/lib.rs:482-532 | a declaration succeeds exactly for the phone while the tunnel is not over, with room and an admissible file; the answer is the descriptor then stored under the given identifier; each refusal in its order |
| `Answers.UploadIsBegun` | src/lib.rs:540-579 | the first half succeeds exactly for the phone, a live tunnel, a known file, a range the header names and an unbroken body of its length; the upload then waits with that range and body; each refusal in its order |
| `Answers.WholeFileIsStored` | src/lib.rs:557 | without a range header the body is received if and only if it is unbroken and as long as declared, whatever the size, and into an empty buffer the handler stores it all |
| `Answers.UploadIsCommitted` | src/lib.rs:581-622 | the second half succeeds exactly if the tunnel is not over and the range starts at the bytes stored so far or repeats some of them; the answer carries the new offset, completeness and replay; each refusal with its values |
| `Answers.ProbeIsAnswered` | src/lib.rs:625-641 | the probe tells the phone the number of bytes stored and whether that is the declared size |
| `Answers.DownloadIsAnswered` | src/lib.rs:643-676 | a download succeeds exactly for the desktop while the tunnel is not over and all bytes are stored, and carries the stored bodies in order; each refusal in its order |
| `Answers.TicketIsAnswered` | src/lib.rs:679-696 | a ticket is issued exactly to desktop and phone while the tunnel is not over, for thirty seconds; each refusal in its order |
| `Answers.ConnectIsAnswered` | src/lib.rs:698-726 | a ticket is honoured exactly if the tunnel is not over, it was issued less than thirty seconds ago, and nobody presented it since; each refusal in its order |
| `Reachability.StatusIsHistory` | src/lib.rs:592-660 | a file that is not empty is downloaded exactly if it was delivered, else available exactly if all of it is stored, else uploading exactly if some is |
| `Reachability.CompletionIsReachable` | src/lib.rs:534-677 | any run that has left an open, unexpired tunnel with files extends to one that completes it, every file delivered as the source of which it held a prefix |
| `Reachability.DownloadedWasDelivered` | src/lib.rs:653-660 | a file marked downloaded was delivered, with the content it still holds |
| `Witnesses.TransferSucceeds` | src/lib.rs:411-677 | claim, declare, upload and download of one small file ends complete with the bytes delivered |
| `Witnesses.EmptyUploadIsNotAnnounced` | src/lib.rs:585-621 | a run after which an empty file is available and the watching client still sees it uploading |
| `Witnesses.EmptyFileReopens` | src/lib.rs:592-598 | a run in which a downloaded empty file becomes available again |
| `Witnesses.EmptyFileBreaksRefinement` | src/lib.rs:592-598 | no run of the protocol follows that run, whatever the domain |

## Left out

- Transport: routing, CORS, JSON, response headers and status codes, the upgrade to a WebSocket and sending on it.
- Start-up, shutdown, observability and src/persistence.rs.
- Secrets and identifiers: SHA-256, constant-time comparison and random generation are opaque numbers with equality; new file and ticket identifiers are assumed unused, and a bearer header is present with a hash or absent.
- The table of tunnels: each handler touches one entry, so the lookup of an unknown tunnel is not modelled.
- The clock: each handler reads it once per lock-held region; it never runs backwards and may stand still.
- Locks and scheduling inside a lock-held region: such a region is one atomic step.
- The 256-slot broadcast ring: published events form an unbounded log, so a receiver that falls behind is not modelled; nor are event identifiers, times and the reason code, which no caller sets.
- Tunnels.Tunnel.PublishEvent: does not model exhaustion of the 64-bit sequence counter.
- Tunnels.Tunnel.GetTunnel: states the snapshot's files as a map, not their order by creation time.
- Fields that are read and dropped: device label, last-modified time, and the digest after its format is checked; uploaded bytes are compared with no digest.
- The header library: that it accepts exactly visible ASCII, spaces and tabs as a field value is taken as given.
- 32-bit targets: buffer indices are 64 bits wide, so the refusal of chunks too large for an index never applies.
- Ranges built by hand whose end precedes their start: their length does not exist.
- Error texts: errors carry the values their messages show.
- BitProtocol.ProtocolCell.Apply: covers domain counts below 8, the most for which the mask arithmetic of the source is defined.
- The `saw` flags of the finite model; reachability is stated by `SetProtocol.CompletionIsReachable` instead.
