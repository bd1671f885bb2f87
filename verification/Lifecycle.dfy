/**
 What requests cannot do: change a tunnel while being refused, leave an end, move a file
 backwards, claim twice, or subscribe twice with one ticket.
 */
module Lifecycle {
  import opened Wrappers
  import opened ContentRanges
  import opened Capabilities
  import opened Uploads
  import opened Declarations
  import opened TunnelModel
  import opened Changes
  import opened Invariants

  // ------------------------------------------------------------- refused requests

  /** A ticket presented to a live tunnel after its own time is over. */
  predicate SpendsStaleTicket(w: World, q: Request) {
    && q.ConnectRequest? && q.ticket in w.tunnel.tickets && w.tunnel.tickets[q.ticket] <= w.now
    && w.now < w.tunnel.expiresAt && (w.tunnel.status.Waiting? || IsOpen(w.tunnel.status))
  }

  /** A refused request changes nothing, except that a stale ticket is used up by trying it. */
  lemma RefusalsArePure(w: World, q: Request)
    ensures Step(w, q).1.Failure? ==>
              Step(w, q).0.tunnel ==
                if SpendsStaleTicket(w, q) then w.tunnel.(tickets := w.tunnel.tickets - {q.ticket}) else w.tunnel
    ensures SpendsStaleTicket(w, q) ==> Step(w, q).1 == Failure(Unauthorized)
    ensures q.SnapshotRequest? || q.ProbeRequest? || q.UploadBegins? ==> Step(w, q).0.tunnel == w.tunnel
  {
    hide StoreChunk;
    if q.UploadCommits? && q.task in w.uploads && w.uploads[q.task].request.fileId in w.tunnel.files {
      var p := w.uploads[q.task];
      ChunkFacts(w.tunnel, p.request.fileId, p.range, p.body);
    }
  }

  /** Who presented what: the capability that lets each kind of request succeed. */
  predicate HoldsCapability(w: World, q: Request) {
    var t := w.tunnel;
    match q
    case ClaimRequest(secret, _) => t.pairing == Some(secret)
    case SnapshotRequest(bearer) => bearer.Some? && (bearer == Some(t.desktop) || bearer == t.phone)
    case CancelRequest(bearer) => bearer == Some(t.desktop)
    case DeclareRequest(bearer, _, _) => bearer.Some? && bearer == t.phone
    case UploadBegins(_, upload) => upload.bearer.Some? && upload.bearer == t.phone
    case UploadCommits(task) => task in w.uploads && t.phone == Some(w.uploads[task].supplied)
    case ProbeRequest(bearer, _) => bearer.Some? && bearer == t.phone
    case DownloadRequest(bearer, _) => bearer == Some(t.desktop)
    case TicketRequest(bearer, _) => bearer.Some? && (bearer == Some(t.desktop) || bearer == t.phone)
    case ConnectRequest(ticket) => ticket in t.tickets
    case ClockReaches(_) => true
  }

  /** The scopes stay separate: nothing succeeds, or changes anything, without its own capability. */
  lemma CapabilitiesStaySeparate(w: World, q: Request)
    requires !HoldsCapability(w, q)
    ensures Step(w, q).1.Failure? && Step(w, q).0.tunnel == w.tunnel
  {
    hide ReceiveBody, StoreChunk, Admit;
  }

  /** A request without its capability leaves no trace, not even of an upload begun. */
  lemma UnauthorizedLeavesNoTrace(w: World, q: Request)
    requires WorldOk(w) && !HoldsCapability(w, q)
    ensures Step(w, q).0 == w && Step(w, q).1.Failure?
  {
    hide ReceiveBody, StoreChunk, Admit, TunnelOk;
    assert q.UploadCommits? && q.task in w.uploads ==> PendingOk(w.tunnel, w.uploads[q.task]);
  }

  /** The run as if nobody had ever sent a request without its capability. */
  function Authorized(r: Run): Run {
    match r
    case Created(_, _, _, _) => r
    case Then(before, q) =>
      if HoldsCapability(After(before), q) then Then(Authorized(before), q) else Authorized(before)
  }

  lemma UnauthorizedMintsNothing(r: Run)
    requires r.Then? && AnswerTo(r).Failure?
    ensures Minted(r) == Minted(r.before)
  {
  }

  /**
   Over whole runs: taking out every request without its capability leaves a run the server can
   have, with the same tunnel, the same uploads under way and the same tickets issued.
   */
  lemma {:induction false} IntrudersAreInvisible(r: Run)
    requires Legal(r)
    ensures Legal(Authorized(r)) && After(Authorized(r)) == After(r) && Minted(Authorized(r)) == Minted(r)
  {
    hide Step, HoldsCapability;
    if r.Then? {
      IntrudersAreInvisible(r.before);
      if !HoldsCapability(After(r.before), r.request) {
        EveryRunIsOk(r.before);
        UnauthorizedLeavesNoTrace(After(r.before), r.request);
        UnauthorizedMintsNothing(r);
      }
    }
  }

  // ------------------------------------------------------------------------- ends

  /** `later` continues `earlier`. */
  ghost predicate Extends(earlier: Run, later: Run) {
    earlier == later || (later.Then? && Extends(earlier, later.before))
  }

  predicate IsOver(w: World) {
    w.tunnel.status.Complete? || w.tunnel.status.Cancelled? || w.tunnel.expiresAt <= w.now
  }

  /** A change only ever happens before expiry. */
  lemma ChangesNeedLife(w: World, q: Request)
    requires ChangeOf(w, q) != Nothing
    ensures w.now < w.tunnel.expiresAt && !q.ClockReaches?
    ensures ChangeOf(w, q).Mints? ==>
              q.TicketRequest? && (q.bearer == Some(w.tunnel.desktop) || w.tunnel.phone.Some?)
  {
    hide StoreChunk;
  }

  lemma OverMeansRefused(w: World, q: Request)
    requires IsOver(w) && (q.DeclareRequest? ==> q.fileId !in w.tunnel.files)
    ensures Step(w, q).0.tunnel == w.tunnel
  {
    hide Step, ChangeOf;
    StepIsChange(w, q);
    if ChangeOf(w, q) != Nothing {
      ChangesNeedLife(w, q);
    }
  }

  lemma ExpiryIsFixed(w: World, q: Request)
    ensures Step(w, q).0.tunnel.expiresAt == w.tunnel.expiresAt
    ensures Step(w, q).0.now == if q.ClockReaches? then q.now else w.now
  {
    if q.UploadCommits? && q.task in w.uploads && w.uploads[q.task].request.fileId in w.tunnel.files {
      hide StoreChunk;
      var p := w.uploads[q.task];
      ChunkFacts(w.tunnel, p.request.fileId, p.range, p.body);
    }
  }

  /** Completion, cancellation and expiry are final: no later step, in any order, changes the tunnel. */
  lemma {:induction false} EndsAreFinal(earlier: Run, later: Run)
    requires Legal(later) && Extends(earlier, later) && IsOver(After(earlier))
    ensures After(later).tunnel == After(earlier).tunnel && IsOver(After(later))
  {
    if earlier != later {
      EndsAreFinal(earlier, later.before);
      hide Step;
      OverMeansRefused(After(later.before), later.request);
      ExpiryIsFixed(After(later.before), later.request);
    }
  }

  function CreationOf(r: Run): (c: Run)
    ensures c.Created?
  {
    match r
    case Created(_, _, _, _) => r
    case Then(before, _) => CreationOf(before)
  }

  /** Every run is bound to the lifetime and the limits it was created with. */
  lemma {:induction false} TermsNeverChange(r: Run)
    requires Legal(r)
    ensures var q, t := CreationOf(r).creation, After(r).tunnel;
            && t.expiresAt == CreationOf(r).at + q.expiresInSeconds
            && MIN_EXPIRES_SECONDS <= q.expiresInSeconds <= MAX_EXPIRES_SECONDS
            && t.maxFiles == q.maxFiles && t.maxFileBytes == q.maxFileBytes && t.accept == q.accept
            && t.desktop == CreationOf(r).desktop
  {
    hide Step, ChangeOf, Changed;
    if r.Then? {
      TermsNeverChange(r.before);
      LastStep(r);
      PartsAfter(After(r.before).tunnel, After(r.before).now, LastChange(r));
    }
  }

  // ---------------------------------------------------------------- files in order

  function Rank(status: FileStatus): nat {
    match status
    case Declared => 0
    case Uploading => 1
    case Available => 2
    case Downloaded => 3
    case Rejected => 4
    case Cancelled => 4
  }

  /** A change that stores into a file already downloaded. Only an empty file leaves room for it. */
  predicate Reopens(t: TunnelState, c: Change) {
    c.Appends? && c.fileId in t.files && t.files[c.fileId].descriptor.status.Downloaded?
  }

  /**
   The second half of an upload to a downloaded file of size zero, while the tunnel lives. Whether
   this is so can be seen before the step.
   */
  predicate ResendsEmptyFile(w: World, q: Request) {
    && q.UploadCommits? && q.task in w.uploads && !IsOver(w)
    && var id := w.uploads[q.task].request.fileId;
    && id in w.tunnel.files
    && w.tunnel.files[id].descriptor.status.Downloaded? && w.tunnel.files[id].descriptor.sizeBytes == 0
  }

  lemma EmptyFileIsAtItsEnd(u: UploadState, range: ContentRange)
    requires u.total == 0 && u.Offset() <= u.total && range.total == u.total
    ensures range.start == u.Offset() && Len(range) == 0
    ensures range.start <= range.endExclusive <= range.total
  {
    hide RawRange.Valid;
    EmptyTotalHasNoOtherRange(range);
  }

  /** Into an empty file only the empty body fits, and it always counts as fresh. */
  lemma EmptyFileIsFresh(u: UploadState, range: ContentRange, body: seq<byte>)
    requires u.total == 0 && u.Offset() <= u.total && range.total == u.total && |body| == Len(range)
    ensures AppendTo(u, range, body) == (u, Success(Outcome(u, false)))
  {
    hide AppendTo, Len, RawRange.Valid;
    EmptyFileIsAtItsEnd(u, range);
    AppendsAtOffset(u, range, body);
    assert u.bytes + body == u.bytes;
  }

  lemma LiveUploadIsChecked(t: TunnelState, now: Instant, supplied: Digest, id: FileId)
    requires PhaseOk(t) && now < t.expiresAt && !t.status.Complete? && !t.status.Cancelled?
    requires t.phone == Some(supplied) && id in t.files
    ensures UploadCheck(t, now, supplied, id).Success?
  {
  }

  lemma PendingMatchesFile(t: TunnelState, p: PendingUpload)
    requires FilesOk(t) && PendingOk(t, p) && !t.status.Cancelled?
    ensures p.request.fileId in t.files && t.phone == Some(p.supplied) && |p.body| == Len(p.range)
    ensures var f := t.files[p.request.fileId];
            p.range.total == f.upload.total == f.descriptor.sizeBytes && f.upload.Offset() <= f.upload.total
  {
    BodyFits(p);
    hide ReceiveBody;
    assert RecordOk(p.request.fileId, t.files[p.request.fileId], t.maxFileBytes);
  }

  lemma EmptyCommitIsFresh(t: TunnelState, now: Instant, p: PendingUpload)
    requires TunnelOk(t) && PendingOk(t, p) && now < t.expiresAt && !t.status.Complete? && !t.status.Cancelled?
    requires p.request.fileId in t.files && t.files[p.request.fileId].descriptor.sizeBytes == 0
    ensures StoredFresh(CommitUpload(t, now, p).1)
  {
    hide FilesOk, LimitsOk, SecretsOk, PhaseOk, EventsOk, PendingOk, UploadCheck, StoreChunk, AppendTo;
    hide Len, RawRange.Valid;
    PendingMatchesFile(t, p);
    LiveUploadIsChecked(t, now, p.supplied, p.request.fileId);
    EmptyFileIsFresh(t.files[p.request.fileId].upload, p.range, p.body);
    CheckedCommit(t, now, p);
  }

  lemma CheckedCommit(t: TunnelState, now: Instant, p: PendingUpload)
    requires UploadCheck(t, now, p.supplied, p.request.fileId).Success? && p.request.fileId in t.files
    ensures CommitUpload(t, now, p) == StoreChunk(t, p.request.fileId, p.range, p.body)
    ensures var (_, r) := AppendTo(t.files[p.request.fileId].upload, p.range, p.body);
            StoredFresh(CommitUpload(t, now, p).1) <==> r.Success? && !r.value.replayed
  {
    hide AppendTo, WithChunk, UploadCheck;
  }

  lemma NothingFitsAfterDownload(t: TunnelState, c: Change)
    requires TunnelOk(t) && Possible(t, c) && Reopens(t, c)
    ensures t.files[c.fileId].descriptor.sizeBytes == 0 && IsOpen(t.status)
  {
    assert RecordOk(c.fileId, t.files[c.fileId], t.maxFileBytes);
  }

  /** A step reopens a file exactly when it completes an upload to a downloaded empty file. */
  lemma ReopeningIsForeseen(w: World, q: Request)
    requires WorldOk(w) && (q.DeclareRequest? ==> q.fileId !in w.tunnel.files)
    ensures Reopens(w.tunnel, ChangeOf(w, q)) <==> ResendsEmptyFile(w, q)
  {
    hide Step, Changed, CommitUpload, TunnelOk, PendingOk;
    StepIsChange(w, q);
    if Reopens(w.tunnel, ChangeOf(w, q)) {
      ChangesNeedLife(w, q);
      NothingFitsAfterDownload(w.tunnel, ChangeOf(w, q));
    }
    if ResendsEmptyFile(w, q) {
      EmptyCommitIsFresh(w.tunnel, w.now, w.uploads[q.task]);
    }
  }

  /** In every run, whether a step reopens a file is decided by what can be seen before it. */
  lemma ResendingReopens(r: Run)
    requires Legal(r) && r.Then?
    ensures Reopens(After(r.before).tunnel, LastChange(r)) <==> ResendsEmptyFile(After(r.before), r.request)
  {
    hide Step, ChangeOf, ResendsEmptyFile;
    EveryRunIsOk(r.before);
    ReopeningIsForeseen(After(r.before), r.request);
  }

  lemma RecordMovesForward(t: TunnelState, c: Change, id: FileId)
    requires Possible(t, c) && id in t.files && RecordOk(id, t.files[id], t.maxFileBytes)
    ensures var before, after := t.files[id], RecordAfter(t.files[id], id, c);
            && (Rank(after.descriptor.status) < Rank(before.descriptor.status) <==>
                Reopens(t, c) && c.fileId == id)
            && before.upload.bytes <= after.upload.bytes
  {
  }

  /** Files move forward through their statuses, except exactly when an empty one is sent again. */
  lemma FilesMoveForward(r: Run, id: FileId)
    requires Legal(r) && r.Then?
    requires id in After(r.before).tunnel.files && id in After(r).tunnel.files
    ensures var w, q := After(r.before), r.request;
            var before, after := w.tunnel.files[id], After(r).tunnel.files[id];
            && (Rank(after.descriptor.status) < Rank(before.descriptor.status) <==>
                ResendsEmptyFile(w, q) && w.uploads[q.task].request.fileId == id)
            && before.upload.bytes <= after.upload.bytes
  {
    hide Step, Changed, CommitUpload;
    LastStep(r);
    var w, c := After(r.before), LastChange(r);
    FilesAfter(w.tunnel, w.now, c);
    assert RecordOk(id, w.tunnel.files[id], w.tunnel.maxFileBytes);
    RecordMovesForward(w.tunnel, c, id);
    ReopeningIsForeseen(w, r.request);
    if c.Appends? {
      AppendIsCommit(w, r.request);
    }
  }

  lemma AppendIsCommit(w: World, q: Request)
    requires ChangeOf(w, q).Appends?
    ensures q.UploadCommits? && q.task in w.uploads && ChangeOf(w, q).fileId == w.uploads[q.task].request.fileId
  {
    hide CommitUpload;
  }

  // ------------------------------------------------------------ one-time exchanges

  function ClaimsGranted(r: Run): nat {
    match r
    case Created(_, _, _, _) => 0
    case Then(before, request) =>
      ClaimsGranted(before) + if request.ClaimRequest? && AnswerTo(r).Success? then 1 else 0
  }

  function Subscriptions(r: Run, ticket: Digest): nat {
    match r
    case Created(_, _, _, _) => 0
    case Then(before, request) =>
      Subscriptions(before, ticket)
      + if request == ConnectRequest(ticket) && AnswerTo(r).Success? then 1 else 0
  }

  /** The pairing secret is exchanged at most once, and exactly when the phone secret exists. */
  lemma {:induction false} ClaimedAtMostOnce(r: Run)
    requires Legal(r)
    ensures ClaimsGranted(r) == if After(r).tunnel.phone.Some? then 1 else 0
    ensures After(r).tunnel.pairing.Some? <==> After(r).tunnel.phone.None?
  {
    EveryRunIsOk(r);
    if r.Then? {
      ClaimedAtMostOnce(r.before);
      LastStep(r);
      assert r.request.ClaimRequest? && AnswerTo(r).Success? <==> LastChange(r).Claims?;
      hide Step, ChangeOf, Changed;
      PartsAfter(After(r.before).tunnel, After(r.before).now, LastChange(r));
    }
  }

  /** While a claim is still allowed the secret is there, so claiming fails only on a wrong one. */
  lemma ClaimNeverFindsSecretGone(r: Run, secret: Digest)
    requires Legal(r)
    requires After(r).now < After(r).tunnel.expiresAt && After(r).tunnel.status.Waiting?
    ensures ClaimCheck(After(r).tunnel, After(r).now, secret) ==
            if After(r).tunnel.pairing == Some(secret) then Success(()) else Failure(Unauthorized)
  {
    EveryRunIsOk(r);
  }

  lemma TicketChanges(r: Run)
    requires Legal(r) && r.Then?
    ensures r.request.TicketRequest? && AnswerTo(r).Success? <==> LastChange(r).Mints?
    ensures LastChange(r).Mints? ==> LastChange(r).ticket == r.request.ticket
    ensures r.request.ConnectRequest? && AnswerTo(r).Success? ==> LastChange(r) == Spends(r.request.ticket)
  {
  }

  lemma TicketFacts(t: TunnelState, now: Instant, c: Change, ticket: Digest)
    requires Possible(t, c)
    ensures ticket in TicketsAfter(t, now, c) ==> c == Mints(ticket) || ticket in t.tickets
    ensures c == Spends(ticket) ==> ticket in t.tickets && ticket !in TicketsAfter(t, now, c)
  {
  }

  /** A ticket is held only if it was issued, and yields at most one subscription, which uses it up. */
  lemma {:induction false} TicketsAreOneTime(r: Run, ticket: Digest)
    requires Legal(r)
    ensures Subscriptions(r, ticket) + (if ticket in After(r).tunnel.tickets then 1 else 0)
            <= if ticket in Minted(r) then 1 else 0
  {
    if r.Then? {
      hide Step, ChangeOf, Changed, TicketsAfter;
      var w, c := After(r.before), LastChange(r);
      TicketsAreOneTime(r.before, ticket);
      LastStep(r);
      TicketChanges(r);
      PartsAfter(w.tunnel, w.now, c);
      TicketFacts(w.tunnel, w.now, c, ticket);
    }
  }

  /** The ticket was issued at this moment of the run. */
  ghost predicate MintedAt(r: Run, ticket: Digest, at: Instant) {
    r.Then? && (MintedAt(r.before, ticket, at)
                || (LastChange(r) == Mints(ticket) && After(r.before).now == at))
  }

  lemma MintedOnward(r: Run, ticket: Digest, at: Instant)
    requires r.Then?
    requires MintedAt(r.before, ticket, at) || (LastChange(r) == Mints(ticket) && After(r.before).now == at)
    ensures MintedAt(r, ticket, at)
  {
  }

  lemma TicketOrigin(t: TunnelState, now: Instant, c: Change, ticket: Digest)
    requires Possible(t, c) && ticket in TicketsAfter(t, now, c)
    ensures if c == Mints(ticket) then TicketsAfter(t, now, c)[ticket] == now + EVENT_TICKET_SECONDS
            else ticket in t.tickets && TicketsAfter(t, now, c)[ticket] == t.tickets[ticket]
  {
  }

  /** The expiry of a held ticket is its lifetime after the moment it was issued. */
  lemma {:induction false} TicketsKnowTheirTime(r: Run, ticket: Digest)
    requires Legal(r) && ticket in After(r).tunnel.tickets
    ensures MintedAt(r, ticket, After(r).tunnel.tickets[ticket] - EVENT_TICKET_SECONDS)
  {
    hide Step, MintedAt, LastChange, Changed, Possible, TicketsAfter, WorldOk;
    if r.Then? {
      LastStep(r);
      var w, c := After(r.before), LastChange(r);
      PartsAfter(w.tunnel, w.now, c);
      TicketOrigin(w.tunnel, w.now, c, ticket);
      if c != Mints(ticket) {
        TicketsKnowTheirTime(r.before, ticket);
      }
      MintedOnward(r, ticket, After(r).tunnel.tickets[ticket] - EVENT_TICKET_SECONDS);
    }
  }

  /** A subscription is granted only to a live tunnel, within the lifetime of an issued ticket. */
  lemma SubscriptionsAreTimely(r: Run)
    requires Legal(r) && r.Then? && r.request.ConnectRequest? && AnswerTo(r).Success?
    ensures !IsOver(After(r.before))
    ensures exists at :: MintedAt(r.before, r.request.ticket, at) && After(r.before).now < at + 30
  {
    TicketsKnowTheirTime(r.before, r.request.ticket);
  }

  // -------------------------------------------------------------------- admission

  /** The file was accepted with this declaration. */
  ghost predicate DeclaredAs(r: Run, id: FileId, d: FileDeclaration) {
    r.Then? && (DeclaredAs(r.before, id, d) || LastChange(r) == Declares(id, d))
  }

  /** Every declaration ever accepted satisfied the whole policy of its tunnel. */
  lemma {:induction false} DeclarationsWereAdmissible(r: Run, id: FileId, d: FileDeclaration)
    requires Legal(r) && DeclaredAs(r, id, d)
    ensures Admissible(After(r).tunnel.maxFileBytes, After(r).tunnel.accept, d)
    ensures After(r).tunnel.status.Cancelled?
            || (id in After(r).tunnel.files
                && var f := After(r).tunnel.files[id].descriptor;
                   f.name == d.name && f.mediaType == d.mediaType && f.sizeBytes == d.sizeBytes)
  {
    hide Step, ChangeOf, Changed, WorldOk;
    var w, c := After(r.before), LastChange(r);
    LastStep(r);
    PartsAfter(w.tunnel, w.now, c);
    ChangeKeepsFiles(w.tunnel, w.now, c);
    if DeclaredAs(r.before, id, d) {
      DeclarationsWereAdmissible(r.before, id, d);
    } else {
      DeclaredAdmissibly(w, r.request);
      FilesAfter(w.tunnel, w.now, c);
    }
  }

  lemma DeclaredAdmissibly(w: World, q: Request)
    requires ChangeOf(w, q).Declares?
    ensures Admissible(w.tunnel.maxFileBytes, w.tunnel.accept, ChangeOf(w, q).declaration)
  {
    hide CommitUpload;
    ValidationIsExact(PolicyOf(w.tunnel), ChangeOf(w, q).declaration);
  }

  /** Every stored file goes back to an accepted declaration, and there are at most 100 of them. */
  lemma {:induction false} StoredFilesWereDeclared(r: Run, id: FileId) returns (d: FileDeclaration)
    requires Legal(r) && id in After(r).tunnel.files
    ensures DeclaredAs(r, id, d)
    ensures |After(r).tunnel.files| <= After(r).tunnel.maxFiles <= MAX_FILES
  {
    hide Step, ChangeOf, Changed;
    EveryRunIsOk(r);
    LastStep(r);
    FilesAfter(After(r.before).tunnel, After(r.before).now, LastChange(r));
    if id in After(r.before).tunnel.files {
      d := StoredFilesWereDeclared(r.before, id);
    } else {
      d := LastChange(r).declaration;
    }
  }
}
