/**
 The seven ways a step can change a tunnel. Every other request, answered or refused, leaves
 it alone; this is what makes facts about runs provable one effect at a time.
 */
module Changes {
  import opened Wrappers
  import opened Capabilities
  import opened ContentRanges
  import opened Uploads
  import opened Declarations
  import opened TunnelModel

  predicate StoredFresh(a: Answer) {
    a.Success? && a.value.Uploaded? && !a.value.outcome.replayed
  }

  /** Committing a chunk either changes nothing or appends it at the offset, within the total. */
  lemma ChunkFacts(t: TunnelState, id: FileId, range: ContentRange, body: seq<byte>)
    requires id in t.files
    ensures var (next, a) := StoreChunk(t, id, range, body);
            var u := t.files[id].upload;
            && (a.Success? ==> a.value.Uploaded? && range.total == u.total && |body| == Len(range))
            && (!StoredFresh(a) ==> next == t)
            && (a.Success? && !StoredFresh(a) ==>
                Holds(u.bytes, range, body))
            && (StoredFresh(a) ==>
                var v := Extended(u, body);
                && range.start == u.Offset() && range.endExclusive == v.Offset() <= v.total
                && a.value.outcome == Outcome(v, false)
                && next == WithChunk(t, id, v, Outcome(v, false)))
  {
    hide AppendTo, WithChunk, Extended, Outcome, Len, Holds;
    AppendFacts(t.files[id].upload, range, body);
  }

  datatype Change =
    | Nothing
    | Claims(phone: Digest)
    | Cancels
    | Declares(fileId: FileId, declaration: FileDeclaration)
    | Appends(fileId: FileId, body: seq<byte>)
    | Fetches(fileId: FileId)
    | Mints(ticket: Digest)
    | Spends(ticket: Digest)

  /** The change a request makes, if any. */
  function ChangeOf(w: World, q: Request): Change {
    var t, now := w.tunnel, w.now;
    match q
    case ClaimRequest(secret, phone) => if ClaimCheck(t, now, secret).Success? then Claims(phone) else Nothing
    case CancelRequest(bearer) => if CancelCheck(t, now, bearer).Success? then Cancels else Nothing
    case DeclareRequest(bearer, id, d) =>
      if DeclareCheck(t, now, bearer, d).Success? then Declares(id, d) else Nothing
    case UploadCommits(task) =>
      if task in w.uploads && StoredFresh(CommitUpload(t, now, w.uploads[task]).1)
      then Appends(w.uploads[task].request.fileId, w.uploads[task].body) else Nothing
    case DownloadRequest(bearer, id) => if DownloadCheck(t, now, bearer, id).Success? then Fetches(id) else Nothing
    case TicketRequest(bearer, ticket) => if TicketCheck(t, now, bearer).Success? then Mints(ticket) else Nothing
    case ConnectRequest(ticket) => if ConnectCheck(t, now, ticket).Success? then Spends(ticket) else Nothing
    case _ => Nothing
  }

  /** What each change presupposes. */
  predicate Possible(t: TunnelState, c: Change) {
    match c
    case Nothing => true
    case Claims(_) => t.status.Waiting? && t.pairing.Some?
    case Cancels => t.status.Waiting? || IsOpen(t.status)
    case Declares(id, d) =>
      IsOpen(t.status) && id !in t.files && |t.files| < t.maxFiles && d.sizeBytes <= t.maxFileBytes
    case Appends(id, body) =>
      && IsOpen(t.status) && id in t.files
      && Extended(t.files[id].upload, body).Offset() <= t.files[id].upload.total
      && (body == [] ==> t.files[id].upload.total == 0)
    case Fetches(id) => IsOpen(t.status) && id in t.files && t.files[id].upload.IsComplete()
    case Mints(_) => t.status.Waiting? || IsOpen(t.status)
    case Spends(ticket) => (t.status.Waiting? || IsOpen(t.status)) && ticket in t.tickets
  }

  function Appended(t: TunnelState, id: FileId, body: seq<byte>): TunnelState
    requires id in t.files
  {
    var v := Extended(t.files[id].upload, body);
    WithChunk(t, id, v, Outcome(v, false))
  }

  function Changed(t: TunnelState, now: Instant, c: Change): TunnelState
    requires Possible(t, c)
  {
    match c
    case Nothing => t
    case Claims(phone) => Claimed(t, phone)
    case Cancels => Closed(t)
    case Declares(id, d) => WithFile(t, id, d, now)
    case Appends(id, body) => Appended(t, id, body)
    case Fetches(id) => Fetched(t, id)
    case Mints(ticket) => t.(tickets := t.tickets[ticket := now + EVENT_TICKET_SECONDS])
    case Spends(ticket) => t.(tickets := t.tickets - {ticket})
  }

  // ------------------------------------------------ a change seen part by part

  function RecordAfter(f: FileRecord, id: FileId, c: Change): FileRecord {
    match c
    case Appends(i, body) =>
      if i != id then f
      else
        var v := Extended(f.upload, body);
        FileRecord(f.descriptor.(bytesTransferred := v.Offset(),
                                 status := if v.IsComplete() then Available else Uploading), v)
    case Fetches(i) => if i != id then f else f.(descriptor := f.descriptor.(status := Downloaded))
    case _ => f
  }

  lemma FilesAfter(t: TunnelState, now: Instant, c: Change)
    requires Possible(t, c)
    ensures var u := Changed(t, now, c);
            && u.files.Keys == (if c.Cancels? then {}
                                else if c.Declares? then t.files.Keys + {c.fileId} else t.files.Keys)
            && (forall id | id in u.files && id in t.files :: u.files[id] == RecordAfter(t.files[id], id, c))
            && (c.Declares? ==> u.files[c.fileId] == NewRecord(c.fileId, c.declaration, now))
  {
  }

  function TicketsAfter(t: TunnelState, now: Instant, c: Change): map<Digest, Instant>
    requires Possible(t, c)
  {
    match c
    case Cancels => map[]
    case Fetches(id) => if AllDownloaded(MarkDownloaded(t.files, id)) then map[] else t.tickets
    case Mints(ticket) => t.tickets[ticket := now + EVENT_TICKET_SECONDS]
    case Spends(ticket) => t.tickets - {ticket}
    case _ => t.tickets
  }

  /** The parts of a tunnel that a change touches, and those no change touches. */
  ghost predicate HasParts(t: TunnelState, now: Instant, c: Change, u: TunnelState)
    requires Possible(t, c)
  {
    && u.tickets == TicketsAfter(t, now, c)
    && u.pairing == (if c.Claims? then None else t.pairing)
    && u.phone == (if c.Claims? then Some(c.phone) else t.phone)
    && u.desktop == t.desktop && u.expiresAt == t.expiresAt && u.accept == t.accept
    && u.maxFiles == t.maxFiles && u.maxFileBytes == t.maxFileBytes
    && u.status == match c
                   case Claims(_) => Connected
                   case Cancels => TunnelStatus.Cancelled
                   case Appends(_, _) => Transferring
                   case Fetches(id) =>
                     if AllDownloaded(MarkDownloaded(t.files, id)) then Complete else t.status
                   case _ => t.status
  }

  lemma AppendedParts(t: TunnelState, now: Instant, id: FileId, body: seq<byte>)
    requires Possible(t, Appends(id, body))
    ensures HasParts(t, now, Appends(id, body), Appended(t, id, body))
  {
    hide Publish;
    PublishOnlyLogs();
  }

  lemma FetchedParts(t: TunnelState, now: Instant, id: FileId)
    requires Possible(t, Fetches(id))
    ensures HasParts(t, now, Fetches(id), Fetched(t, id))
  {
    hide Publish, AllDownloaded, MarkDownloaded;
    PublishOnlyLogs();
  }

  lemma PartsAfter(t: TunnelState, now: Instant, c: Change)
    requires Possible(t, c)
    ensures HasParts(t, now, c, Changed(t, now, c))
  {
    hide Appended, Fetched, AllDownloaded, MarkDownloaded;
    match c
    case Appends(id, body) => AppendedParts(t, now, id, body);
    case Fetches(id) => FetchedParts(t, now, id);
    case _ =>
  }

  lemma PublishOnlyLogs()
    ensures forall t: TunnelState, kind, file: Option<FileId>, bytes: Option<nat> ::
              var u := Publish(t, kind, file, bytes); u == t.(sequence := u.sequence, events := u.events)
  {
  }

  /** An accepted commit, fresh or not, seen from the outside. */
  lemma CommitIsChange(t: TunnelState, now: Instant, p: PendingUpload)
    ensures var (next, a) := CommitUpload(t, now, p);
            var id := p.request.fileId;
            && (!StoredFresh(a) ==> next == t)
            && (StoredFresh(a) ==> Possible(t, Appends(id, p.body)) && next == Appended(t, id, p.body))
            && (a.Success? ==> id in t.files && p.range.total == t.files[id].upload.total && |p.body| == Len(p.range))
            && (a.Success? && !StoredFresh(a) ==>
                Holds(t.files[id].upload.bytes, p.range, p.body))
            && (StoredFresh(a) ==>
                p.range.start == t.files[id].upload.Offset()
                && p.range.endExclusive == Appended(t, id, p.body).files[id].upload.Offset())
  {
    hide StoreChunk, Holds;
    if p.request.fileId in t.files {
      ChunkFacts(t, p.request.fileId, p.range, p.body);
    }
  }

  lemma DeclareNeedsRoom(t: TunnelState, now: Instant, bearer: Option<Digest>, d: FileDeclaration)
    requires DeclareCheck(t, now, bearer, d).Success?
    ensures IsOpen(t.status) && |t.files| < t.maxFiles && d.sizeBytes <= t.maxFileBytes
  {
  }

  /** A step changes the tunnel by the change it makes, and only when that is possible. */
  lemma StepIsChange(w: World, q: Request)
    requires q.DeclareRequest? ==> q.fileId !in w.tunnel.files
    ensures Possible(w.tunnel, ChangeOf(w, q))
    ensures Step(w, q).0.tunnel == Changed(w.tunnel, w.now, ChangeOf(w, q))
  {
    hide CommitUpload, Appended, Fetched, WithFile, Claimed, Closed, BeginUpload, Probe, Descriptors, Admit;
    if q.DeclareRequest? && DeclareCheck(w.tunnel, w.now, q.bearer, q.declaration).Success? {
      DeclareNeedsRoom(w.tunnel, w.now, q.bearer, q.declaration);
    }
    if q.UploadCommits? && q.task in w.uploads {
      CommitIsChange(w.tunnel, w.now, w.uploads[q.task]);
    }
  }

  /** The change made by the last step of a run. */
  function LastChange(r: Run): Change
    requires r.Then?
  {
    ChangeOf(After(r.before), r.request)
  }
}
