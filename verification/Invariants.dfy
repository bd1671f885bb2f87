/** What holds of a tunnel after every step of every run. */
module Invariants {
  import opened Wrappers
  import opened Capabilities
  import opened ContentRanges
  import opened Uploads
  import opened Bodies
  import opened Declarations
  import opened TunnelModel
  import opened Changes

  // ------------------------------------------------------------------- statement

  /** The counters of one file agree with its buffer and with its status. */
  predicate RecordOk(id: FileId, f: FileRecord, maxFileBytes: nat) {
    var d, u := f.descriptor, f.upload;
    && d.fileId == id
    && d.sizeBytes == u.total <= maxFileBytes
    && d.bytesTransferred == u.Offset() <= u.total
    && match d.status
       case Declared => u.Offset() == 0
       case Uploading => 0 < u.Offset() < u.total
       case Available => u.IsComplete()
       case Downloaded => u.IsComplete()
       case Rejected => false
       case Cancelled => false
  }

  predicate FilesOk(t: TunnelState) {
    forall id | id in t.files :: RecordOk(id, t.files[id], t.maxFileBytes)
  }

  predicate LimitsOk(t: TunnelState) {
    && |t.files| <= t.maxFiles && 1 <= t.maxFiles <= MAX_FILES
    && 1 <= t.maxFileBytes <= MAX_FILE_BYTES
  }

  /** Exactly one of the pairing and the phone secret exists, according to the phase. */
  predicate SecretsOk(t: TunnelState) {
    && (t.pairing.Some? <==> t.phone.None?)
    && (t.status.Waiting? ==> t.pairing.Some?)
    && (IsOpen(t.status) || t.status.Complete? ==> t.phone.Some?)
  }

  /** Completion is exact, ends release everything, and no handler ever stores expiry. */
  predicate PhaseOk(t: TunnelState) {
    && !t.status.Expired?
    && (t.status.Complete? <==> t.files != map[] && AllDownloaded(t.files))
    && (t.status.Waiting? || t.status.Cancelled? ==> t.files == map[])
    && (t.status.Complete? || t.status.Cancelled? ==> t.tickets == map[])
  }

  /** Events are numbered 1, 2, 3, ... and speak only of known files until cancellation. */
  predicate EventsOk(t: TunnelState) {
    && |t.events| == t.sequence
    && (forall i | 0 <= i < |t.events| :: t.events[i].sequence == i + 1)
    && (!t.status.Cancelled? ==>
        forall i | 0 <= i < |t.events| && t.events[i].fileId.Some? :: t.events[i].fileId.value in t.files)
  }

  predicate TunnelOk(t: TunnelState) {
    FilesOk(t) && LimitsOk(t) && SecretsOk(t) && PhaseOk(t) && EventsOk(t)
  }

  /**
   An upload between its halves carries the phone secret and still fits its file, unless the
   tunnel was cancelled.
   */
  predicate PendingOk(t: TunnelState, p: PendingUpload) {
    && p.request.bearer == Some(p.supplied) && t.phone == Some(p.supplied)
    && ReceiveBody(p.request, p.supplied, p.range.total) == Success(p)
    && (t.status.Cancelled?
        || (p.request.fileId in t.files && t.files[p.request.fileId].upload.total == p.range.total))
  }

  predicate WorldOk(w: World) {
    && TunnelOk(w.tunnel)
    && forall k | k in w.uploads :: PendingOk(w.tunnel, w.uploads[k])
  }

  // ------------------------------------------------------------- one effect each

  lemma PublishKeepsOk(t: TunnelState, kind: EventKind, file: Option<FileId>, bytes: Option<nat>)
    requires TunnelOk(t) && (file.Some? && !t.status.Cancelled? ==> file.value in t.files)
    ensures TunnelOk(Publish(t, kind, file, bytes))
    ensures Publish(t, kind, file, bytes).files == t.files
  {
  }

  /** Updating records, secrets and phases leaves the log in order while no file disappears. */
  lemma SameEventsOk(t: TunnelState, u: TunnelState)
    requires EventsOk(t) && u.events == t.events && u.sequence == t.sequence
    requires u.status.Cancelled? || (!t.status.Cancelled? && t.files.Keys <= u.files.Keys)
    ensures EventsOk(u)
  {
  }

  lemma ClaimKeepsOk(t: TunnelState, phone: Digest)
    requires TunnelOk(t) && t.status.Waiting?
    ensures TunnelOk(Claimed(t, phone))
  {
    var u := t.(phone := Some(phone), pairing := None, status := Connected);
    SameEventsOk(t, u);
    hide Publish, EventsOk;
    PublishKeepsOk(u, TunnelConnected, None, None);
  }

  lemma CancelKeepsOk(t: TunnelState)
    requires TunnelOk(t)
    ensures TunnelOk(Closed(t))
  {
    var u := t.(status := TunnelStatus.Cancelled, files := map[], tickets := map[]);
    SameEventsOk(t, u);
    hide Publish, EventsOk;
    PublishKeepsOk(u, TunnelCancelled, None, None);
  }

  lemma DeclareKeepsOk(t: TunnelState, now: Instant, id: FileId, d: FileDeclaration)
    requires TunnelOk(t) && Possible(t, Declares(id, d))
    ensures TunnelOk(WithFile(t, id, d, now))
  {
    var u := t.(files := t.files[id := NewRecord(id, d, now)]);
    assert u.files.Keys == t.files.Keys + {id};
    SameEventsOk(t, u);
    hide Publish, EventsOk;
    assert !u.files[id].descriptor.status.Downloaded?;
    PublishKeepsOk(u, FileDeclared, Some(id), Some(0));
  }

  lemma AppendKeepsOk(t: TunnelState, id: FileId, body: seq<byte>)
    requires TunnelOk(t) && Possible(t, Appends(id, body))
    ensures TunnelOk(Appended(t, id, body))
  {
    assert RecordOk(id, t.files[id], t.maxFileBytes);
    var v := Extended(t.files[id].upload, body);
    var u := Moved(t, id, v, Outcome(v, false));
    assert u.files.Keys == t.files.Keys && u.files[id].descriptor.status != Downloaded;
    SameEventsOk(t, u);
    hide Publish, EventsOk;
    PublishKeepsOk(u, FileProgress, Some(id), Some(v.Offset()));
    var stored := Publish(u, FileProgress, Some(id), Some(v.Offset()));
    PublishKeepsOk(stored, FileAvailable, Some(id), Some(v.Offset()));
  }

  lemma MarkKeepsFiles(t: TunnelState, id: FileId)
    requires FilesOk(t) && id in t.files && t.files[id].upload.IsComplete()
    ensures FilesOk(Marked(t, id)) && Marked(t, id).files.Keys == t.files.Keys
    ensures Marked(t, id).events == t.events && Marked(t, id).sequence == t.sequence
  {
    hide AllDownloaded;
    assert RecordOk(id, t.files[id], t.maxFileBytes);
  }

  lemma MarkKeepsPhase(t: TunnelState, id: FileId)
    requires PhaseOk(t) && IsOpen(t.status) && id in t.files
    ensures PhaseOk(Marked(t, id))
  {
    assert id in MarkDownloaded(t.files, id);
  }

  lemma DownloadKeepsOk(t: TunnelState, id: FileId)
    requires TunnelOk(t) && Possible(t, Fetches(id))
    ensures TunnelOk(Fetched(t, id))
  {
    hide FilesOk, PhaseOk, EventsOk, Publish, MarkDownloaded, AllDownloaded;
    var u := Marked(t, id);
    MarkKeepsFiles(t, id);
    MarkKeepsPhase(t, id);
    assert |u.files| == |t.files| by { assert |u.files.Keys| == |t.files.Keys|; }
    assert id in u.files;
    SameEventsOk(t, u);
    PublishKeepsOk(u, FileDownloaded, Some(id), Some(t.files[id].upload.Offset()));
  }

  lemma TicketsKeepOk(t: TunnelState, tickets: map<Digest, Instant>)
    requires TunnelOk(t) && (t.status.Complete? || t.status.Cancelled? ==> tickets == map[])
    ensures TunnelOk(t.(tickets := tickets))
  {
  }

  // --------------------------------------------------------------- whole steps

  /** A received body has the length of its range. */
  lemma BodyFits(p: PendingUpload)
    requires ReceiveBody(p.request, p.supplied, p.range.total) == Success(p)
    ensures |p.body| == Len(p.range) <= USIZE_MAX
  {
    CollectedIsExact(p.request.body, Len(p.range));
  }

  lemma BegunFits(t: TunnelState, now: Instant, q: UploadRequest)
    requires TunnelOk(t) && BeginUpload(t, now, q).Success?
    ensures PendingOk(t, BeginUpload(t, now, q).value)
    ensures BeginUpload(t, now, q).value.request == q
  {
    var file := t.files[q.fileId];
    var range := RangeFor(q.header, file.descriptor.sizeBytes).value;
    if q.header.Field? {
      ParsedIsCanonical(q.header.text, file.descriptor.sizeBytes);
    }
    assert range.total == file.descriptor.sizeBytes;
  }

  lemma ChangeKeepsTunnel(t: TunnelState, now: Instant, c: Change)
    requires TunnelOk(t) && Possible(t, c)
    ensures TunnelOk(Changed(t, now, c))
  {
    hide TunnelOk, Claimed, Closed, WithFile, Appended, Fetched;
    match c
    case Nothing =>
    case Claims(phone) => ClaimKeepsOk(t, phone);
    case Cancels => CancelKeepsOk(t);
    case Declares(id, d) => DeclareKeepsOk(t, now, id, d);
    case Appends(id, body) => AppendKeepsOk(t, id, body);
    case Fetches(id) => DownloadKeepsOk(t, id);
    case Mints(ticket) => TicketsKeepOk(t, t.tickets[ticket := now + EVENT_TICKET_SECONDS]);
    case Spends(ticket) => TicketsKeepOk(t, t.tickets - {ticket});
  }

  /** What was agreed about a file when it was declared. */
  predicate SameTerms(f: FileRecord, g: FileRecord) {
    && g.upload.total == f.upload.total
    && g.descriptor.fileId == f.descriptor.fileId
    && g.descriptor.sizeBytes == f.descriptor.sizeBytes
    && g.descriptor.createdAt == f.descriptor.createdAt
    && g.descriptor.name == f.descriptor.name
    && g.descriptor.mediaType == f.descriptor.mediaType
  }

  /** The files of `t` are still there in `u`, with the same declared properties. */
  predicate KeepsFiles(t: TunnelState, u: TunnelState) {
    t.files.Keys <= u.files.Keys && forall id | id in t.files :: SameTerms(t.files[id], u.files[id])
  }

  lemma RecordKeepsTerms(f: FileRecord, id: FileId, c: Change)
    ensures SameTerms(f, RecordAfter(f, id, c))
  {
  }

  lemma EndOrKeep(t: TunnelState, now: Instant, c: Change)
    requires Possible(t, c)
    ensures if c.Cancels? then Changed(t, now, c).status.Cancelled? else KeepsFiles(t, Changed(t, now, c))
  {
    hide Changed, SameTerms, RecordAfter, NewRecord, TicketsAfter, AllDownloaded, MarkDownloaded;
    PartsAfter(t, now, c);
    FilesAfter(t, now, c);
    forall id | id in t.files ensures SameTerms(t.files[id], RecordAfter(t.files[id], id, c)) {
      RecordKeepsTerms(t.files[id], id, c);
    }
  }

  /** Files stay, with the same declared properties, unless the tunnel is cancelled. */
  lemma ChangeKeepsFiles(t: TunnelState, now: Instant, c: Change)
    requires Possible(t, c)
    ensures var u := Changed(t, now, c);
            && (t.status.Cancelled? ==> u == t)
            && (u.status.Cancelled? || KeepsFiles(t, u))
  {
    hide KeepsFiles, Claimed, Closed, WithFile, Appended, Fetched;
    EndOrKeep(t, now, c);
  }

  /** Once there is a phone secret it stays: a claim needs the pairing secret it replaced. */
  lemma ChangeKeepsPhone(t: TunnelState, now: Instant, c: Change)
    requires SecretsOk(t) && t.phone.Some? && Possible(t, c)
    ensures Changed(t, now, c).phone == t.phone
  {
    hide Changed;
    PartsAfter(t, now, c);
  }

  lemma PendingStaysOk(t: TunnelState, now: Instant, c: Change, p: PendingUpload)
    requires TunnelOk(t) && Possible(t, c) && PendingOk(t, p)
    ensures PendingOk(Changed(t, now, c), p)
  {
    hide Changed, ReceiveBody;
    ChangeKeepsFiles(t, now, c);
    ChangeKeepsPhone(t, now, c);
  }

  lemma StepKeepsOk(w: World, q: Request)
    requires WorldOk(w) && (q.DeclareRequest? ==> q.fileId !in w.tunnel.files)
    ensures WorldOk(Step(w, q).0)
  {
    hide TunnelOk, PendingOk, Changed, ChangeOf, CommitUpload, BeginUpload;
    var v := Step(w, q).0;
    StepIsChange(w, q);
    ChangeKeepsTunnel(w.tunnel, w.now, ChangeOf(w, q));
    if q.UploadBegins? && BeginUpload(w.tunnel, w.now, q.upload).Success? {
      BegunFits(w.tunnel, w.now, q.upload);
    }
    forall k | k in v.uploads
      ensures PendingOk(v.tunnel, v.uploads[k])
    {
      if k in w.uploads && v.uploads[k] == w.uploads[k] {
        PendingStaysOk(w.tunnel, w.now, ChangeOf(w, q), w.uploads[k]);
      }
    }
  }

  /** Every reachable state of every run satisfies the invariants. */
  lemma {:induction false} EveryRunIsOk(r: Run)
    requires Legal(r)
    ensures WorldOk(After(r))
  {
    if r.Then? {
      EveryRunIsOk(r.before);
      StepKeepsOk(After(r.before), r.request);
    }
  }

  /** All that the last step of a legal run can have done. */
  lemma LastStep(r: Run)
    requires Legal(r) && r.Then?
    ensures Legal(r.before)
    ensures WorldOk(After(r.before)) && WorldOk(After(r))
    ensures Possible(After(r.before).tunnel, LastChange(r))
    ensures After(r).tunnel == Changed(After(r.before).tunnel, After(r.before).now, LastChange(r))
  {
    hide Changed, Step;
    EveryRunIsOk(r.before);
    EveryRunIsOk(r);
    StepIsChange(After(r.before), r.request);
  }

  // ------------------------------------------------------------- consequences

  /** Progress is valid, and complete means available, downloaded, or empty from the start. */
  lemma CountersAreExact(r: Run, id: FileId)
    requires Legal(r) && id in After(r).tunnel.files
    ensures var f := After(r).tunnel.files[id];
            && ProgressIsValid(f.descriptor.sizeBytes, f.descriptor.bytesTransferred)
            && f.descriptor.sizeBytes <= MAX_FILE_BYTES
            && (f.upload.IsComplete() <==>
                f.descriptor.status.Available? || f.descriptor.status.Downloaded? || f.descriptor.sizeBytes == 0)
  {
    EveryRunIsOk(r);
    assert RecordOk(id, After(r).tunnel.files[id], After(r).tunnel.maxFileBytes);
  }
}
