/**
 End-to-end integrity: what a desktop downloads is what phones uploaded, byte for byte, for
 every interleaving, retry and loss.
 */
module Integrity {
  import opened Wrappers
  import opened ContentRanges
  import opened Uploads
  import opened Declarations
  import opened TunnelModel
  import opened Changes
  import opened Invariants
  import opened Lifecycle

  function BodyOf(c: Change, id: FileId): seq<byte> {
    if c.Appends? && c.fileId == id then c.body else []
  }

  /** The fresh bodies committed to a file, in commit order. */
  function FreshBodies(r: Run, id: FileId): seq<byte> {
    match r
    case Created(_, _, _, _) => []
    case Then(before, _) => FreshBodies(before, id) + BodyOf(LastChange(r), id)
  }

  predicate PutAccepted(w: World, q: Request, id: FileId, range: ContentRange, body: seq<byte>) {
    && q.UploadCommits? && q.task in w.uploads
    && CommitUpload(w.tunnel, w.now, w.uploads[q.task]).1.Success?
    && var p := w.uploads[q.task]; p.request.fileId == id && p.range == range && p.body == body
  }

  /** Some PUT to the file was accepted with this range and body, fresh or replayed. */
  ghost predicate Accepted(r: Run, id: FileId, range: ContentRange, body: seq<byte>) {
    r.Then? && (Accepted(r.before, id, range, body) || PutAccepted(After(r.before), r.request, id, range, body))
  }

  predicate ContentReturned(w: World, q: Request, id: FileId, content: seq<byte>) {
    && q.DownloadRequest? && q.fileId == id
    && var a := Step(w, q).1; a.Success? && a.value.Content? && a.value.bytes == content
  }

  /** Some download of the file returned this content. */
  ghost predicate Delivered(r: Run, id: FileId, content: seq<byte>) {
    r.Then? && (Delivered(r.before, id, content) || ContentReturned(After(r.before), r.request, id, content))
  }

  // ------------------------------------------------------------------ single steps

  lemma PutStep(w: World, q: Request, id: FileId, range: ContentRange, body: seq<byte>)
    requires PutAccepted(w, q, id, range, body)
    ensures id in w.tunnel.files && range.total == w.tunnel.files[id].upload.total && |body| == Len(range)
    ensures ChangeOf(w, q) == Appends(id, body)
            || (ChangeOf(w, q) == Nothing && Holds(w.tunnel.files[id].upload.bytes, range, body))
    ensures ChangeOf(w, q) == Appends(id, body) ==>
              range.start == w.tunnel.files[id].upload.Offset() && range.endExclusive == range.start + |body|
  {
    hide CommitUpload, Holds;
    CommitIsChange(w.tunnel, w.now, w.uploads[q.task]);
  }

  lemma AppendStep(w: World, q: Request)
    returns (range: ContentRange)
    requires ChangeOf(w, q).Appends?
    ensures PutAccepted(w, q, ChangeOf(w, q).fileId, range, ChangeOf(w, q).body)
  {
    hide CommitUpload;
    range := w.uploads[q.task].range;
  }

  lemma FetchStep(w: World, q: Request, id: FileId, content: seq<byte>)
    requires ContentReturned(w, q, id, content)
    ensures id in w.tunnel.files && w.tunnel.files[id].upload.IsComplete()
    ensures content == w.tunnel.files[id].upload.bytes
    ensures ChangeOf(w, q) == Fetches(id)
  {
  }

  // ------------------------------------------------------------------- whole runs

  /** A live file holds exactly its fresh bodies. */
  lemma {:induction false} StoredIsFreshBodies(r: Run, id: FileId)
    requires Legal(r) && !After(r).tunnel.status.Cancelled?
    ensures FreshBodies(r, id) == if id in After(r).tunnel.files then After(r).tunnel.files[id].upload.bytes else []
  {
    hide Step, ChangeOf, Changed;
    if r.Then? {
      var w, c := After(r.before), LastChange(r);
      LastStep(r);
      PartsAfter(w.tunnel, w.now, c);
      FilesAfter(w.tunnel, w.now, c);
      StoredIsFreshBodies(r.before, id);
    }
  }

  /** While the tunnel lives the file stays; once cancelled nothing more is committed. */
  lemma FileStays(r: Run, id: FileId)
    requires Legal(r) && r.Then?
    requires After(r.before).tunnel.status.Cancelled? || id in After(r.before).tunnel.files
    ensures After(r).tunnel.status.Cancelled? || id in After(r).tunnel.files
    ensures FreshBodies(r.before, id) <= FreshBodies(r, id)
    ensures id in After(r).tunnel.files ==>
              id in After(r.before).tunnel.files
              && After(r).tunnel.files[id].upload.total == After(r.before).tunnel.files[id].upload.total
  {
    hide Step, ChangeOf, Changed;
    var w, c := After(r.before), LastChange(r);
    LastStep(r);
    ChangeKeepsFiles(w.tunnel, w.now, c);
  }

  /** Every accepted PUT reads back its own body at its own range, ever after. */
  lemma {:induction false} AcceptedReadsBack(r: Run, id: FileId, range: ContentRange, body: seq<byte>)
    requires Legal(r) && Accepted(r, id, range, body)
    ensures After(r).tunnel.status.Cancelled? || id in After(r).tunnel.files
    ensures Holds(FreshBodies(r, id), range, body)
    ensures |body| == Len(range)
    ensures id in After(r).tunnel.files ==> range.total == After(r).tunnel.files[id].upload.total
  {
    hide Step, ChangeOf, Changed, PutAccepted, Holds;
    var w, c := After(r.before), LastChange(r);
    if Accepted(r.before, id, range, body) {
      AcceptedReadsBack(r.before, id, range, body);
      FileStays(r, id);
      HoldsOn(FreshBodies(r.before, id), FreshBodies(r, id), range, body);
    } else {
      PutStep(w, r.request, id, range, body);
      LastStep(r);
      FileStays(r, id);
      StoredIsFreshBodies(r.before, id);
      if LastChange(r) == Nothing {
        assert FreshBodies(r.before, id) + [] == FreshBodies(r.before, id);
      } else {
        AppendedHolds(FreshBodies(r.before, id), range, body);
      }
    }
  }

  /** Stored bytes are recognised; the empty body of an empty file is taken for a fresh one. */
  lemma RepeatedChunk(u: UploadState, range: ContentRange, body: seq<byte>)
    requires range.total == u.total && |body| == Len(range) && u.Offset() <= u.total
    requires Holds(u.bytes, range, body)
    ensures AppendTo(u, range, body) == (u, Success(Outcome(u, range.total > 0)))
  {
    if range.total == 0 {
      hide AppendTo, Len, RawRange.Valid;
      EmptyFileIsFresh(u, range, body);
    }
  }

  /** The checks of the upload handler, for the phone and a file that is or was there. */
  lemma PhoneIsChecked(t: TunnelState, now: Instant, supplied: Digest, id: FileId)
    requires TunnelOk(t) && t.phone == Some(supplied) && (t.status.Cancelled? || id in t.files)
    ensures UploadCheck(t, now, supplied, id) ==
            if t.expiresAt <= now then Failure(ApiError.Expired)
            else if t.status.Cancelled? || t.status.Complete? then Failure(Conflict)
            else Success(t.files[id])
  {
  }

  /** The handler run in one piece, and its second half alone, when the body received is known. */
  lemma ReceivedUpload(t: TunnelState, now: Instant, q: UploadRequest, p: PendingUpload)
    requires q == p.request && q.bearer == Some(p.supplied)
    requires q.fileId in t.files ==>
               ReceiveBody(q, p.supplied, t.files[q.fileId].descriptor.sizeBytes) == Success(p)
    ensures WholeUpload(t, now, q) == CommitUpload(t, now, p)
    ensures match UploadCheck(t, now, p.supplied, q.fileId)
            case Failure(error) => CommitUpload(t, now, p) == (t, Failure(error))
            case Success(_) =>
              q.fileId in t.files && CommitUpload(t, now, p) == StoreChunk(t, q.fileId, p.range, p.body)
  {
    hide ReceiveBody, StoreChunk;
  }

  /** The body and the place of this upload are already stored in its file. */
  predicate IsStored(t: TunnelState, p: PendingUpload) {
    && p.request.fileId in t.files && |p.body| == Len(p.range)
    && var f := t.files[p.request.fileId];
    && f.descriptor.sizeBytes == f.upload.total == p.range.total
    && f.upload.Offset() <= f.upload.total && Holds(f.upload.bytes, p.range, p.body)
  }

  lemma RepeatedPut(t: TunnelState, p: PendingUpload)
    requires IsStored(t, p)
    ensures p.request.fileId in t.files && t.files[p.request.fileId].descriptor.sizeBytes == p.range.total
    ensures var (next, answer) := StoreChunk(t, p.request.fileId, p.range, p.body);
            && answer == Success(Uploaded(Outcome(t.files[p.request.fileId].upload, p.range.total > 0)))
            && (p.range.total > 0 ==> next == t)
  {
    hide AppendTo, WithChunk, Holds;
    RepeatedChunk(t.files[p.request.fileId].upload, p.range, p.body);
  }

  /** How the handler, or its second half alone, answers a repeated upload. */
  predicate IsAnswered(t: TunnelState, now: Instant, p: PendingUpload, next: TunnelState, answer: Answer) {
    && (p.range.total > 0 || answer.Failure? ==> next == t)
    && (if t.expiresAt <= now then answer == Failure(ApiError.Expired)
        else if t.status.Cancelled? || t.status.Complete? then answer == Failure(Conflict)
        else
          p.request.fileId in t.files
          && answer == Success(Uploaded(Outcome(t.files[p.request.fileId].upload, p.range.total > 0))))
  }

  lemma CancelledIsAnswered(t: TunnelState, now: Instant, p: PendingUpload)
    requires TunnelOk(t) && t.phone == Some(p.supplied) && p.request.bearer == Some(p.supplied)
    requires ReceiveBody(p.request, p.supplied, p.range.total) == Success(p)
    requires t.status.Cancelled?
    ensures var (next, answer) := WholeUpload(t, now, p.request);
            IsAnswered(t, now, p, next, answer) && CommitUpload(t, now, p) == (next, answer)
  {
    hide ReceiveBody, StoreChunk, UploadCheck, CommitUpload, WholeUpload, TunnelOk;
    PhoneIsChecked(t, now, p.supplied, p.request.fileId);
    CancelledIsEmpty(t);
    ReceivedUpload(t, now, p.request, p);
  }

  lemma StoredIsAnswered(t: TunnelState, now: Instant, p: PendingUpload)
    requires TunnelOk(t) && t.phone == Some(p.supplied) && p.request.bearer == Some(p.supplied)
    requires ReceiveBody(p.request, p.supplied, p.range.total) == Success(p)
    requires !t.status.Cancelled? && IsStored(t, p)
    ensures var (next, answer) := WholeUpload(t, now, p.request);
            IsAnswered(t, now, p, next, answer) && CommitUpload(t, now, p) == (next, answer)
  {
    hide IsStored, ReceiveBody, StoreChunk, UploadCheck, CommitUpload, WholeUpload, TunnelOk;
    RepeatedPut(t, p);
    PhoneIsChecked(t, now, p.supplied, p.request.fileId);
    ReceivedUpload(t, now, p.request, p);
  }

  lemma CancelledIsEmpty(t: TunnelState)
    requires TunnelOk(t) && t.status.Cancelled?
    ensures t.files == map[]
  {
  }

  /** What an accepted PUT tells about the file it went to, as it is now. */
  lemma AcceptedIsStored(r: Run, p: PendingUpload)
    requires Legal(r) && Accepted(r, p.request.fileId, p.range, p.body)
    ensures TunnelOk(After(r).tunnel)
    ensures After(r).tunnel.status.Cancelled? || IsStored(After(r).tunnel, p)
  {
    hide Step, Accepted, Holds;
    var id := p.request.fileId;
    EveryRunIsOk(r);
    AcceptedReadsBack(r, id, p.range, p.body);
    if !After(r).tunnel.status.Cancelled? {
      StoredIsFreshBodies(r, id);
      assert RecordOk(id, After(r).tunnel.files[id], After(r).tunnel.maxFileBytes);
    }
  }

  /**
   Repeating an accepted PUT succeeds if and only if the tunnel is not over, and then tells the
   current offset. For a nonempty file it is recognised and changes nothing; for an empty one it
   counts as fresh. The same holds for a repetition that is only committed now.
   */
  lemma RetriesAreAbsorbed(r: Run, p: PendingUpload)
    requires Legal(r) && Accepted(r, p.request.fileId, p.range, p.body)
    requires After(r).tunnel.phone == Some(p.supplied) && p.request.bearer == Some(p.supplied)
    requires ReceiveBody(p.request, p.supplied, p.range.total) == Success(p)
    ensures var t, now := After(r).tunnel, After(r).now;
            var (next, answer) := WholeUpload(t, now, p.request);
            && (answer.Success? <==> !IsOver(After(r)))
            && IsAnswered(t, now, p, next, answer)
            && CommitUpload(t, now, p) == (next, answer)
  {
    hide After, Accepted, ReceiveBody, CommitUpload, WholeUpload, TunnelOk, IsStored;
    AcceptedIsStored(r, p);
    if After(r).tunnel.status.Cancelled? {
      CancelledIsAnswered(After(r).tunnel, After(r).now, p);
    } else {
      StoredIsAnswered(After(r).tunnel, After(r).now, p);
    }
  }

  /** A complete file has no room left: nothing more is ever appended to it. */
  lemma CompleteStaysComplete(r: Run, id: FileId)
    requires Legal(r) && r.Then?
    requires var t := After(r.before).tunnel;
             t.status.Cancelled? || (id in t.files && t.files[id].upload.IsComplete())
    ensures var t := After(r).tunnel;
            t.status.Cancelled? || (id in t.files && t.files[id].upload.IsComplete())
    ensures FreshBodies(r, id) == FreshBodies(r.before, id)
  {
    hide Step, ChangeOf, Changed;
    var w, c := After(r.before), LastChange(r);
    LastStep(r);
    PartsAfter(w.tunnel, w.now, c);
    FilesAfter(w.tunnel, w.now, c);
    ChangeKeepsFiles(w.tunnel, w.now, c);
  }

  /** Every download returns all fresh bodies of its file, then and for the rest of the run. */
  lemma {:induction false} DeliveredIsFreshBodies(r: Run, id: FileId, content: seq<byte>)
    requires Legal(r) && Delivered(r, id, content)
    ensures content == FreshBodies(r, id)
    ensures var t := After(r).tunnel;
            t.status.Cancelled? || (id in t.files && t.files[id].upload.IsComplete())
  {
    hide Step, ChangeOf, Changed, ContentReturned;
    if Delivered(r.before, id, content) {
      DeliveredIsFreshBodies(r.before, id, content);
    } else {
      FetchStep(After(r.before), r.request, id, content);
      LastStep(r);
      StoredIsFreshBodies(r.before, id);
    }
    CompleteStaysComplete(r, id);
  }

  /** Every download returns as many bytes as its file was declared with. */
  lemma {:induction false} DeliveredHasDeclaredSize(r: Run, id: FileId, content: seq<byte>, d: FileDeclaration)
    requires Legal(r) && Delivered(r, id, content) && DeclaredAs(r, id, d)
    ensures |content| == d.sizeBytes
  {
    hide Step, ChangeOf, Changed, ContentReturned;
    LastStep(r);
    if Delivered(r.before, id, content) {
      DeliveredIsFreshBodies(r.before, id, content);
      assert DeclaredAs(r.before, id, d);
      DeliveredHasDeclaredSize(r.before, id, content, d);
    } else {
      FetchStep(After(r.before), r.request, id, content);
      assert DeclaredAs(r.before, id, d);
      DeclarationsWereAdmissible(r.before, id, d);
      var t := After(r.before).tunnel;
      assert RecordOk(id, t.files[id], t.maxFileBytes);
    }
  }

  /**
   The promise of the service: a download is exactly the fresh bodies in commit order, of the
   declared size, the same every time, and contains every accepted PUT at its own place.
   */
  lemma DeliveryIsExact(r: Run, id: FileId, content: seq<byte>)
    requires Legal(r) && Delivered(r, id, content)
    ensures content == FreshBodies(r, id)
    ensures forall d | DeclaredAs(r, id, d) :: |content| == d.sizeBytes
    ensures forall other | Delivered(r, id, other) :: other == content
    ensures forall range: ContentRange, body | Accepted(r, id, range, body) ::
              Holds(content, range, body)
  {
    hide Step, Accepted, Delivered, DeclaredAs, Holds;
    DeliveredIsFreshBodies(r, id, content);
    forall d | DeclaredAs(r, id, d) ensures |content| == d.sizeBytes {
      DeliveredHasDeclaredSize(r, id, content, d);
    }
    forall other | Delivered(r, id, other) ensures other == content {
      DeliveredIsFreshBodies(r, id, other);
    }
    forall range: ContentRange, body | Accepted(r, id, range, body)
      ensures Holds(content, range, body)
    {
      AcceptedReadsBack(r, id, range, body);
    }
  }

  /**
   A download is labelled with the media type the file was declared with if a header field can
   carry it, and with the fallback otherwise.
   */
  lemma DeliveryHasDeclaredType(r: Run, d: FileDeclaration)
    requires Legal(r) && r.Then? && r.request.DownloadRequest? && AnswerTo(r).Success?
    requires DeclaredAs(r.before, r.request.fileId, d)
    ensures AnswerTo(r).value.Content?
    ensures var isVisible := forall i | 0 <= i < |d.mediaType| ::
                               0x20 <= d.mediaType[i] as int < 0x7F || d.mediaType[i] == '\t';
            AnswerTo(r).value.contentType == if isVisible then d.mediaType else "application/octet-stream"
  {
    HeaderTextIsVisible(d.mediaType);
    hide WorldOk, IsHeaderText;
    DeclarationsWereAdmissible(r.before, r.request.fileId, d);
  }

  lemma HeaderTextIsVisible(s: string)
    ensures IsHeaderText(s) <==> forall i | 0 <= i < |s| :: 0x20 <= s[i] as int < 0x7F || s[i] == '\t'
  {
  }

  /** Everything ever accepted for the file was cut from one source. */
  ghost predicate CarriesSlicesOf(r: Run, id: FileId, source: seq<byte>) {
    forall range: ContentRange, body | Accepted(r, id, range, body) ::
      Holds(source, range, body)
  }

  lemma {:induction false} FreshBodiesArePrefix(r: Run, id: FileId, source: seq<byte>)
    requires Legal(r) && CarriesSlicesOf(r, id, source)
    ensures FreshBodies(r, id) <= source
  {
    hide Step, ChangeOf, Changed, PutAccepted;
    if r.Then? {
      var w, c := After(r.before), LastChange(r);
      assert CarriesSlicesOf(r.before, id, source) by {
        forall range: ContentRange, body | Accepted(r.before, id, range, body) ensures Accepted(r, id, range, body) {
        }
      }
      FreshBodiesArePrefix(r.before, id, source);
      if c.Appends? && c.fileId == id {
        var range := AppendStep(w, r.request);
        PutStep(w, r.request, id, range, c.body);
        LastStep(r);
        StoredIsFreshBodies(r.before, id);
        assert Accepted(r, id, range, c.body);
        assert FreshBodies(r.before, id) == source[..range.start];
      }
    }
  }

  /**
   A phone that cuts one source into pieces, in whatever sizes, order and repetition, delivers
   that source: whoever downloads the file gets it, whole and unchanged.
   */
  lemma SourceIsDelivered(r: Run, id: FileId, d: FileDeclaration, source: seq<byte>, content: seq<byte>)
    requires Legal(r) && DeclaredAs(r, id, d) && d.sizeBytes == |source|
    requires CarriesSlicesOf(r, id, source) && Delivered(r, id, content)
    ensures content == source
  {
    hide Step, Accepted, Delivered, DeclaredAs;
    DeliveryIsExact(r, id, content);
    FreshBodiesArePrefix(r, id, source);
  }
}
