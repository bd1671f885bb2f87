/**
 What every request of a legal run is answered, told by phases, the clock, who asks, and what
 happened before: when it succeeds, what a success carries, and which error a refusal carries.
 */
module Answers {
  import opened Wrappers
  import opened Text
  import opened Capabilities
  import opened ContentRanges
  import opened Uploads
  import opened Bodies
  import opened Declarations
  import opened TunnelModel
  import opened Changes
  import opened Invariants
  import opened Lifecycle
  import opened Integrity
  import opened Reachability
  import Atomicity

  /** The end of the lifetime agreed at creation. */
  function LifetimeEnd(r: Run): Instant {
    CreationOf(r).at + CreationOf(r).creation.expiresInSeconds
  }

  /** The bearer holds the desktop secret, the phone secret, or one of them. */
  predicate IsDesktop(t: TunnelState, bearer: Option<Digest>) {
    bearer == Some(t.desktop)
  }

  predicate IsPhone(t: TunnelState, bearer: Option<Digest>) {
    bearer.Some? && bearer == t.phone
  }

  // ------------------------------------------------------------------------- creation

  /** A tunnel is created exactly within the limits of the service. */
  lemma CreationIsExact(q: CreateRequest)
    ensures ValidateCreate(q).Success? <==>
      && 1 <= Utf8Length(q.applicationId) <= 128
      && 1 <= q.maxFiles <= 100
      && 1 <= q.maxFileBytes <= 5368709120
      && 60 <= q.expiresInSeconds <= 3600
      && 1 <= |q.accept| <= 32
    ensures ValidateCreate(q).Failure? ==>
              ValidateCreate(q).error ==
              Invalid(if !(1 <= Utf8Length(q.applicationId) <= 128) then BadApplicationId
                      else if !(1 <= q.maxFiles <= 100) then BadMaxFiles
                      else if !(1 <= q.maxFileBytes <= 5368709120) then BadMaxFileBytes
                      else if !(60 <= q.expiresInSeconds <= 3600) then BadExpiry
                      else BadAccept)
  {
  }

  // ----------------------------------------------------------------------------- claim

  /** As long as there is a pairing secret, it is that of the creation. */
  lemma {:induction false} PairingIsKept(r: Run)
    requires Legal(r)
    ensures After(r).tunnel.pairing.Some? ==> After(r).tunnel.pairing == Some(CreationOf(r).pairing)
  {
    hide Step, ChangeOf, Changed;
    if r.Then? {
      PairingIsKept(r.before);
      LastStep(r);
      PartsAfter(After(r.before).tunnel, After(r.before).now, LastChange(r));
    }
  }

  lemma ClaimingIsExact(t: TunnelState, now: Instant, secret: Digest, phone: Digest)
    requires TunnelOk(t)
    ensures var (next, answer) := Claiming(t, now, secret, phone);
            && answer == (if t.expiresAt <= now then Failure(ApiError.Expired)
                          else if !t.status.Waiting? then Failure(Conflict)
                          else if t.pairing != Some(secret) then Failure(Unauthorized)
                          else Success(ClaimGranted(t.expiresAt)))
            && (answer.Success? ==> next.status.Connected? && next.phone == Some(phone) && next.pairing.None?)
            && (t.status.Waiting? <==> t.phone.None? && !t.status.Cancelled?)
  {
    hide FilesOk, LimitsOk, EventsOk;
  }

  /**
   A claim succeeds exactly with the secret of the creation, once, before the tunnel is over; it
   tells the end of the lifetime and makes the phone known.
   */
  lemma ClaimIsAnswered(r: Run)
    requires Legal(r) && r.Then? && r.request.ClaimRequest?
    ensures var w, q := After(r.before), r.request;
            && AnswerTo(r) == (if w.tunnel.expiresAt <= w.now then Failure(ApiError.Expired)
                               else if !w.tunnel.status.Waiting? then Failure(Conflict)
                               else if q.secret != CreationOf(r).pairing then Failure(Unauthorized)
                               else Success(ClaimGranted(LifetimeEnd(r))))
            && (AnswerTo(r).Success? <==>
                !IsOver(w) && ClaimsGranted(r.before) == 0 && q.secret == CreationOf(r).pairing)
            && (AnswerTo(r).Success? ==>
                After(r).tunnel.status.Connected? && After(r).tunnel.phone == Some(q.phone))
  {
    hide TunnelOk, Claiming;
    EveryRunIsOk(r.before);
    ClaimingIsExact(After(r.before).tunnel, After(r.before).now, r.request.secret, r.request.phone);
    PairingIsKept(r.before);
    ClaimedAtMostOnce(r.before);
    TermsNeverChange(r.before);
  }

  // ----------------------------------------------------------------------------- cancel

  lemma CancellingIsExact(t: TunnelState, now: Instant, bearer: Option<Digest>)
    requires TunnelOk(t)
    ensures var (next, answer) := Cancelling(t, now, bearer);
            && answer == (if bearer.None? then Failure(Unauthorized)
                          else if t.expiresAt <= now then Failure(ApiError.Expired)
                          else if t.status.Cancelled? then Failure(Conflict)
                          else if !IsDesktop(t, bearer) then Failure(Unauthorized)
                          else if t.status.Complete? then Failure(Conflict)
                          else Success(TunnelClosed))
            && (answer.Success? ==> next.status.Cancelled? && next.files == map[] && next.tickets == map[])
  {
    hide FilesOk, LimitsOk, EventsOk;
  }

  /** The desktop can cancel at any time before the tunnel is over, claimed or not; nobody else can. */
  lemma CancelIsAnswered(r: Run)
    requires Legal(r) && r.Then? && r.request.CancelRequest?
    ensures var w, bearer := After(r.before), r.request.bearer;
            && AnswerTo(r) == (if bearer.None? then Failure(Unauthorized)
                               else if w.tunnel.expiresAt <= w.now then Failure(ApiError.Expired)
                               else if w.tunnel.status.Cancelled? then Failure(Conflict)
                               else if bearer != Some(CreationOf(r).desktop) then Failure(Unauthorized)
                               else if w.tunnel.status.Complete? then Failure(Conflict)
                               else Success(TunnelClosed))
            && (AnswerTo(r) == Success(TunnelClosed) <==> bearer == Some(CreationOf(r).desktop) && !IsOver(w))
            && (AnswerTo(r).Success? ==>
                  var t := After(r).tunnel; t.status.Cancelled? && t.files == map[] && t.tickets == map[])
  {
    hide TunnelOk, Cancelling;
    EveryRunIsOk(r.before);
    TermsNeverChange(r.before);
    CancellingIsExact(After(r.before).tunnel, After(r.before).now, r.request.bearer);
  }

  // ------------------------------------------------------------------------ declaration

  /** The file was accepted with this declaration at this moment of the run. */
  ghost predicate DeclaredAt(r: Run, id: FileId, d: FileDeclaration, at: Instant) {
    r.Then? && (DeclaredAt(r.before, id, d, at)
                || (LastChange(r) == Declares(id, d) && After(r.before).now == at))
  }

  /** What a declaration leaves in the descriptor of its file for good. */
  predicate Describes(f: FileDescriptor, id: FileId, d: FileDeclaration, at: Instant) {
    && f.fileId == id && f.name == d.name && f.mediaType == d.mediaType
    && f.sizeBytes == d.sizeBytes && f.createdAt == at
  }

  lemma {:induction false} DeclarationIsKept(r: Run, id: FileId, d: FileDeclaration, at: Instant)
    requires Legal(r) && DeclaredAt(r, id, d, at)
    ensures After(r).tunnel.status.Cancelled?
            || (id in After(r).tunnel.files && Describes(After(r).tunnel.files[id].descriptor, id, d, at))
  {
    hide Step, ChangeOf, Changed, WorldOk;
    var w, c := After(r.before), LastChange(r);
    LastStep(r);
    PartsAfter(w.tunnel, w.now, c);
    ChangeKeepsFiles(w.tunnel, w.now, c);
    if DeclaredAt(r.before, id, d, at) {
      DeclarationIsKept(r.before, id, d, at);
    } else {
      FilesAfter(w.tunnel, w.now, c);
    }
  }

  /** Every live file goes back to a declaration. */
  lemma {:induction false} FilesWereDeclaredAt(r: Run, id: FileId) returns (d: FileDeclaration, at: Instant)
    requires Legal(r) && id in After(r).tunnel.files
    ensures DeclaredAt(r, id, d, at)
  {
    hide Step, ChangeOf, Changed, WorldOk;
    LastStep(r);
    FilesAfter(After(r.before).tunnel, After(r.before).now, LastChange(r));
    if id in After(r.before).tunnel.files {
      d, at := FilesWereDeclaredAt(r.before, id);
    } else {
      d, at := LastChange(r).declaration, After(r.before).now;
    }
  }

  /** How each part of the policy is refused. */
  function RefusedFor(rejection: DeclarationRejection): ApiError {
    match rejection
    case InvalidName => Invalid(BadName)
    case FileLimitReached => TooLarge
    case FileTooLarge => TooLarge
    case UnsupportedMedia => UnsupportedMediaType
    case InvalidSha256 => Invalid(BadSha256)
  }

  lemma DeclaringIsExact(t: TunnelState, now: Instant, bearer: Option<Digest>, id: FileId, d: FileDeclaration)
    requires TunnelOk(t)
    ensures var (next, answer) := Declaring(t, now, bearer, id, d);
            var policy := DeclarationPolicy(|t.files|, t.maxFiles, t.maxFileBytes, t.accept);
            && answer == (if bearer.None? then Failure(Unauthorized)
                          else if t.expiresAt <= now then Failure(ApiError.Expired)
                          else if t.status.Cancelled? then Failure(Conflict)
                          else if !IsPhone(t, bearer) then Failure(Unauthorized)
                          else if t.status.Complete? then Failure(Conflict)
                          else match FirstFailure(policy, d)
                            case Some(rejection) => Failure(RefusedFor(rejection))
                            case None => Success(FileAccepted(NewDescriptor(id, d, now))))
            && (answer.Success? ==>
                  next.files == t.files[id := FileRecord(answer.value.descriptor, UploadState(d.sizeBytes, []))])
  {
    hide FilesOk, LimitsOk, EventsOk, ValidateDeclaration, FirstFailure, Admissible;
    ValidationIsExact(DeclarationPolicy(|t.files|, t.maxFiles, t.maxFileBytes, t.accept), d);
  }

  /**
   The phone can declare a file while the tunnel is not over, there is room, and the declaration is
   admissible. It is told the very descriptor under which the file is stored.
   */
  lemma DeclarationIsAnswered(r: Run)
    requires Legal(r) && r.Then? && r.request.DeclareRequest?
    ensures var w, q, d := After(r.before), r.request, r.request.declaration;
            var t := w.tunnel;
            var policy := DeclarationPolicy(|t.files|, t.maxFiles, t.maxFileBytes, t.accept);
            && (AnswerTo(r).Success? <==>
                IsPhone(t, q.bearer) && !IsOver(w) && |t.files| < t.maxFiles && Admissible(t.maxFileBytes, t.accept, d))
            && (AnswerTo(r).Success? ==>
                  && q.fileId in After(r).tunnel.files
                  && AnswerTo(r).value == FileAccepted(After(r).tunnel.files[q.fileId].descriptor)
                  && var f := AnswerTo(r).value.descriptor;
                  Describes(f, q.fileId, d, w.now) && f.bytesTransferred == 0 && f.status.Declared?)
            && AnswerTo(r) == (if q.bearer.None? then Failure(Unauthorized)
                               else if t.expiresAt <= w.now then Failure(ApiError.Expired)
                               else if t.status.Cancelled? then Failure(Conflict)
                               else if !IsPhone(t, q.bearer) then Failure(Unauthorized)
                               else if t.status.Complete? then Failure(Conflict)
                               else match FirstFailure(policy, d)
                                 case Some(rejection) => Failure(RefusedFor(rejection))
                                 case None => Success(FileAccepted(NewDescriptor(q.fileId, d, w.now))))
  {
    hide TunnelOk, Declaring, FirstFailure, ValidateDeclaration, Admissible;
    EveryRunIsOk(r.before);
    var t, d := After(r.before).tunnel, r.request.declaration;
    DeclaringIsExact(t, After(r.before).now, r.request.bearer, r.request.fileId, d);
    ValidationIsExact(DeclarationPolicy(|t.files|, t.maxFiles, t.maxFileBytes, t.accept), d);
  }

  // --------------------------------------------------------------------------- snapshot

  lemma ReadingIsExact(t: TunnelState, now: Instant, bearer: Option<Digest>)
    requires TunnelOk(t)
    ensures Reading(t, now, bearer).1 ==
            (if bearer.None? then Failure(Unauthorized)
             else if t.expiresAt <= now then Failure(ApiError.Expired)
             else if t.status.Cancelled? then Failure(Conflict)
             else if !IsDesktop(t, bearer) && !IsPhone(t, bearer) then Failure(Unauthorized)
             else Success(Snapshot(t.status, t.expiresAt, map id | id in t.files :: t.files[id].descriptor)))
  {
    hide FilesOk, LimitsOk, EventsOk;
  }

  /** What was declared of a file, and how much of it is stored. */
  lemma DescriptorIsHistory(r: Run, id: FileId, d: FileDeclaration, at: Instant)
    requires Legal(r) && !After(r).tunnel.status.Cancelled? && DeclaredAt(r, id, d, at)
    ensures id in After(r).tunnel.files
    ensures var f := After(r).tunnel.files[id].descriptor;
            Describes(f, id, d, at) && f.bytesTransferred == |Integrity.FreshBodies(r, id)|
  {
    hide Step, DeclaredAt, Integrity.FreshBodies;
    DeclarationIsKept(r, id, d, at);
    StoredIsFreshBodies(r, id);
    EveryRunIsOk(r);
    assert RecordOk(id, After(r).tunnel.files[id], After(r).tunnel.maxFileBytes);
  }

  /**
   The desktop and the phone can read the tunnel until it is cancelled or expired, also after its
   completion. They see its phase, the end of its lifetime, and exactly the declared files, each as
   it was declared, with the bytes stored so far and the status that its history gives it.
   */
  lemma SnapshotIsAnswered(r: Run)
    requires Legal(r) && r.Then? && r.request.SnapshotRequest?
    ensures var w, bearer := After(r.before), r.request.bearer;
            var t := w.tunnel;
            && (AnswerTo(r).Success? <==>
                (IsDesktop(t, bearer) || IsPhone(t, bearer)) && w.now < t.expiresAt && !t.status.Cancelled?)
            && (AnswerTo(r).Failure? ==>
                  AnswerTo(r).error == if bearer.None? then Unauthorized
                                       else if t.expiresAt <= w.now then ApiError.Expired
                                       else if t.status.Cancelled? then Conflict
                                       else Unauthorized)
            && (AnswerTo(r).Success? ==>
                  && AnswerTo(r).value.Snapshot?
                  && var s := AnswerTo(r).value;
                  && s.status == t.status && s.expiresAt == LifetimeEnd(r)
                  && (forall id, d, at | DeclaredAt(r.before, id, d, at) ::
                        && id in s.files && Describes(s.files[id], id, d, at)
                        && s.files[id].bytesTransferred == |Integrity.FreshBodies(r.before, id)|)
                  && (forall id | id in s.files ::
                        && id in t.files && s.files[id].status == t.files[id].descriptor.status
                        && (s.files[id].sizeBytes > 0 ==>
                              s.files[id].status == StatusOf(r.before, id, s.files[id].sizeBytes))
                        && exists d, at :: DeclaredAt(r.before, id, d, at)))
  {
    hide TunnelOk, Reading, DeclaredAt, StatusOf, Integrity.FreshBodies;
    var w := After(r.before);
    EveryRunIsOk(r.before);
    TermsNeverChange(r.before);
    ReadingIsExact(w.tunnel, w.now, r.request.bearer);
    if AnswerTo(r).Success? {
      forall id, d, at | DeclaredAt(r.before, id, d, at)
        ensures id in w.tunnel.files && Describes(w.tunnel.files[id].descriptor, id, d, at)
        ensures w.tunnel.files[id].descriptor.bytesTransferred == |Integrity.FreshBodies(r.before, id)|
      {
        DescriptorIsHistory(r.before, id, d, at);
      }
      forall id | id in w.tunnel.files
        ensures exists d, at :: DeclaredAt(r.before, id, d, at)
        ensures var f := w.tunnel.files[id].descriptor;
                f.sizeBytes > 0 ==> f.status == StatusOf(r.before, id, f.sizeBytes)
      {
        var d, at := FilesWereDeclaredAt(r.before, id);
        if w.tunnel.files[id].descriptor.sizeBytes > 0 {
          StatusIsHistory(r.before, id);
        }
      }
    }
  }

  // --------------------------------------------------------------------- first half of uploads

  /** The range a request names: the whole file without a header, else the one it spells out. */
  ghost predicate Names(header: RangeHeader, size: u64, range: ContentRange) {
    match header
    case NoHeader => range.start == 0 && range.endExclusive == size && range.total == size
    case NotAscii => false
    case Field(text) => range.start < range.endExclusive && range.total == size && Padded(text, Print(range))
  }

  lemma HeaderNames(header: RangeHeader, size: u64, range: ContentRange)
    ensures RangeFor(header, size) == Success(range) <==> Names(header, size, range)
  {
    if header.Field? {
      hide Parse, Print, Padded;
      if RangeFor(header, size) == Success(range) {
        ParsedIsCanonical(header.text, size);
      }
      if range.start < range.endExclusive {
        ParseIsExact(header.text, size, range);
      }
    }
  }

  /** How a body is taken in once its range is known. */
  function BodyAnswer(q: UploadRequest, supplied: Digest, range: ContentRange): Result<PendingUpload, ApiError> {
    var body, length := Flatten(q.body), range.endExclusive - range.start;
    if |body| > length then Failure(InvalidRange(BodyTooLong(length)))
    else if !AllChunks(q.body) then Failure(Invalid(BadBody))
    else if |body| < length then Failure(InvalidRange(BodyWrongLength(|body|, length)))
    else Success(PendingUpload(q, supplied, range, body))
  }

  lemma ReceivingIsExact(q: UploadRequest, supplied: Digest, size: u64)
    requires size < U64_MAX
    ensures forall range: ContentRange | Names(q.header, size, range) ::
              ReceiveBody(q, supplied, size) == BodyAnswer(q, supplied, range)
    ensures (forall range: ContentRange :: !Names(q.header, size, range)) ==>
              match q.header
              case NoHeader => false
              case NotAscii => ReceiveBody(q, supplied, size) == Failure(InvalidRange(HeaderNotAscii))
              case Field(text) =>
                && Parse(text, size).Failure?
                && ReceiveBody(q, supplied, size) == Failure(InvalidRange(BadHeader(Parse(text, size).error)))
  {
    hide Parse, Print, Padded, Collected, Flatten, AllChunks, Names;
    forall range: ContentRange | Names(q.header, size, range)
      ensures ReceiveBody(q, supplied, size) == BodyAnswer(q, supplied, range)
    {
      HeaderNames(q.header, size, range);
      NamedFits(q.header, size, range);
      RefusedBodies(q.body, Len(range));
    }
    if q.header.NoHeader? {
      WholeIsNamed(q.header, size);
    }
    if RangeFor(q.header, size).Success? {
      HeaderNames(q.header, size, RangeFor(q.header, size).value);
    }
  }

  lemma WholeIsNamed(header: RangeHeader, size: u64)
    requires header.NoHeader?
    ensures Names(header, size, WholeOf(size))
  {
  }

  function WholeOf(size: u64): (range: ContentRange)
    ensures range == RawRange(0, size, size)
  {
    RawRange(0, size, size)
  }

  lemma NamedFits(header: RangeHeader, size: u64, range: ContentRange)
    requires Names(header, size, range)
    ensures Len(range) <= size
  {
  }

  /** The checks that come before an upload, a probe, or a commit. */
  function Barrier(w: World, bearer: Option<Digest>, id: FileId): Option<ApiError> {
    var t := w.tunnel;
    if bearer.None? then Some(Unauthorized)
    else if t.expiresAt <= w.now then Some(ApiError.Expired)
    else if t.status.Cancelled? then Some(Conflict)
    else if !IsPhone(t, bearer) then Some(Unauthorized)
    else if t.status.Complete? then Some(Conflict)
    else if id !in t.files then Some(NotFound)
    else None
  }

  lemma CheckIsBarrier(w: World, supplied: Digest, id: FileId)
    requires TunnelOk(w.tunnel)
    ensures UploadCheck(w.tunnel, w.now, supplied, id) ==
            match Barrier(w, Some(supplied), id)
            case Some(error) => Failure(error)
            case None => Success(w.tunnel.files[id])
  {
    hide FilesOk, LimitsOk, EventsOk;
  }

  lemma NoBarrier(w: World, bearer: Option<Digest>, id: FileId)
    ensures Barrier(w, bearer, id).None? <==> IsPhone(w.tunnel, bearer) && !IsOver(w) && id in w.tunnel.files
  {
  }

  lemma BeginningIsExact(w: World, q: UploadRequest)
    requires TunnelOk(w.tunnel)
    ensures match Barrier(w, q.bearer, q.fileId)
            case Some(error) => BeginUpload(w.tunnel, w.now, q) == Failure(error)
            case None =>
              BeginUpload(w.tunnel, w.now, q) ==
              ReceiveBody(q, q.bearer.value, w.tunnel.files[q.fileId].descriptor.sizeBytes)
  {
    hide TunnelOk, ReceiveBody, UploadCheck;
    if q.bearer.Some? {
      CheckIsBarrier(w, q.bearer.value, q.fileId);
    }
  }

  lemma SizeIsSmall(t: TunnelState, id: FileId)
    requires TunnelOk(t) && id in t.files
    ensures t.files[id].descriptor.sizeBytes < U64_MAX
  {
    assert RecordOk(id, t.files[id], t.maxFileBytes);
  }

  /**
   The first half of an upload succeeds exactly for the phone, before the tunnel is over, for a
   known file, a named range, and an unbroken body of its length; it then waits with that
   range and that body.
   */
  lemma UploadIsBegun(r: Run)
    requires Legal(r) && r.Then? && r.request.UploadBegins?
    ensures var w, q := After(r.before), r.request.upload;
            match Barrier(w, q.bearer, q.fileId)
            case Some(error) => AnswerTo(r) == Failure(error)
            case None =>
              var size := w.tunnel.files[q.fileId].descriptor.sizeBytes;
              && (forall range: ContentRange | Names(q.header, size, range) ::
                    match BodyAnswer(q, q.bearer.value, range)
                    case Failure(error) => AnswerTo(r) == Failure(error)
                    case Success(p) =>
                      AnswerTo(r) == Success(BodyReceived) && After(r).uploads == w.uploads[r.request.task := p])
              && ((forall range: ContentRange :: !Names(q.header, size, range)) ==>
                    match q.header
                    case NoHeader => false
                    case NotAscii => AnswerTo(r) == Failure(InvalidRange(HeaderNotAscii))
                    case Field(text) =>
                      && Parse(text, size).Failure?
                      && AnswerTo(r) == Failure(InvalidRange(BadHeader(Parse(text, size).error))))
    ensures var w, q := After(r.before), r.request.upload;
            AnswerTo(r).Success? <==>
              && IsPhone(w.tunnel, q.bearer) && !IsOver(w) && q.fileId in w.tunnel.files && AllChunks(q.body)
              && exists range: ContentRange ::
                   && Names(q.header, w.tunnel.files[q.fileId].descriptor.sizeBytes, range)
                   && |Flatten(q.body)| == range.endExclusive - range.start
  {
    hide TunnelOk, BeginUpload, ReceiveBody, BodyAnswer, Names, Barrier, Parse, AllChunks, Flatten;
    EveryRunIsOk(r.before);
    var w, q := After(r.before), r.request.upload;
    BeginningIsExact(w, q);
    NoBarrier(w, q.bearer, q.fileId);
    if Barrier(w, q.bearer, q.fileId).None? {
      SizeIsSmall(w.tunnel, q.fileId);
      var size := w.tunnel.files[q.fileId].descriptor.sizeBytes;
      ReceivingIsExact(q, q.bearer.value, size);
      BodiesAreTaken(q, q.bearer.value);
      if range: ContentRange :| Names(q.header, size, range) {
        forall other: ContentRange | Names(q.header, size, other) ensures other == range {
          HeaderNames(q.header, size, range);
          HeaderNames(q.header, size, other);
        }
      }
    }
  }

  lemma BodiesAreTaken(q: UploadRequest, supplied: Digest)
    ensures forall range: ContentRange ::
              BodyAnswer(q, supplied, range).Success? <==>
              AllChunks(q.body) && |Flatten(q.body)| == range.endExclusive - range.start
  {
    hide AllChunks, Flatten;
  }

  /**
   A PUT without a range header is the whole file: for the phone, before the tunnel is over, and a
   known file it is received if and only if its body is unbroken and as long as the file was
   declared, whatever that size is; and if nothing was stored before, the handler stores it all.
   */
  lemma WholeFileIsStored(w: World, q: UploadRequest)
    requires TunnelOk(w.tunnel) && IsPhone(w.tunnel, q.bearer) && !IsOver(w)
    requires q.fileId in w.tunnel.files && q.header.NoHeader?
    ensures var f := w.tunnel.files[q.fileId];
            var size := f.descriptor.sizeBytes;
            var begun := BeginUpload(w.tunnel, w.now, q);
            && (begun.Success? <==> AllChunks(q.body) && |Flatten(q.body)| == size)
            && (begun.Success? ==>
                  begun == Success(PendingUpload(q, q.bearer.value, RawRange(0, size, size), Flatten(q.body))))
            && (begun.Success? && f.upload.bytes == [] ==>
                  WholeUpload(w.tunnel, w.now, q).1 == Success(Uploaded(AppendOutcome(size, true, false))))
  {
    hide TunnelOk, BeginUpload, ReceiveBody, AllChunks, Flatten, CommitUpload;
    var f := w.tunnel.files[q.fileId];
    NoBarrier(w, q.bearer, q.fileId);
    BeginningIsExact(w, q);
    SizeIsSmall(w.tunnel, q.fileId);
    var whole := WholeOf(f.descriptor.sizeBytes);
    ReceivingIsExact(q, q.bearer.value, f.descriptor.sizeBytes);
    WholeIsNamed(q.header, f.descriptor.sizeBytes);
    if BeginUpload(w.tunnel, w.now, q).Success? && f.upload.bytes == [] {
      WholeIsCommitted(w, PendingUpload(q, q.bearer.value, whole, Flatten(q.body)));
    }
  }

  lemma WholeIsCommitted(w: World, p: PendingUpload)
    requires TunnelOk(w.tunnel) && w.tunnel.phone == Some(p.supplied) && !IsOver(w)
    requires p.request.fileId in w.tunnel.files
    requires w.tunnel.files[p.request.fileId].upload.bytes == []
    requires var size := w.tunnel.files[p.request.fileId].descriptor.sizeBytes;
             p.range == RawRange(0, size, size) && |p.body| == size
    ensures CommitUpload(w.tunnel, w.now, p).1 == Success(Uploaded(AppendOutcome(|p.body|, true, false)))
  {
    var t, id := w.tunnel, p.request.fileId;
    hide AppendTo, WithChunk, StoreChunk, TunnelOk, UploadCheck, RawRange.Valid, Len;
    NoBarrier(w, Some(p.supplied), id);
    CheckIsBarrier(w, p.supplied, id);
    WholeStarts(p.range, |p.body|);
    Atomicity.TotalIsSize(t, id);
    Atomicity.StoredAtOffset(t, id, p.range, p.body);
  }

  lemma WholeStarts(range: ContentRange, size: nat)
    requires range.start == 0 && range.endExclusive == size
    ensures Len(range) == size
  {
  }

  // -------------------------------------------------------------------- second half of uploads

  /** What a waiting upload is answered by the buffer of its file. */
  function ChunkAnswer(stored: seq<byte>, total: nat, range: ContentRange, body: seq<byte>): Answer {
    if range.start > |stored| then Failure(UploadConflict(Gap(|stored|, range.start)))
    else if range.start == |stored| then
      Success(Uploaded(AppendOutcome(|stored| + |body|, |stored| + |body| == total, false)))
    else if range.endExclusive > |stored| then
      Failure(UploadConflict(PartialOverlap(|stored|, range.start, range.endExclusive)))
    else if stored[range.start..range.endExclusive] == body then
      Success(Uploaded(AppendOutcome(|stored|, |stored| == total, true)))
    else Failure(UploadConflict(ConflictingReplay(range.start, range.endExclusive)))
  }

  lemma StoringIsExact(t: TunnelState, id: FileId, range: ContentRange, body: seq<byte>)
    requires id in t.files && |body| == Len(range) && range.total == t.files[id].upload.total
    ensures StoreChunk(t, id, range, body).1 == ChunkAnswer(t.files[id].upload.bytes, range.total, range, body)
  {
    hide WithChunk;
    if range.start == t.files[id].upload.Offset() {
      hide AppendTo;
      Atomicity.StoredAtOffset(t, id, range, body);
    }
  }

  lemma CommittingIsExact(w: World, p: PendingUpload)
    requires TunnelOk(w.tunnel) && PendingOk(w.tunnel, p)
    ensures match Barrier(w, Some(p.supplied), p.request.fileId)
            case Some(error) => CommitUpload(w.tunnel, w.now, p).1 == Failure(error)
            case None =>
              CommitUpload(w.tunnel, w.now, p).1 ==
              ChunkAnswer(w.tunnel.files[p.request.fileId].upload.bytes, p.range.total, p.range, p.body)
  {
    var id := p.request.fileId;
    hide TunnelOk, PendingOk, StoreChunk, UploadCheck, ChunkAnswer, Barrier;
    CheckIsBarrier(w, p.supplied, id);
    NoBarrier(w, Some(p.supplied), id);
    if Barrier(w, Some(p.supplied), id).None? {
      PendingShape(w.tunnel, p);
      StoringIsExact(w.tunnel, id, p.range, p.body);
    }
  }

  lemma PendingShape(t: TunnelState, p: PendingUpload)
    requires TunnelOk(t) && PendingOk(t, p) && !t.status.Cancelled?
    ensures p.request.fileId in t.files && t.phone == Some(p.supplied)
    ensures |p.body| == Len(p.range) && p.range.total == t.files[p.request.fileId].upload.total
  {
    hide LimitsOk, SecretsOk, PhaseOk, EventsOk, PendingOk;
    PendingMatchesFile(t, p);
  }

  /**
   The second half of an upload is answered by what is stored of its file at that moment: the bodies
   stored so far, in order.
   */
  lemma UploadIsCommitted(r: Run)
    requires Legal(r) && r.Then? && r.request.UploadCommits? && r.request.task in After(r.before).uploads
    ensures var w, p := After(r.before), After(r.before).uploads[r.request.task];
            var stored := Integrity.FreshBodies(r.before, p.request.fileId);
            && AnswerTo(r) == (if w.tunnel.expiresAt <= w.now then Failure(ApiError.Expired)
                               else if IsOver(w) then Failure(Conflict)
                               else ChunkAnswer(stored, p.range.total, p.range, p.body))
            && (AnswerTo(r).Success? <==> !IsOver(w) && (p.range.start == |stored| || Holds(stored, p.range, p.body)))
            && (!IsOver(w) ==> forall d | DeclaredAs(r.before, p.request.fileId, d) :: p.range.total == d.sizeBytes)
  {
    hide TunnelOk, PendingOk, CommitUpload, ChunkAnswer, Holds, DeclaredAs, Integrity.FreshBodies;
    var w, p := After(r.before), After(r.before).uploads[r.request.task];
    EveryRunIsOk(r.before);
    CommittingIsExact(w, p);
    if !w.tunnel.status.Cancelled? {
      PendingShape(w.tunnel, p);
      StoredIsFreshBodies(r.before, p.request.fileId);
      Atomicity.TotalIsSize(w.tunnel, p.request.fileId);
      forall d | DeclaredAs(r.before, p.request.fileId, d) ensures p.range.total == d.sizeBytes {
        DeclarationsWereAdmissible(r.before, p.request.fileId, d);
      }
    }
    AnsweredChunk(Integrity.FreshBodies(r.before, p.request.fileId), p.range.total, p.range, p.body);
  }

  lemma AnsweredChunk(stored: seq<byte>, total: nat, range: ContentRange, body: seq<byte>)
    ensures ChunkAnswer(stored, total, range, body).Success? <==> range.start == |stored| || Holds(stored, range, body)
  {
  }

  // --------------------------------------------------------------------------------- probe

  /** The phone can ask at any time before the tunnel is over how much of a file is stored. */
  lemma ProbeIsAnswered(r: Run)
    requires Legal(r) && r.Then? && r.request.ProbeRequest?
    ensures var w, q := After(r.before), r.request;
            && (AnswerTo(r).Success? <==> IsPhone(w.tunnel, q.bearer) && !IsOver(w) && q.fileId in w.tunnel.files)
            && match Barrier(w, q.bearer, q.fileId)
               case Some(error) => AnswerTo(r) == Failure(error)
               case None =>
                 var stored := |Integrity.FreshBodies(r.before, q.fileId)|;
                 var size := w.tunnel.files[q.fileId].descriptor.sizeBytes;
                 AnswerTo(r) == Success(Uploaded(AppendOutcome(stored, stored == size, true)))
  {
    hide TunnelOk, UploadCheck, Barrier, Integrity.FreshBodies;
    var w, q := After(r.before), r.request;
    EveryRunIsOk(r.before);
    NoBarrier(w, q.bearer, q.fileId);
    if q.bearer.None? {
      MissingBearer(w, q.fileId);
    } else {
      CheckIsBarrier(w, q.bearer.value, q.fileId);
      if Barrier(w, q.bearer, q.fileId).None? {
        StoredIsFreshBodies(r.before, q.fileId);
        Atomicity.TotalIsSize(w.tunnel, q.fileId);
      }
    }
  }

  lemma MissingBearer(w: World, id: FileId)
    ensures Barrier(w, None, id) == Some(Unauthorized)
  {
  }

  // ------------------------------------------------------------------------------ download

  lemma DownloadingIsExact(t: TunnelState, now: Instant, bearer: Option<Digest>, id: FileId)
    requires TunnelOk(t)
    ensures Downloading(t, now, bearer, id).1 ==
            (if bearer.None? then Failure(Unauthorized)
             else if t.expiresAt <= now then Failure(ApiError.Expired)
             else if t.status.Cancelled? then Failure(Conflict)
             else if !IsDesktop(t, bearer) then Failure(Unauthorized)
             else if t.status.Waiting? || t.status.Complete? then Failure(Conflict)
             else if id !in t.files then Failure(NotFound)
             else if |t.files[id].upload.bytes| != t.files[id].upload.total then Failure(Conflict)
             else Success(Content(ContentType(t.files[id].descriptor.mediaType), t.files[id].upload.bytes)))
  {
    hide FilesOk, LimitsOk, EventsOk, Fetched, ContentType;
  }

  /**
   The desktop can download a file exactly when all of it is stored and the tunnel is not over, and
   then gets the bodies stored, in order, under the declared type.
   */
  lemma DownloadIsAnswered(r: Run)
    requires Legal(r) && r.Then? && r.request.DownloadRequest?
    ensures var w, bearer, id := After(r.before), r.request.bearer, r.request.fileId;
            var t, stored := w.tunnel, Integrity.FreshBodies(r.before, r.request.fileId);
            && (AnswerTo(r).Success? <==>
                && IsDesktop(t, bearer) && !IsOver(w)
                && id in t.files && |stored| == t.files[id].descriptor.sizeBytes)
            && AnswerTo(r) == (if bearer.None? then Failure(Unauthorized)
                               else if t.expiresAt <= w.now then Failure(ApiError.Expired)
                               else if t.status.Cancelled? then Failure(Conflict)
                               else if !IsDesktop(t, bearer) then Failure(Unauthorized)
                               else if t.status.Waiting? || t.status.Complete? then Failure(Conflict)
                               else if id !in t.files then Failure(NotFound)
                               else if |stored| != t.files[id].descriptor.sizeBytes then Failure(Conflict)
                               else Success(Content(ContentType(t.files[id].descriptor.mediaType), stored)))
  {
    hide Downloading, ContentType, Integrity.FreshBodies;
    var w, id := After(r.before), r.request.fileId;
    EveryRunIsOk(r.before);
    DownloadingIsExact(w.tunnel, w.now, r.request.bearer, id);
    WaitingIsEmpty(w.tunnel);
    hide TunnelOk;
    if id in w.tunnel.files {
      StoredIsFreshBodies(r.before, id);
      Atomicity.TotalIsSize(w.tunnel, id);
    }
  }

  lemma WaitingIsEmpty(t: TunnelState)
    requires TunnelOk(t)
    ensures t.status.Waiting? || t.status.Cancelled? ==> t.files == map[]
  {
  }

  // ------------------------------------------------------------------------------- tickets

  lemma MintingIsExact(t: TunnelState, now: Instant, bearer: Option<Digest>, ticket: Digest)
    requires TunnelOk(t)
    ensures var (next, answer) := Minting(t, now, bearer, ticket);
            && answer == (if bearer.None? then Failure(Unauthorized)
                          else if t.expiresAt <= now then Failure(ApiError.Expired)
                          else if t.status.Cancelled? then Failure(Conflict)
                          else if !IsDesktop(t, bearer) && !IsPhone(t, bearer) then Failure(Unauthorized)
                          else if t.status.Complete? then Failure(Conflict)
                          else Success(TicketIssued(now + 30)))
            && (answer.Success? ==> next.tickets == t.tickets[ticket := now + 30])
  {
    hide FilesOk, LimitsOk, EventsOk;
  }

  /** The desktop and the phone can get a ticket for thirty seconds while the tunnel is not over. */
  lemma TicketIsAnswered(r: Run)
    requires Legal(r) && r.Then? && r.request.TicketRequest?
    ensures var w, bearer := After(r.before), r.request.bearer;
            var t := w.tunnel;
            && (AnswerTo(r).Success? <==> (IsDesktop(t, bearer) || IsPhone(t, bearer)) && !IsOver(w))
            && (AnswerTo(r).Success? ==> MintedAt(r, r.request.ticket, w.now))
            && AnswerTo(r) == (if bearer.None? then Failure(Unauthorized)
                               else if t.expiresAt <= w.now then Failure(ApiError.Expired)
                               else if t.status.Cancelled? then Failure(Conflict)
                               else if !IsDesktop(t, bearer) && !IsPhone(t, bearer) then Failure(Unauthorized)
                               else if t.status.Complete? then Failure(Conflict)
                               else Success(TicketIssued(w.now + 30)))
  {
    hide TunnelOk, Minting;
    EveryRunIsOk(r.before);
    MintingIsExact(After(r.before).tunnel, After(r.before).now, r.request.bearer, r.request.ticket);
    TicketChanges(r);
  }

  /** The ticket was presented to the live tunnel after it was issued. */
  ghost predicate Presented(r: Run, ticket: Digest) {
    r.Then? && (Presented(r.before, ticket)
                || (r.request == ConnectRequest(ticket) && ticket in Minted(r.before) && !IsOver(After(r.before))))
  }

  lemma ConnectingIsExact(t: TunnelState, now: Instant, ticket: Digest)
    requires TunnelOk(t)
    ensures var (next, answer) := Connecting(t, now, ticket);
            && answer == (if t.expiresAt <= now then Failure(ApiError.Expired)
                          else if t.status.Cancelled? || t.status.Complete? then Failure(Conflict)
                          else if ticket !in t.tickets || t.tickets[ticket] <= now then Failure(Unauthorized)
                          else Success(Subscribed))
            && next == (if t.expiresAt <= now || t.status.Cancelled? || t.status.Complete? then t
                        else t.(tickets := t.tickets - {ticket}))
  {
    hide FilesOk, LimitsOk, EventsOk;
  }

  lemma NotOverBefore(r: Run)
    requires Legal(r) && r.Then? && !IsOver(After(r))
    ensures !IsOver(After(r.before))
  {
    if IsOver(After(r.before)) {
      assert Extends(r.before, r.before);
      EndsAreFinal(r.before, r);
    }
  }

  lemma TicketKept(t: TunnelState, now: Instant, c: Change, ticket: Digest)
    requires Possible(t, c)
    ensures var u := Changed(t, now, c);
            u.status.Complete? || u.status.Cancelled?
            || (ticket in u.tickets <==> c == Mints(ticket) || (ticket in t.tickets && c != Spends(ticket)))
  {
    hide Changed;
    PartsAfter(t, now, c);
  }

  lemma SpendingIsPresenting(w: World, q: Request, ticket: Digest)
    requires TunnelOk(w.tunnel) && !IsOver(w)
    ensures ChangeOf(w, q) == Spends(ticket) <==> q == ConnectRequest(ticket) && ticket in w.tunnel.tickets
  {
    hide FilesOk, LimitsOk, EventsOk, CommitUpload;
  }

  /** While the tunnel is not over it holds exactly the tickets issued and not yet presented. */
  lemma {:induction false} TicketsHeld(r: Run, ticket: Digest)
    requires Legal(r) && !IsOver(After(r))
    ensures ticket in After(r).tunnel.tickets <==> ticket in Minted(r) && !Presented(r, ticket)
  {
    if r.Then? {
      hide Step, ChangeOf, Changed, TunnelOk, IsOver;
      var w := After(r.before);
      NotOverBefore(r);
      TicketsHeld(r.before, ticket);
      LastStep(r);
      TicketChanges(r);
      TicketKept(w.tunnel, w.now, LastChange(r), ticket);
      SpendingIsPresenting(w, r.request, ticket);
      if Presented(r.before, ticket) {
        PresentedIsMinted(r.before, ticket);
      }
      assert !After(r).tunnel.status.Complete? && !After(r).tunnel.status.Cancelled? by { LiveIsOpen(After(r)); }
    }
  }

  lemma LiveIsOpen(w: World)
    requires !IsOver(w)
    ensures !w.tunnel.status.Complete? && !w.tunnel.status.Cancelled? && w.now < w.tunnel.expiresAt
  {
  }

  lemma {:induction false} PresentedIsMinted(r: Run, ticket: Digest)
    requires Presented(r, ticket)
    ensures ticket in Minted(r)
  {
    if Presented(r.before, ticket) {
      PresentedIsMinted(r.before, ticket);
    }
  }

  lemma {:induction false} MintedOnce(r: Run, ticket: Digest, at: Instant)
    requires Legal(r) && MintedAt(r, ticket, at)
    ensures ticket in Minted(r) && forall other | MintedAt(r, ticket, other) :: other == at
  {
    hide Step, ChangeOf;
    TicketChanges(r);
    if MintedAt(r.before, ticket, at) {
      MintedOnce(r.before, ticket, at);
    }
    forall other | MintedAt(r, ticket, other) ensures other == at {
      if MintedAt(r.before, ticket, other) {
        MintedOnce(r.before, ticket, other);
      }
    }
  }

  /**
   A ticket is honoured exactly when the tunnel is not over, it was issued less than thirty seconds
   ago, and nobody presented it to the live tunnel since.
   */
  lemma ConnectIsAnswered(r: Run)
    requires Legal(r) && r.Then? && r.request.ConnectRequest?
    ensures var w, k := After(r.before), r.request.ticket;
            var good := !Presented(r.before, k) && exists at :: MintedAt(r.before, k, at) && w.now < at + 30;
            && (AnswerTo(r) == Success(Subscribed) <==> !IsOver(w) && good)
            && AnswerTo(r) == (if w.tunnel.expiresAt <= w.now then Failure(ApiError.Expired)
                               else if IsOver(w) then Failure(Conflict)
                               else if !good then Failure(Unauthorized)
                               else Success(Subscribed))
  {
    hide TunnelOk, Connecting, MintedAt, Presented;
    var w, k := After(r.before), r.request.ticket;
    EveryRunIsOk(r.before);
    ConnectingIsExact(w.tunnel, w.now, k);
    if !IsOver(w) {
      TicketsHeld(r.before, k);
      if k in w.tunnel.tickets {
        TicketsKnowTheirTime(r.before, k);
        MintedOnce(r.before, k, w.tunnel.tickets[k] - EVENT_TICKET_SECONDS);
      }
      forall at | MintedAt(r.before, k, at) ensures k in Minted(r.before) {
        MintedOnce(r.before, k, at);
      }
    }
  }

  /** Time only passes. */
  lemma ClockIsAnswered(r: Run)
    requires Legal(r) && r.Then? && r.request.ClockReaches?
    ensures AnswerTo(r) == Success(TimePassed) && After(r) == After(r.before).(now := r.request.now)
  {
  }
}
