/**
 One tunnel as a value, the handlers as functions on it, and whole runs of a server: any
 interleaving of requests, the two halves of uploads, and the clock.
 */
module TunnelModel {
  import opened Wrappers
  import opened Text
  import opened Capabilities
  import opened ContentRanges
  import opened Uploads
  import opened Bodies
  import opened Declarations

  /** Hashes of secrets, file identifiers and clock readings are opaque except for comparison. */
  type Digest = nat
  type FileId = nat
  type Instant = int

  const MIN_EXPIRES_SECONDS: nat := 60
  const MAX_EXPIRES_SECONDS: nat := 3600
  const EVENT_TICKET_SECONDS: nat := 30
  const MAX_FILES: nat := 100
  const MAX_FILE_BYTES: u64 := 5 * 1024 * 1024 * 1024

  // ----------------------------------------------------------------------- state

  datatype FileStatus = Declared | Uploading | Available | Downloaded | Rejected | Cancelled

  datatype FileDescriptor = FileDescriptor(
    fileId: FileId,
    name: string,
    mediaType: string,
    sizeBytes: u64,
    bytesTransferred: nat,
    status: FileStatus,
    createdAt: Instant)

  datatype FileRecord = FileRecord(descriptor: FileDescriptor, upload: UploadState)

  datatype EventKind =
    | TunnelConnected | TunnelCancelled
    | FileDeclared | FileProgress | FileAvailable | FileDownloaded

  datatype TunnelEvent = TunnelEvent(
    sequence: nat, kind: EventKind, fileId: Option<FileId>, bytesTransferred: Option<nat>)

  datatype TunnelState = TunnelState(
    status: TunnelStatus,
    pairing: Option<Digest>,
    desktop: Digest,
    phone: Option<Digest>,
    expiresAt: Instant,
    maxFiles: nat,
    maxFileBytes: u64,
    accept: seq<string>,
    files: map<FileId, FileRecord>,
    sequence: nat,
    tickets: map<Digest, Instant>,
    events: seq<TunnelEvent>)

  // ------------------------------------------------------------- answers and errors

  datatype InvalidReason =
    | BadApplicationId | BadMaxFiles | BadMaxFileBytes | BadExpiry | BadAccept
    | BadName | BadSha256 | BadBody

  datatype RangeDetail =
    | HeaderNotAscii
    | BadHeader(why: RangeError)
    | BodyTooLong(limit: nat)
    | BodyWrongLength(actual: nat, limit: nat)
    | BadChunk(error: UploadError)

  datatype ApiError =
    | Invalid(reason: InvalidReason)
    | InvalidRange(detail: RangeDetail)
    | UploadConflict(error: UploadError)
    | Unauthorized
    | NotFound
    | Expired
    | Conflict
    | TooLarge
    | UnsupportedMediaType

  datatype Reply =
    | ClaimGranted(expiresAt: Instant)
    | Snapshot(status: TunnelStatus, expiresAt: Instant, files: map<FileId, FileDescriptor>)
    | TunnelClosed
    | FileAccepted(descriptor: FileDescriptor)
    | BodyReceived
    | Uploaded(outcome: AppendOutcome)
    | Content(contentType: string, bytes: seq<byte>)
    | TicketIssued(expiresAt: Instant)
    | Subscribed
    | TimePassed

  type Answer = Result<Reply, ApiError>

  // ---------------------------------------------------------------- shared checks

  function EnsureActive(status: TunnelStatus, expiresAt: Instant, now: Instant): Result<(), ApiError> {
    if expiresAt <= now || status.Expired? then Failure(ApiError.Expired)
    else if status.Cancelled? then Failure(Conflict)
    else Success(())
  }

  function BearerHash(bearer: Option<Digest>): Result<Digest, ApiError> {
    match bearer
    case Some(digest) => Success(digest)
    case None => Failure(Unauthorized)
  }

  function Authorize(status: TunnelStatus, principal: Principal, operation: Operation): Result<(), ApiError> {
    if Permits(status, principal, operation) then Success(()) else Failure(Conflict)
  }

  function RequireDesktop(status: TunnelStatus, desktop: Digest, supplied: Digest, operation: Operation)
    : Result<(), ApiError>
  {
    if desktop != supplied then Failure(Unauthorized) else Authorize(status, Desktop, operation)
  }

  function RequirePhone(status: TunnelStatus, phone: Option<Digest>, supplied: Digest, operation: Operation)
    : Result<(), ApiError>
  {
    if phone != Some(supplied) then Failure(Unauthorized) else Authorize(status, Phone, operation)
  }

  function RequireEither(status: TunnelStatus, desktop: Digest, phone: Option<Digest>, supplied: Digest,
                         operation: Operation): Result<(), ApiError>
  {
    if desktop == supplied then Authorize(status, Desktop, operation)
    else if phone == Some(supplied) then Authorize(status, Phone, operation)
    else Failure(Unauthorized)
  }

  function OfRejection(rejection: DeclarationRejection): ApiError {
    match rejection
    case InvalidName => Invalid(BadName)
    case FileLimitReached => TooLarge
    case FileTooLarge => TooLarge
    case UnsupportedMedia => UnsupportedMediaType
    case InvalidSha256 => Invalid(BadSha256)
  }

  function OfUploadError(error: UploadError): ApiError {
    match error
    case BodyLength(_, _) => InvalidRange(BadChunk(error))
    case ChunkTooLarge => InvalidRange(BadChunk(error))
    case _ => UploadConflict(error)
  }

  function OfBodyError(error: BodyError): ApiError {
    match error
    case Unreadable => Invalid(BadBody)
    case TooLong(limit) => InvalidRange(BodyTooLong(limit))
    case WrongLength(actual, limit) => InvalidRange(BodyWrongLength(actual, limit))
  }

  function Admit(policy: DeclarationPolicy, d: FileDeclaration): Result<(), ApiError> {
    match ValidateDeclaration(policy, d)
    case Success(_) => Success(())
    case Failure(rejection) => Failure(OfRejection(rejection))
  }

  // --------------------------------------------------------------------- creation

  datatype CreateRequest = CreateRequest(
    applicationId: string, accept: seq<string>, maxFiles: nat, maxFileBytes: u64, expiresInSeconds: nat)

  function ValidateCreate(q: CreateRequest): Result<(), ApiError> {
    if q.applicationId == [] || Utf8Length(q.applicationId) > 128 then Failure(Invalid(BadApplicationId))
    else if q.maxFiles == 0 || q.maxFiles > MAX_FILES then Failure(Invalid(BadMaxFiles))
    else if q.maxFileBytes == 0 || q.maxFileBytes > MAX_FILE_BYTES then Failure(Invalid(BadMaxFileBytes))
    else if !(MIN_EXPIRES_SECONDS <= q.expiresInSeconds <= MAX_EXPIRES_SECONDS) then Failure(Invalid(BadExpiry))
    else if q.accept == [] || |q.accept| > 32 then Failure(Invalid(BadAccept))
    else Success(())
  }

  function NewTunnel(q: CreateRequest, now: Instant, pairing: Digest, desktop: Digest): TunnelState {
    TunnelState(Waiting, Some(pairing), desktop, None, now + q.expiresInSeconds,
                q.maxFiles, q.maxFileBytes, q.accept, map[], 0, map[], [])
  }

  // --------------------------------------------------------------------- handlers

  function Publish(t: TunnelState, kind: EventKind, file: Option<FileId>, bytes: Option<nat>): TunnelState {
    t.(sequence := t.sequence + 1, events := t.events + [TunnelEvent(t.sequence + 1, kind, file, bytes)])
  }

  function FindFile(t: TunnelState, id: FileId): (r: Result<FileRecord, ApiError>) {
    if id in t.files then Success(t.files[id]) else Failure(NotFound)
  }

  // claim

  function ClaimCheck(t: TunnelState, now: Instant, secret: Digest): Result<(), ApiError> {
    var _ :- EnsureActive(t.status, t.expiresAt, now);
    var _ :- Authorize(t.status, PairingSecret, Claim);
    match t.pairing
    case None => Failure(Conflict)
    case Some(expected) => if expected != secret then Failure(Unauthorized) else Success(())
  }

  function Claimed(t: TunnelState, phone: Digest): TunnelState {
    Publish(t.(phone := Some(phone), pairing := None, status := Connected), TunnelConnected, None, None)
  }

  // snapshot

  function SnapshotCheck(t: TunnelState, now: Instant, bearer: Option<Digest>): Result<(), ApiError> {
    var supplied :- BearerHash(bearer);
    var _ :- EnsureActive(t.status, t.expiresAt, now);
    RequireEither(t.status, t.desktop, t.phone, supplied, ReadSnapshot)
  }

  function Descriptors(files: map<FileId, FileRecord>): map<FileId, FileDescriptor> {
    map id | id in files :: files[id].descriptor
  }

  // cancel

  function CancelCheck(t: TunnelState, now: Instant, bearer: Option<Digest>): Result<(), ApiError> {
    var supplied :- BearerHash(bearer);
    var _ :- EnsureActive(t.status, t.expiresAt, now);
    RequireDesktop(t.status, t.desktop, supplied, Cancel)
  }

  function Closed(t: TunnelState): TunnelState {
    Publish(t.(status := TunnelStatus.Cancelled, files := map[], tickets := map[]), TunnelCancelled, None, None)
  }

  // declare

  function PolicyOf(t: TunnelState): DeclarationPolicy {
    DeclarationPolicy(|t.files|, t.maxFiles, t.maxFileBytes, t.accept)
  }

  function DeclareCheck(t: TunnelState, now: Instant, bearer: Option<Digest>, d: FileDeclaration)
    : Result<(), ApiError>
  {
    var supplied :- BearerHash(bearer);
    var _ :- EnsureActive(t.status, t.expiresAt, now);
    var _ :- RequirePhone(t.status, t.phone, supplied, DeclareFile);
    Admit(PolicyOf(t), d)
  }

  function NewDescriptor(id: FileId, d: FileDeclaration, now: Instant): FileDescriptor {
    FileDescriptor(id, d.name, d.mediaType, d.sizeBytes, 0, Declared, now)
  }

  function NewRecord(id: FileId, d: FileDeclaration, now: Instant): FileRecord {
    FileRecord(NewDescriptor(id, d, now), UploadState(d.sizeBytes, []))
  }

  function WithFile(t: TunnelState, id: FileId, d: FileDeclaration, now: Instant): TunnelState {
    Publish(t.(files := t.files[id := NewRecord(id, d, now)]), FileDeclared, Some(id), Some(0))
  }

  // upload, first half: checks under the shared lock, then the range and the body without it

  datatype RangeHeader = NoHeader | NotAscii | Field(text: string)

  datatype UploadRequest = UploadRequest(
    bearer: Option<Digest>, fileId: FileId, header: RangeHeader, body: seq<StreamItem>)

  /** What the upload task carries from its first half to its second. */
  datatype PendingUpload = PendingUpload(
    request: UploadRequest, supplied: Digest, range: ContentRange, body: seq<byte>)

  function RangeFor(header: RangeHeader, size: u64): Result<ContentRange, ApiError> {
    match header
    case NoHeader => Success(Whole(size))
    case NotAscii => Failure(InvalidRange(HeaderNotAscii))
    case Field(text) =>
      match Parse(text, size)
      case Success(range) => Success(range)
      case Failure(error) => Failure(InvalidRange(BadHeader(error)))
  }

  function BodyFor(stream: seq<StreamItem>, length: nat): Result<seq<byte>, ApiError> {
    if length > USIZE_MAX then Failure(TooLarge)
    else
      match Collected(stream, length)
      case Success(body) => Success(body)
      case Failure(error) => Failure(OfBodyError(error))
  }

  function ReceiveBody(q: UploadRequest, supplied: Digest, size: u64): Result<PendingUpload, ApiError> {
    var range :- RangeFor(q.header, size);
    var body :- BodyFor(q.body, Len(range));
    Success(PendingUpload(q, supplied, range, body))
  }

  function UploadCheck(t: TunnelState, now: Instant, supplied: Digest, id: FileId): Result<FileRecord, ApiError> {
    var _ :- EnsureActive(t.status, t.expiresAt, now);
    var _ :- RequirePhone(t.status, t.phone, supplied, UploadFile);
    FindFile(t, id)
  }

  function BeginUpload(t: TunnelState, now: Instant, q: UploadRequest): Result<PendingUpload, ApiError> {
    var supplied :- BearerHash(q.bearer);
    var file :- UploadCheck(t, now, supplied, q.fileId);
    ReceiveBody(q, supplied, file.descriptor.sizeBytes)
  }

  // upload, second half: the same checks again and the append, under the exclusive lock

  function WithUpload(t: TunnelState, id: FileId, upload: UploadState): TunnelState
    requires id in t.files
  {
    t.(files := t.files[id := t.files[id].(upload := upload)])
  }

  /** The record and the phase after a fresh chunk, before anything is published. */
  function Moved(t: TunnelState, id: FileId, upload: UploadState, outcome: AppendOutcome): TunnelState
    requires id in t.files
  {
    var descriptor := t.files[id].descriptor.(
      bytesTransferred := outcome.offset,
      status := if outcome.complete then Available else Uploading);
    t.(files := t.files[id := FileRecord(descriptor, upload)], status := Transferring)
  }

  function WithChunk(t: TunnelState, id: FileId, upload: UploadState, outcome: AppendOutcome): TunnelState
    requires id in t.files
  {
    var stored := Publish(Moved(t, id, upload, outcome), FileProgress, Some(id), Some(outcome.offset));
    if !t.files[id].upload.IsComplete() && outcome.complete then
      Publish(stored, FileAvailable, Some(id), Some(outcome.offset))
    else stored
  }

  function StoreChunk(t: TunnelState, id: FileId, range: ContentRange, body: seq<byte>): (TunnelState, Answer)
    requires id in t.files
  {
    match AppendTo(t.files[id].upload, range, body)
    case (_, Failure(error)) => (t, Failure(OfUploadError(error)))
    case (upload, Success(outcome)) =>
      (if outcome.replayed then t else WithChunk(t, id, upload, outcome), Success(Uploaded(outcome)))
  }

  function CommitUpload(t: TunnelState, now: Instant, p: PendingUpload): (TunnelState, Answer) {
    match UploadCheck(t, now, p.supplied, p.request.fileId)
    case Failure(error) => (t, Failure(error))
    case Success(_) => StoreChunk(t, p.request.fileId, p.range, p.body)
  }

  /** The upload handler run without interruption. */
  function WholeUpload(t: TunnelState, now: Instant, q: UploadRequest): (TunnelState, Answer) {
    match BeginUpload(t, now, q)
    case Failure(error) => (t, Failure(error))
    case Success(p) => CommitUpload(t, now, p)
  }

  // probe

  function Probe(t: TunnelState, now: Instant, bearer: Option<Digest>, id: FileId): Answer {
    var supplied :- BearerHash(bearer);
    var file :- UploadCheck(t, now, supplied, id);
    Success(Uploaded(Outcome(file.upload, true)))
  }

  // download

  function DownloadCheck(t: TunnelState, now: Instant, bearer: Option<Digest>, id: FileId)
    : Result<FileRecord, ApiError>
  {
    var supplied :- BearerHash(bearer);
    var _ :- EnsureActive(t.status, t.expiresAt, now);
    var _ :- RequireDesktop(t.status, t.desktop, supplied, DownloadFile);
    var file :- FindFile(t, id);
    if !file.upload.IsComplete() then Failure(Conflict) else Success(file)
  }

  predicate AllDownloaded(files: map<FileId, FileRecord>) {
    forall id | id in files :: files[id].descriptor.status.Downloaded?
  }

  function MarkDownloaded(files: map<FileId, FileRecord>, id: FileId): map<FileId, FileRecord>
    requires id in files
  {
    files[id := files[id].(descriptor := files[id].descriptor.(status := Downloaded))]
  }

  function Marked(t: TunnelState, id: FileId): TunnelState
    requires id in t.files
  {
    var files := MarkDownloaded(t.files, id);
    if AllDownloaded(files) then t.(files := files, status := Complete, tickets := map[])
    else t.(files := files)
  }

  function Fetched(t: TunnelState, id: FileId): TunnelState
    requires id in t.files
  {
    Publish(Marked(t, id), FileDownloaded, Some(id), Some(t.files[id].upload.Offset()))
  }

  // event tickets

  function TicketCheck(t: TunnelState, now: Instant, bearer: Option<Digest>): Result<(), ApiError> {
    var supplied :- BearerHash(bearer);
    var _ :- EnsureActive(t.status, t.expiresAt, now);
    RequireEither(t.status, t.desktop, t.phone, supplied, MintEventTicket)
  }

  function ConnectCheck(t: TunnelState, now: Instant, ticket: Digest): Result<Instant, ApiError> {
    var _ :- EnsureActive(t.status, t.expiresAt, now);
    var _ :- Authorize(t.status, EventTicket, RedeemEventTicket);
    if ticket in t.tickets then Success(t.tickets[ticket]) else Failure(Unauthorized)
  }

  // ------------------------------------------------------------------------- runs

  datatype Request =
    | ClaimRequest(secret: Digest, phone: Digest)
    | SnapshotRequest(bearer: Option<Digest>)
    | CancelRequest(bearer: Option<Digest>)
    | DeclareRequest(bearer: Option<Digest>, fileId: FileId, declaration: FileDeclaration)
    | UploadBegins(task: nat, upload: UploadRequest)
    | UploadCommits(task: nat)
    | ProbeRequest(bearer: Option<Digest>, fileId: FileId)
    | DownloadRequest(bearer: Option<Digest>, fileId: FileId)
    | TicketRequest(bearer: Option<Digest>, ticket: Digest)
    | ConnectRequest(ticket: Digest)
    | ClockReaches(now: Instant)

  /** The tunnel, the clock, and the uploads between their two halves. */
  datatype World = World(tunnel: TunnelState, now: Instant, uploads: map<nat, PendingUpload>)

  /** A handler that only changes the tunnel when its check passes. */
  function Gate(t: TunnelState, check: Result<(), ApiError>, next: TunnelState, reply: Reply): (TunnelState, Answer) {
    match check
    case Failure(error) => (t, Failure(error))
    case Success(_) => (next, Success(reply))
  }

  function Claiming(t: TunnelState, now: Instant, secret: Digest, phone: Digest): (TunnelState, Answer) {
    Gate(t, ClaimCheck(t, now, secret), Claimed(t, phone), ClaimGranted(t.expiresAt))
  }

  function Reading(t: TunnelState, now: Instant, bearer: Option<Digest>): (TunnelState, Answer) {
    Gate(t, SnapshotCheck(t, now, bearer), t, Snapshot(t.status, t.expiresAt, Descriptors(t.files)))
  }

  function Cancelling(t: TunnelState, now: Instant, bearer: Option<Digest>): (TunnelState, Answer) {
    Gate(t, CancelCheck(t, now, bearer), Closed(t), TunnelClosed)
  }

  function Declaring(t: TunnelState, now: Instant, bearer: Option<Digest>, id: FileId, d: FileDeclaration)
    : (TunnelState, Answer)
  {
    Gate(t, DeclareCheck(t, now, bearer, d), WithFile(t, id, d, now), FileAccepted(NewDescriptor(id, d, now)))
  }

  /** Texts that a header field can carry: visible ASCII, spaces and tabs. */
  predicate IsHeaderText(s: string) {
    forall i | 0 <= i < |s| :: ' ' <= s[i] <= '~' || s[i] == '\t'
  }

  const FALLBACK_TYPE: string := "application/octet-stream"

  /** The content type of a download. */
  function ContentType(mediaType: string): string {
    if IsHeaderText(mediaType) then mediaType else FALLBACK_TYPE
  }

  function Downloading(t: TunnelState, now: Instant, bearer: Option<Digest>, id: FileId): (TunnelState, Answer) {
    match DownloadCheck(t, now, bearer, id)
    case Failure(error) => (t, Failure(error))
    case Success(file) => (Fetched(t, id), Success(Content(ContentType(file.descriptor.mediaType), file.upload.bytes)))
  }

  function Minting(t: TunnelState, now: Instant, bearer: Option<Digest>, ticket: Digest): (TunnelState, Answer) {
    var expiry := now + EVENT_TICKET_SECONDS;
    Gate(t, TicketCheck(t, now, bearer), t.(tickets := t.tickets[ticket := expiry]), TicketIssued(expiry))
  }

  function Connecting(t: TunnelState, now: Instant, ticket: Digest): (TunnelState, Answer) {
    match ConnectCheck(t, now, ticket)
    case Failure(error) => (t, Failure(error))
    case Success(expiry) =>
      (t.(tickets := t.tickets - {ticket}), if expiry <= now then Failure(Unauthorized) else Success(Subscribed))
  }

  /** One atomic step of the server. */
  function Step(w: World, q: Request): (World, Answer) {
    var t, now := w.tunnel, w.now;
    match q
    case ClaimRequest(secret, phone) => OnTunnel(w, Claiming(t, now, secret, phone))
    case SnapshotRequest(bearer) => OnTunnel(w, Reading(t, now, bearer))
    case CancelRequest(bearer) => OnTunnel(w, Cancelling(t, now, bearer))
    case DeclareRequest(bearer, id, d) => OnTunnel(w, Declaring(t, now, bearer, id, d))
    case UploadBegins(task, upload) =>
      (match BeginUpload(t, now, upload)
       case Failure(error) => (w, Failure(error))
       case Success(p) => (w.(uploads := w.uploads[task := p]), Success(BodyReceived)))
    case UploadCommits(task) =>
      if task !in w.uploads then (w, Failure(NotFound))
      else
        var (next, answer) := CommitUpload(t, now, w.uploads[task]);
        (World(next, now, w.uploads - {task}), answer)
    case ProbeRequest(bearer, id) => (w, Probe(t, now, bearer, id))
    case DownloadRequest(bearer, id) => OnTunnel(w, Downloading(t, now, bearer, id))
    case TicketRequest(bearer, ticket) => OnTunnel(w, Minting(t, now, bearer, ticket))
    case ConnectRequest(ticket) => OnTunnel(w, Connecting(t, now, ticket))
    case ClockReaches(later) => (w.(now := later), Success(TimePassed))
  }

  function OnTunnel(w: World, r: (TunnelState, Answer)): (World, Answer) {
    (w.(tunnel := r.0), r.1)
  }

  /** A whole run, oldest step innermost. */
  datatype Run =
    | Created(creation: CreateRequest, at: Instant, pairing: Digest, desktop: Digest)
    | Then(before: Run, request: Request)

  function After(r: Run): World {
    match r
    case Created(creation, at, pairing, desktop) => World(NewTunnel(creation, at, pairing, desktop), at, map[])
    case Then(before, request) => Step(After(before), request).0
  }

  /** The answer to the last request of a run. */
  function AnswerTo(r: Run): Answer
    requires r.Then?
  {
    Step(After(r.before), r.request).1
  }

  /** The tickets issued so far. */
  function Minted(r: Run): set<Digest> {
    match r
    case Created(_, _, _, _) => {}
    case Then(before, request) =>
      Minted(before) + if request.TicketRequest? && AnswerTo(r).Success? then {request.ticket} else {}
  }

  /** Fresh identifiers are new, and the clock does not run backwards. */
  ghost predicate Admits(before: Run, request: Request) {
    match request
    case DeclareRequest(_, id, _) => id !in After(before).tunnel.files
    case TicketRequest(_, ticket) => ticket !in Minted(before)
    case UploadBegins(task, _) => task !in After(before).uploads
    case ClockReaches(later) => After(before).now <= later
    case _ => true
  }

  /** The runs a server can have: a valid creation, then requests in any order by anyone. */
  ghost predicate Legal(r: Run) {
    match r
    case Created(creation, _, _, _) => ValidateCreate(creation).Success?
    case Then(before, request) => Legal(before) && Admits(before, request)
  }
}
