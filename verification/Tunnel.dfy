/**
 The tunnel as the server keeps it: fields updated in place, files as objects that own their
 upload buffers. Every handler is proved to be the corresponding function of `TunnelModel`.
 */
module Tunnels {
  import opened Wrappers
  import opened Text
  import opened Capabilities
  import opened ContentRanges
  import opened Uploads
  import opened Bodies
  import opened Declarations
  import opened TunnelModel

  class StoredFile {
    var descriptor: FileDescriptor
    const upload: UploadBuffer

    constructor (descriptor: FileDescriptor)
      ensures this.descriptor == descriptor && fresh(upload)
      ensures upload.Value() == UploadState(descriptor.sizeBytes, [])
    {
      this.descriptor := descriptor;
      this.upload := new UploadBuffer(descriptor.sizeBytes);
    }

    ghost function Value(): FileRecord
      reads this, upload
    {
      FileRecord(descriptor, upload.Value())
    }
  }

  lemma MovedHidesUpload(t: TunnelState, id: FileId, upload: UploadState, outcome: AppendOutcome)
    requires id in t.files
    ensures Moved(WithUpload(t, id, upload), id, upload, outcome) == Moved(t, id, upload, outcome)
  {
    var moved := Moved(t, id, upload, outcome).files[id];
    assert t.files[id := t.files[id].(upload := upload)][id := moved] == t.files[id := moved];
  }

  ghost function Objects(files: map<FileId, StoredFile>): set<object> {
    (set id | id in files :: files[id] as object) + (set id | id in files :: files[id].upload as object)
  }

  ghost function Records(files: map<FileId, StoredFile>): map<FileId, FileRecord>
    reads Objects(files)
  {
    map id | id in files :: files[id].Value()
  }

  class Tunnel {
    var status: TunnelStatus
    var pairingHash: Option<Digest>
    const desktopHash: Digest
    var phoneHash: Option<Digest>
    const expiresAt: Instant
    const maxFiles: nat
    const maxFileBytes: u64
    const accept: seq<string>
    var files: map<FileId, StoredFile>
    var sequence: nat
    var eventTickets: map<Digest, Instant>
    /** Everything ever published; the broadcast channel delivers it from here. */
    ghost var events: seq<TunnelEvent>

    /** The objects a file consists of. */
    ghost function FootprintOf(id: FileId): set<object>
      reads this
    {
      if id in files then {files[id], files[id].upload} else {}
    }

    /** Each file owns its descriptor and its buffer. */
    ghost predicate Valid()
      reads this
    {
      forall i, j | i in files && j in files && i != j ::
        files[i] != files[j] && files[i].upload != files[j].upload
    }

    ghost function State(): TunnelState
      reads this, Objects(files)
    {
      TunnelState(status, pairingHash, desktopHash, phoneHash, expiresAt, maxFiles, maxFileBytes, accept,
                  Records(files), sequence, eventTickets, events)
    }

    constructor (q: CreateRequest, now: Instant, pairing: Digest, desktop: Digest)
      ensures Valid() && State() == NewTunnel(q, now, pairing, desktop)
    {
      status := Waiting;
      pairingHash := Some(pairing);
      desktopHash := desktop;
      phoneHash := None;
      expiresAt := now + q.expiresInSeconds;
      maxFiles := q.maxFiles;
      maxFileBytes := q.maxFileBytes;
      accept := q.accept;
      files := map[];
      sequence := 0;
      eventTickets := map[];
      events := [];
    }

    static method Create(q: CreateRequest, now: Instant, pairing: Digest, desktop: Digest)
      returns (r: Result<Tunnel, ApiError>)
      ensures match ValidateCreate(q)
              case Failure(error) => r == Failure(error)
              case Success(_) =>
                r.Success? && fresh(r.value) && r.value.Valid()
                && r.value.State() == NewTunnel(q, now, pairing, desktop)
    {
      var _ :- ValidateCreate(q);
      var tunnel := new Tunnel(q, now, pairing, desktop);
      return Success(tunnel);
    }

    method PublishEvent(kind: EventKind, file: Option<FileId>, bytes: Option<nat>)
      modifies this`sequence, this`events
      ensures State() == Publish(old(State()), kind, file, bytes)
    {
      sequence := sequence + 1;
      events := events + [TunnelEvent(sequence, kind, file, bytes)];
    }

    method ClaimTunnel(now: Instant, secret: Digest, phone: Digest) returns (r: Answer)
      requires Valid()
      modifies this`status, this`pairingHash, this`phoneHash, this`sequence, this`events
      ensures Valid() && (State(), r) == Claiming(old(State()), now, secret, phone)
    {
      var _ :- EnsureActive(status, expiresAt, now);
      var _ :- Authorize(status, PairingSecret, Claim);
      if pairingHash.None? {
        return Failure(Conflict);
      }
      if pairingHash.value != secret {
        return Failure(Unauthorized);
      }
      phoneHash := Some(phone);
      pairingHash := None;
      status := Connected;
      assert Records(files) == old(Records(files));
      PublishEvent(TunnelConnected, None, None);
      return Success(ClaimGranted(expiresAt));
    }

    method GetTunnel(now: Instant, bearer: Option<Digest>) returns (r: Answer)
      requires Valid()
      ensures r == Reading(State(), now, bearer).1
    {
      var supplied :- BearerHash(bearer);
      var _ :- EnsureActive(status, expiresAt, now);
      var _ :- RequireEither(status, desktopHash, phoneHash, supplied, ReadSnapshot);
      var snapshot := map id | id in files :: files[id].descriptor;
      assert snapshot == Descriptors(State().files);
      return Success(Snapshot(status, expiresAt, snapshot));
    }

    method CancelTunnel(now: Instant, bearer: Option<Digest>) returns (r: Answer)
      requires Valid()
      modifies this`status, this`files, this`eventTickets, this`sequence, this`events
      ensures Valid() && (State(), r) == Cancelling(old(State()), now, bearer)
    {
      var supplied :- BearerHash(bearer);
      var _ :- EnsureActive(status, expiresAt, now);
      var _ :- RequireDesktop(status, desktopHash, supplied, Cancel);
      status := TunnelStatus.Cancelled;
      files := map[];
      eventTickets := map[];
      PublishEvent(TunnelCancelled, None, None);
      return Success(TunnelClosed);
    }

    method DeclareFile(now: Instant, bearer: Option<Digest>, id: FileId, d: FileDeclaration) returns (r: Answer)
      requires Valid()
      modifies this`files, this`sequence, this`events
      ensures Valid() && (State(), r) == Declaring(old(State()), now, bearer, id, d)
    {
      var supplied :- BearerHash(bearer);
      var _ :- EnsureActive(status, expiresAt, now);
      var _ :- RequirePhone(status, phoneHash, supplied, Operation.DeclareFile);
      assert |files| == |State().files| by { assert files.Keys == State().files.Keys; }
      var _ :- Admit(DeclarationPolicy(|files|, maxFiles, maxFileBytes, accept), d);
      var descriptor := AddFile(now, id, d);
      return Success(FileAccepted(descriptor));
    }

    method AddFile(now: Instant, id: FileId, d: FileDeclaration) returns (descriptor: FileDescriptor)
      requires Valid()
      modifies this`files, this`sequence, this`events
      ensures Valid() && State() == WithFile(old(State()), id, d, now)
      ensures descriptor == NewDescriptor(id, d, now)
    {
      descriptor := NewDescriptor(id, d, now);
      var stored := new StoredFile(descriptor);
      files := files[id := stored];
      assert Records(files) == old(Records(files))[id := stored.Value()];
      PublishEvent(FileDeclared, Some(id), Some(0));
    }

    /** The first half of an upload: nothing is changed, and nothing is locked once it is over. */
    method UploadFileBegin(now: Instant, q: UploadRequest) returns (r: Result<PendingUpload, ApiError>)
      requires Valid()
      ensures r == BeginUpload(State(), now, q)
    {
      var supplied :- BearerHash(q.bearer);
      var _ :- EnsureActive(status, expiresAt, now);
      var _ :- RequirePhone(status, phoneHash, supplied, UploadFile);
      if q.fileId !in files {
        return Failure(NotFound);
      }
      var range :- RangeFor(q.header, files[q.fileId].descriptor.sizeBytes);
      if Len(range) > USIZE_MAX {
        return Failure(TooLarge);
      }
      var body, _ := CollectBody(q.body, Len(range));
      if body.Failure? {
        return Failure(OfBodyError(body.error));
      }
      return Success(PendingUpload(q, supplied, range, body.value));
    }

    /** The second half: every check again, then the append and its events. */
    method UploadFileCommit(now: Instant, p: PendingUpload) returns (r: Answer)
      requires Valid()
      modifies this`status, this`sequence, this`events, FootprintOf(p.request.fileId)
      ensures Valid() && (State(), r) == CommitUpload(old(State()), now, p)
    {
      var id := p.request.fileId;
      var _ :- EnsureActive(status, expiresAt, now);
      var _ :- RequirePhone(status, phoneHash, p.supplied, UploadFile);
      if id !in files {
        return Failure(NotFound);
      }
      r := Store(id, p.range, p.body);
    }

    method Store(id: FileId, range: ContentRange, body: seq<byte>) returns (r: Answer)
      requires Valid() && id in files
      modifies this`status, this`sequence, this`events, FootprintOf(id)
      ensures Valid() && (State(), r) == StoreChunk(old(State()), id, range, body)
    {
      hide AppendTo, Moved, Publish, State, Records;
      ghost var before := State();
      assert before.files[id].upload == files[id].upload.Value() && id in before.files by { StateHas(id); }
      AppendFacts(before.files[id].upload, range, body);
      var wasComplete := files[id].upload.IsComplete();
      var appended := AppendChunk(id, range, body);
      if appended.Failure? {
        return Failure(OfUploadError(appended.error));
      }
      var outcome := appended.value;
      if !outcome.replayed {
        ghost var v := AppendTo(before.files[id].upload, range, body).0;
        Move(id, v, outcome);
        MovedHidesUpload(before, id, v, outcome);
        PublishEvent(FileProgress, Some(id), Some(outcome.offset));
      }
      if !wasComplete && outcome.complete {
        PublishEvent(FileAvailable, Some(id), Some(outcome.offset));
      }
      return Success(Uploaded(outcome));
    }

    lemma StateHas(id: FileId)
      requires id in files
      ensures id in State().files && State().files[id] == files[id].Value()
    {
    }

    method AppendChunk(id: FileId, range: ContentRange, body: seq<byte>)
      returns (r: Result<AppendOutcome, UploadError>)
      requires Valid() && id in files
      modifies files[id].upload
      ensures id in old(State()).files
      ensures var (v, answer) := AppendTo(old(State()).files[id].upload, range, body);
              && r == answer && files[id].upload.Value() == v
              && State() == (if v == old(State()).files[id].upload then old(State())
                             else WithUpload(old(State()), id, v))
    {
      hide AppendTo;
      StateHas(id);
      r := files[id].upload.Append(range, body);
      ghost var v := files[id].upload.Value();
      assert Records(files) == old(Records(files))[id := old(files[id].Value()).(upload := v)];
      assert v == old(files[id].upload.Value()) ==> Records(files) == old(Records(files));
    }

    /** Updates the record and the phase after a fresh chunk. */
    method Move(id: FileId, ghost upload: UploadState, outcome: AppendOutcome)
      requires Valid() && id in files && files[id].upload.Value() == upload
      modifies this`status, (files[id] as StoredFile)`descriptor
      ensures id in old(State()).files && State() == Moved(old(State()), id, upload, outcome)
    {
      var stored := files[id];
      stored.descriptor := stored.descriptor.(
        bytesTransferred := outcome.offset,
        status := if outcome.complete then Available else Uploading);
      status := Transferring;
      assert Records(files) == old(Records(files))[id := stored.Value()];
    }

    method UploadStatus(now: Instant, bearer: Option<Digest>, id: FileId) returns (r: Answer)
      requires Valid()
      ensures r == Probe(State(), now, bearer, id)
    {
      var supplied :- BearerHash(bearer);
      var _ :- EnsureActive(status, expiresAt, now);
      var _ :- RequirePhone(status, phoneHash, supplied, UploadFile);
      if id !in files {
        return Failure(NotFound);
      }
      var upload := files[id].upload;
      return Success(Uploaded(AppendOutcome(upload.Offset(), upload.IsComplete(), true)));
    }

    method DownloadFile(now: Instant, bearer: Option<Digest>, id: FileId) returns (r: Answer)
      requires Valid()
      modifies this`status, this`eventTickets, this`sequence, this`events, FootprintOf(id)
      ensures Valid() && (State(), r) == Downloading(old(State()), now, bearer, id)
    {
      var supplied :- BearerHash(bearer);
      var _ :- EnsureActive(status, expiresAt, now);
      var _ :- RequireDesktop(status, desktopHash, supplied, Operation.DownloadFile);
      if id !in files {
        return Failure(NotFound);
      }
      var stored := files[id];
      if !stored.upload.IsComplete() {
        return Failure(Conflict);
      }
      var content, contentType := stored.upload.bytes, ContentType(stored.descriptor.mediaType);
      Fetch(id);
      return Success(Content(contentType, content));
    }

    predicate EveryFileDownloaded()
      reads this, Objects(files)
      ensures EveryFileDownloaded() == AllDownloaded(Records(files))
    {
      assert forall i | i in files :: Records(files)[i].descriptor == files[i].descriptor;
      forall i | i in files :: files[i].descriptor.status.Downloaded?
    }

    method MarkFile(id: FileId)
      requires Valid() && id in files
      modifies (files[id] as StoredFile)`descriptor
      ensures Records(files) == MarkDownloaded(old(Records(files)), id)
    {
      files[id].descriptor := files[id].descriptor.(status := Downloaded);
    }

    method Fetch(id: FileId)
      requires Valid() && id in files
      modifies this`status, this`eventTickets, this`sequence, this`events, (files[id] as StoredFile)`descriptor
      ensures Valid() && State() == Fetched(old(State()), id)
    {
      MarkFile(id);
      if EveryFileDownloaded() {
        status := Complete;
        eventTickets := map[];
      }
      assert Records(files) == MarkDownloaded(old(Records(files)), id);
      PublishEvent(FileDownloaded, Some(id), Some(|files[id].upload.bytes|));
    }

    method CreateEventTicket(now: Instant, bearer: Option<Digest>, ticket: Digest) returns (r: Answer)
      requires Valid()
      modifies this`eventTickets
      ensures Valid() && (State(), r) == Minting(old(State()), now, bearer, ticket)
    {
      var supplied :- BearerHash(bearer);
      var _ :- EnsureActive(status, expiresAt, now);
      var _ :- RequireEither(status, desktopHash, phoneHash, supplied, MintEventTicket);
      var expiry := now + EVENT_TICKET_SECONDS;
      eventTickets := eventTickets[ticket := expiry];
      assert Records(files) == old(Records(files));
      return Success(TicketIssued(expiry));
    }

    method ConnectEvents(now: Instant, ticket: Digest) returns (r: Answer)
      requires Valid()
      modifies this`eventTickets
      ensures Valid() && (State(), r) == Connecting(old(State()), now, ticket)
    {
      var _ :- EnsureActive(status, expiresAt, now);
      var _ :- Authorize(status, EventTicket, RedeemEventTicket);
      if ticket !in eventTickets {
        return Failure(Unauthorized);
      }
      var expiry := eventTickets[ticket];
      eventTickets := eventTickets - {ticket};
      assert Records(files) == old(Records(files));
      if expiry <= now {
        return Failure(Unauthorized);
      }
      return Success(Subscribed);
    }
  }
}
