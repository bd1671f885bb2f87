/**
 An upload checks the tunnel, reads its body with nothing locked, and then commits. Whatever
 happens in between, it is as if the whole handler had run at the moment of the commit.
 */
module Atomicity {
  import opened Wrappers
  import opened ContentRanges
  import opened Uploads
  import opened TunnelModel
  import Bodies
  import Text
  import opened Invariants

  /** Committing late is the same as starting late: same answer, same tunnel. */
  lemma UploadIsAtomic(r: Run, task: nat)
    requires Legal(r) && task in After(r).uploads
    ensures var w := After(r);
            CommitUpload(w.tunnel, w.now, w.uploads[task]) ==
            WholeUpload(w.tunnel, w.now, w.uploads[task].request)
  {
    hide Step, StoreChunk, ReceiveBody;
    EveryRunIsOk(r);
    var t, p := After(r).tunnel, After(r).uploads[task];
    assert PendingOk(t, p);
    if p.request.fileId in t.files {
      assert RecordOk(p.request.fileId, t.files[p.request.fileId], t.maxFileBytes);
    }
  }

  /** What a commit can be refused for. */
  predicate IsLateRefusal(error: ApiError) {
    || error == ApiError.Expired || error == Conflict
    || (error.UploadConflict? && (error.error.Gap? || error.error.PartialOverlap? || error.error.ConflictingReplay?))
  }

  lemma LateCheck(t: TunnelState, now: Instant, p: PendingUpload)
    requires TunnelOk(t) && PendingOk(t, p)
    ensures var check := UploadCheck(t, now, p.supplied, p.request.fileId);
            check.Failure? ==> check.error == ApiError.Expired || check.error == Conflict
  {
    hide FilesOk, LimitsOk, EventsOk, ReceiveBody;
  }

  lemma LateChunk(t: TunnelState, id: FileId, range: ContentRange, body: seq<byte>)
    requires id in t.files && range.total == t.files[id].upload.total && |body| == Len(range)
    ensures var answer := StoreChunk(t, id, range, body).1; answer.Failure? ==> IsLateRefusal(answer.error)
  {
    hide WithChunk, Holds;
  }

  lemma LateRefusal(t: TunnelState, now: Instant, p: PendingUpload)
    requires TunnelOk(t) && PendingOk(t, p)
    ensures var answer := CommitUpload(t, now, p).1; answer.Failure? ==> IsLateRefusal(answer.error)
  {
    LateCheck(t, now, p);
    hide TunnelOk, ReceiveBody, StoreChunk, UploadCheck;
    BodyFits(p);
    if UploadCheck(t, now, p.supplied, p.request.fileId).Success? {
      CheckedIsLive(t, now, p.supplied, p.request.fileId);
      LateChunk(t, p.request.fileId, p.range, p.body);
    }
  }

  lemma CheckedIsLive(t: TunnelState, now: Instant, supplied: Digest, id: FileId)
    requires UploadCheck(t, now, supplied, id).Success?
    ensures id in t.files && !t.status.Cancelled?
  {
  }

  /**
   The second half can be refused for what happened meanwhile to the tunnel or to the buffer,
   but the secret is still the phone's, the file cannot be missing, its size cannot have changed,
   and the body always fits.
   */
  lemma LateRefusals(r: Run, task: nat)
    requires Legal(r) && task in After(r).uploads
    ensures var answer := CommitUpload(After(r).tunnel, After(r).now, After(r).uploads[task]).1;
            answer.Failure? ==> IsLateRefusal(answer.error)
  {
    hide Step, CommitUpload, TunnelOk, PendingOk;
    EveryRunIsOk(r);
    LateRefusal(After(r).tunnel, After(r).now, After(r).uploads[task]);
  }

  /** Two requests that differ only in how their bodies are cut into stream chunks. */
  predicate SameButForChunking(one: UploadRequest, other: UploadRequest) {
    && one.bearer == other.bearer && one.fileId == other.fileId && one.header == other.header
    && Bodies.AllChunks(one.body) && Bodies.AllChunks(other.body)
    && Bodies.Flatten(one.body) == Bodies.Flatten(other.body)
  }

  lemma ChunkingReceivesTheSame(one: UploadRequest, other: UploadRequest, supplied: Digest, size: Text.u64)
    requires SameButForChunking(one, other) && size < USIZE_MAX
    ensures match ReceiveBody(one, supplied, size)
            case Failure(error) => ReceiveBody(other, supplied, size) == Failure(error)
            case Success(p) =>
              p.request == one && p.supplied == supplied
              && ReceiveBody(other, supplied, size) == Success(p.(request := other))
  {
    var range := RangeFor(one.header, size);
    if range.Success? {
      RangeWithinSize(one.header, size);
      Bodies.ChunkingIsInvisible(one.body, other.body, Len(range.value));
    }
    hide RangeFor, Bodies.Collected, Bodies.Flatten, Bodies.AllChunks;
  }

  /** The way a client cuts its body into stream chunks is invisible to the whole handler. */
  lemma ChunkingIsInvisible(t: TunnelState, now: Instant, one: UploadRequest, other: UploadRequest)
    requires TunnelOk(t) && SameButForChunking(one, other)
    ensures WholeUpload(t, now, one) == WholeUpload(t, now, other)
  {
    hide ReceiveBody, StoreChunk, EventsOk, PhaseOk;
    if one.fileId in t.files && one.bearer.Some? {
      assert RecordOk(one.fileId, t.files[one.fileId], t.maxFileBytes);
      ChunkingReceivesTheSame(one, other, one.bearer.value, t.files[one.fileId].descriptor.sizeBytes);
    }
  }

  lemma RangeWithinSize(header: RangeHeader, size: Text.u64)
    requires RangeFor(header, size).Success?
    ensures RangeFor(header, size).value.total == size
  {
    if header.Field? {
      ParsedIsCanonical(header.text, size);
    }
  }

  /** The request for one piece, with its range in canonical form. */
  function PieceRequest(bearer: Option<Digest>, id: FileId, range: ContentRange, body: seq<byte>): UploadRequest
    requires range.start < range.endExclusive
  {
    UploadRequest(bearer, id, Field(Print(range)), [Bodies.Chunk(body)])
  }

  /**
   A client that probes and sends the next bytes at the probed offset is always accepted, and
   its progress is acknowledged exactly.
   */
  lemma ResumeIsAccepted(t: TunnelState, now: Instant, bearer: Option<Digest>, id: FileId,
                         probed: AppendOutcome, range: ContentRange, body: seq<byte>)
    requires TunnelOk(t) && Probe(t, now, bearer, id) == Success(Uploaded(probed))
    requires range.start == probed.offset && range.start < range.endExclusive && |body| == Len(range)
    requires id in t.files && range.total == t.files[id].descriptor.sizeBytes
    ensures WholeUpload(t, now, PieceRequest(bearer, id, range, body)).1 ==
            Success(Uploaded(AppendOutcome(range.endExclusive, range.endExclusive == range.total, false)))
  {
    hide TunnelOk, Probe, PieceRequest, ReceiveBody, UploadCheck, StoreChunk, WholeUpload;
    ProbeTells(t, now, bearer, id, probed);
    TotalIsSize(t, id);
    PieceIsReceived(bearer, bearer.value, id, range, body);
    var q := PieceRequest(bearer, id, range, body);
    ReceivedIsStored(t, now, q, PendingUpload(q, bearer.value, range, body));
    StoredAtOffset(t, id, range, body);
  }

  lemma ProbeTells(t: TunnelState, now: Instant, bearer: Option<Digest>, id: FileId, probed: AppendOutcome)
    requires Probe(t, now, bearer, id) == Success(Uploaded(probed))
    ensures bearer.Some? && id in t.files && UploadCheck(t, now, bearer.value, id) == Success(t.files[id])
    ensures probed.offset == t.files[id].upload.Offset()
  {
  }

  lemma TotalIsSize(t: TunnelState, id: FileId)
    requires TunnelOk(t) && id in t.files
    ensures t.files[id].upload.total == t.files[id].descriptor.sizeBytes
  {
    assert RecordOk(id, t.files[id], t.maxFileBytes);
  }

  lemma ReceivedIsStored(t: TunnelState, now: Instant, q: UploadRequest, p: PendingUpload)
    requires q.bearer == Some(p.supplied) && q == p.request && q.fileId in t.files
    requires UploadCheck(t, now, p.supplied, q.fileId) == Success(t.files[q.fileId])
    requires ReceiveBody(q, p.supplied, t.files[q.fileId].descriptor.sizeBytes) == Success(p)
    ensures WholeUpload(t, now, q) == StoreChunk(t, q.fileId, p.range, p.body)
  {
    hide UploadCheck, ReceiveBody, StoreChunk;
  }

  lemma PieceIsReceived(bearer: Option<Digest>, supplied: Digest, id: FileId, range: ContentRange, body: seq<byte>)
    requires range.start < range.endExclusive && |body| == Len(range)
    ensures var q := PieceRequest(bearer, id, range, body);
            q.bearer == bearer && q.fileId == id
            && ReceiveBody(q, supplied, range.total) == Success(PendingUpload(q, supplied, range, body))
  {
    hide Parse, Print, Bodies.Collected;
    EveryRangeIsProduced(range);
    SingleChunk(body);
  }

  lemma StoredAtOffset(t: TunnelState, id: FileId, range: ContentRange, body: seq<byte>)
    requires id in t.files && |body| == Len(range)
    requires range.start == t.files[id].upload.Offset() && range.total == t.files[id].upload.total
    ensures StoreChunk(t, id, range, body).1 == Success(Uploaded(Outcome(Extended(t.files[id].upload, body), false)))
  {
    hide AppendTo, WithChunk;
    AppendsAtOffset(t.files[id].upload, range, body);
  }

  lemma SingleChunk(body: seq<byte>)
    requires |body| <= USIZE_MAX
    ensures Bodies.Collected([Bodies.Chunk(body)], |body|) == Success(body)
  {
    var stream := [Bodies.Chunk(body)];
    var nothing: seq<byte> := [];
    assert nothing + body == body;
    assert Bodies.CollectAfter(nothing, stream, |body|) == Bodies.CollectAfter(body, stream[1..], |body|);
  }

  // --------------------------------------------------------------- whole schedules

  /** The state of a server that runs every upload in one piece, at its commit. */
  datatype Serial = Serial(tunnel: TunnelState, now: Instant, waiting: map<nat, UploadRequest>)

  function SerialStep(s: Serial, q: Request): Serial {
    match q
    case UploadBegins(task, upload) =>
      if BeginUpload(s.tunnel, s.now, upload).Success? then s.(waiting := s.waiting[task := upload]) else s
    case UploadCommits(task) =>
      if task in s.waiting then
        s.(tunnel := WholeUpload(s.tunnel, s.now, s.waiting[task]).0, waiting := s.waiting - {task})
      else s
    case _ =>
      var w := Step(World(s.tunnel, s.now, map[]), q).0;
      s.(tunnel := w.tunnel, now := w.now)
  }

  function Serially(r: Run): Serial {
    match r
    case Created(creation, at, pairing, desktop) => Serial(NewTunnel(creation, at, pairing, desktop), at, map[])
    case Then(before, request) => SerialStep(Serially(before), request)
  }

  function RequestsOf(uploads: map<nat, PendingUpload>): map<nat, UploadRequest> {
    map task | task in uploads :: uploads[task].request
  }

  lemma StepIsSerial(w: World, q: Request)
    requires q.UploadCommits? && q.task in w.uploads ==>
               CommitUpload(w.tunnel, w.now, w.uploads[q.task]) ==
               WholeUpload(w.tunnel, w.now, w.uploads[q.task].request)
    ensures var v := Step(w, q).0;
            SerialStep(Serial(w.tunnel, w.now, RequestsOf(w.uploads)), q) ==
            Serial(v.tunnel, v.now, RequestsOf(v.uploads))
  {
    hide CommitUpload, WholeUpload, BeginUpload, Probe;
    hide Claiming, Reading, Cancelling, Declaring, Downloading, Minting, Connecting;
    match q
    case UploadBegins(task, upload) =>
      if BeginUpload(w.tunnel, w.now, upload).Success? {
        BegunRemembers(w.tunnel, w.now, upload);
        var p := BeginUpload(w.tunnel, w.now, upload).value;
        assert RequestsOf(w.uploads[task := p]) == RequestsOf(w.uploads)[task := upload];
      }
    case UploadCommits(task) =>
      assert RequestsOf(w.uploads - {task}) == RequestsOf(w.uploads) - {task};
    case _ =>
  }

  lemma BegunRemembers(t: TunnelState, now: Instant, q: UploadRequest)
    requires BeginUpload(t, now, q).Success?
    ensures BeginUpload(t, now, q).value.request == q
  {
  }

  /** Every interleaved run leaves exactly what the uninterrupted schedule leaves. */
  lemma {:induction false} InterleavingIsInvisible(r: Run)
    requires Legal(r)
    ensures Serially(r) == Serial(After(r).tunnel, After(r).now, RequestsOf(After(r).uploads))
  {
    hide Step, SerialStep, CommitUpload, WholeUpload;
    if r.Then? {
      InterleavingIsInvisible(r.before);
      if r.request.UploadCommits? && r.request.task in After(r.before).uploads {
        UploadIsAtomic(r.before, r.request.task);
      }
      StepIsSerial(After(r.before), r.request);
    }
  }
}
