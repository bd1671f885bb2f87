/**
 Concrete runs: an ordinary transfer, and the empty file whose second upload no event and no
 protocol action accounts for.
 */
module Witnesses {
  import opened Wrappers
  import opened Capabilities
  import opened Uploads
  import opened Bodies
  import opened Declarations
  import opened TunnelModel
  import opened Changes
  import opened Invariants
  import opened Lifecycle
  import Atomicity
  import ContentRanges
  import Text
  import EventLog
  import Integrity
  import Refinement
  import S = SetProtocol

  const PAIRING: Digest := 1
  const DESKTOP: Digest := 2
  const PHONE: Digest := 3
  const FIRST: FileId := 7
  const SECOND: FileId := 8

  /** Bodies that fit the file limit of these runs. */
  type SmallBody = body: seq<byte> | |body| <= 10

  function Start(): Run {
    Then(Created(CreateRequest("app", ["*/*"], 2, 10, 60), 0, PAIRING, DESKTOP), ClaimRequest(PAIRING, PHONE))
  }

  function Declaration(size: Text.u64): FileDeclaration {
    FileDeclaration("a", "t", size, None)
  }

  function Declaring(r: Run, id: FileId, size: Text.u64): Run {
    Then(r, DeclareRequest(Some(PHONE), id, Declaration(size)))
  }

  /** A PUT without a range, begun and committed. */
  function Putting(r: Run, id: FileId, body: SmallBody): Run {
    Then(Then(r, UploadBegins(0, WholeFile(id, body).request)), UploadCommits(0))
  }

  function Fetching(r: Run, id: FileId): Run {
    Then(r, DownloadRequest(Some(DESKTOP), id))
  }

  /** A tunnel in use by the phone and the desktop of these runs, at time 0 of 60. */
  predicate InUse(w: World) {
    && w.now == 0 && w.tunnel.expiresAt == 60 && IsOpen(w.tunnel.status)
    && w.tunnel.desktop == DESKTOP && w.tunnel.phone == Some(PHONE) && w.uploads == map[]
    && w.tunnel.maxFiles == 2 && w.tunnel.maxFileBytes == 10 && w.tunnel.accept == ["*/*"]
  }

  lemma StartIsInUse()
    ensures Legal(Start()) && InUse(After(Start())) && After(Start()).tunnel.files == map[]
  {
    assert Utf8Length("app") == 3;
  }

  lemma DeclaringIsAdmitted(t: TunnelState, size: Text.u64)
    requires InUse(World(t, 0, map[])) && |t.files| < 2 && size <= 10
    ensures DeclareCheck(t, 0, Some(PHONE), Declaration(size)).Success?
  {
    assert Utf8Length("a") == 1;
    assert PatternAccepts(["*/*"][0], "t");
    assert MediaIsAccepted(["*/*"], "t");
  }

  lemma DeclaringWorks(r: Run, id: FileId, size: Text.u64)
    requires Legal(r) && InUse(After(r)) && id !in After(r).tunnel.files && |After(r).tunnel.files| < 2 && size <= 10
    ensures var next := Declaring(r, id, size);
            && Legal(next) && InUse(After(next)) && LastChange(next) == Declares(id, Declaration(size))
            && After(next).tunnel.files == After(r).tunnel.files[id := NewRecord(id, Declaration(size), 0)]
  {
    hide DeclareCheck;
    DeclaringIsAdmitted(After(r).tunnel, size);
  }

  /** A whole file sent in one request, up to its commit. */
  function WholeFile(id: FileId, body: SmallBody): PendingUpload {
    var q := UploadRequest(Some(PHONE), id, NoHeader, [Chunk(body)]);
    PendingUpload(q, PHONE, ContentRanges.Whole(|body|), body)
  }

  predicate IsEmptyYet(t: TunnelState, id: FileId, body: SmallBody) {
    && id in t.files && t.files[id].upload == UploadState(|body|, [])
    && t.files[id].descriptor.sizeBytes == |body|
  }

  lemma BeginningWorks(t: TunnelState, id: FileId, body: SmallBody)
    requires InUse(World(t, 0, map[])) && IsEmptyYet(t, id, body)
    ensures BeginUpload(t, 0, WholeFile(id, body).request) == Success(WholeFile(id, body))
  {
    hide Collected;
    OneChunk(body);
  }

  lemma WholeIsFresh(body: SmallBody)
    ensures AppendTo(UploadState(|body|, []), ContentRanges.Whole(|body|), body).1.Success?
    ensures !AppendTo(UploadState(|body|, []), ContentRanges.Whole(|body|), body).1.value.replayed
  {
  }

  lemma UploadIsChecked(t: TunnelState, id: FileId)
    requires InUse(World(t, 0, map[])) && id in t.files
    ensures UploadCheck(t, 0, PHONE, id).Success?
  {
  }

  lemma CommittingWorks(t: TunnelState, id: FileId, body: SmallBody)
    requires InUse(World(t, 0, map[])) && IsEmptyYet(t, id, body)
    ensures StoredFresh(CommitUpload(t, 0, WholeFile(id, body)).1)
    ensures Possible(t, Appends(id, body))
  {
    hide InUse, UploadCheck, AppendTo, WithChunk, Appended;
    UploadIsChecked(t, id);
    WholeIsFresh(body);
    CommitIsChange(t, 0, WholeFile(id, body));
  }

  lemma AppendingStaysInUse(t: TunnelState, id: FileId, body: SmallBody)
    requires InUse(World(t, 0, map[])) && Possible(t, Appends(id, body))
    ensures InUse(World(Appended(t, id, body), 0, map[]))
  {
    hide Appended;
    PartsAfter(t, 0, Appends(id, body));
  }

  lemma BeganIs(r: Run, id: FileId, body: SmallBody)
    requires Legal(r) && InUse(After(r)) && IsEmptyYet(After(r).tunnel, id, body)
    ensures Legal(Putting(r, id, body).before)
    ensures After(Putting(r, id, body).before) == World(After(r).tunnel, 0, map[0 := WholeFile(id, body)])
  {
    hide BeginUpload;
    BeginningWorks(After(r).tunnel, id, body);
  }

  lemma CommitStep(w: World, id: FileId, body: SmallBody)
    requires w.uploads == map[0 := WholeFile(id, body)] && w.now == 0
    requires InUse(w.(uploads := map[])) && IsEmptyYet(w.tunnel, id, body)
    ensures ChangeOf(w, UploadCommits(0)) == Appends(id, body)
    ensures InUse(Step(w, UploadCommits(0)).0)
    ensures Possible(w.tunnel, Appends(id, body))
    ensures Step(w, UploadCommits(0)).0.tunnel == Appended(w.tunnel, id, body)
  {
    hide CommitUpload, Appended;
    CommittingWorks(w.tunnel, id, body);
    AppendingStaysInUse(w.tunnel, id, body);
    CommitIsChange(w.tunnel, 0, WholeFile(id, body));
  }

  /** A whole file sent in one request to a file with nothing in it yet. */
  lemma PuttingWorks(r: Run, id: FileId, body: SmallBody)
    requires Legal(r) && InUse(After(r)) && IsEmptyYet(After(r).tunnel, id, body)
    ensures var next := Putting(r, id, body);
            && Legal(next) && InUse(After(next)) && LastChange(next) == Appends(id, body)
            && After(next).tunnel.files.Keys == After(r).tunnel.files.Keys
            && (forall i | i in After(r).tunnel.files ::
                  After(next).tunnel.files[i] == RecordAfter(After(r).tunnel.files[i], i, Appends(id, body)))
  {
    hide Step, ChangeOf, Appended, IsEmptyYet;
    BeganIs(r, id, body);
    CommitStep(After(Putting(r, id, body).before), id, body);
    FilesAfter(After(r).tunnel, 0, Appends(id, body));
  }

  lemma OneChunk(body: SmallBody)
    ensures Collected([Chunk(body)], |body|) == Success(body)
  {
    Atomicity.SingleChunk(body);
  }

  lemma FetchingWorks(r: Run, id: FileId)
    requires Legal(r) && InUse(After(r)) && id in After(r).tunnel.files && After(r).tunnel.files[id].upload.IsComplete()
    ensures var next := Fetching(r, id);
            && Legal(next) && LastChange(next) == Fetches(id)
            && Integrity.Delivered(next, id, After(r).tunnel.files[id].upload.bytes)
            && After(next).tunnel.files == MarkDownloaded(After(r).tunnel.files, id)
            && (if AllDownloaded(After(next).tunnel.files) then After(next).tunnel.status.Complete?
                else InUse(After(next)))
  {
    hide Step, ChangeOf, Fetched, AllDownloaded, MarkDownloaded, Integrity.ContentReturned;
    FetchStep(After(r), id);
  }

  lemma FetchStep(w: World, id: FileId)
    requires InUse(w) && id in w.tunnel.files && w.tunnel.files[id].upload.IsComplete()
    ensures var q := DownloadRequest(Some(DESKTOP), id);
            && Integrity.ContentReturned(w, q, id, w.tunnel.files[id].upload.bytes)
            && ChangeOf(w, q) == Fetches(id)
            && var next := Step(w, q).0;
            && next.tunnel.files == MarkDownloaded(w.tunnel.files, id)
            && (if AllDownloaded(next.tunnel.files) then next.tunnel.status.Complete? else InUse(next))
  {
    hide Fetched, AllDownloaded, MarkDownloaded;
    PublishOnlyLogs();
    FetchedIs(w.tunnel, id);
  }

  lemma FetchedIs(t: TunnelState, id: FileId)
    requires id in t.files
    ensures var files := MarkDownloaded(t.files, id);
            && Fetched(t, id).files == files
            && var marked := t.(files := files);
            Fetched(t, id) == (if AllDownloaded(files) then marked.(status := Complete, tickets := map[]) else marked)
                              .(sequence := Fetched(t, id).sequence, events := Fetched(t, id).events)
  {
    hide AllDownloaded, MarkDownloaded;
  }

  // ------------------------------------------------------------- an ordinary transfer

  function Transfer(body: SmallBody): Run
  {
    Fetching(Putting(Declaring(Start(), FIRST, |body|), FIRST, body), FIRST)
  }

  /** Pair, declare, upload, download: the desktop gets the bytes and the tunnel is complete. */
  lemma TransferSucceeds(body: SmallBody)
    ensures Legal(Transfer(body)) && Integrity.Delivered(Transfer(body), FIRST, body)
    ensures After(Transfer(body)).tunnel.status.Complete?
  {
    hide Legal, After, InUse, Start, Declaring, Putting, Fetching, LastChange, Integrity.Delivered;
    var declared := Declaring(Start(), FIRST, |body|);
    StartIsInUse();
    DeclaringWorks(Start(), FIRST, |body|);
    PuttingWorks(declared, FIRST, body);
    FetchingWorks(Putting(declared, FIRST, body), FIRST);
    assert [] + body == body;
  }

  // ------------------------------------------------------------------ the empty file

  function EmptyUpload(): Run {
    Putting(Declaring(Start(), FIRST, 0), FIRST, [])
  }

  lemma EmptyUploadWorks()
    ensures Legal(EmptyUpload()) && InUse(After(EmptyUpload()))
    ensures After(EmptyUpload()).tunnel.files.Keys == {FIRST}
    ensures var f := After(EmptyUpload()).tunnel.files[FIRST];
            f.upload == UploadState(0, []) && f.descriptor.sizeBytes == 0 && f.descriptor.status == Available
  {
    hide Legal, After, InUse, Start, Declaring, Putting, LastChange;
    var declared := Declaring(Start(), FIRST, 0);
    StartIsInUse();
    DeclaringWorks(Start(), FIRST, 0);
    PuttingWorks(declared, FIRST, []);
  }

  lemma QuietIsSeenUploading(t: TunnelState)
    requires EventLog.InStep(t) && FIRST in t.files && EventLog.IsQuietlyAvailable(t.files[FIRST])
    ensures FIRST in EventLog.Watch(t.events).files && EventLog.Watch(t.events).files[FIRST].status == Uploading
  {
    hide EventLog.Watch;
    assert EventLog.SeenFiles(t.files)[FIRST].status == Uploading;
  }

  /** A client that watched every event does not know that an uploaded empty file is available. */
  lemma EmptyUploadIsNotAnnounced()
    ensures Legal(EmptyUpload())
    ensures var t := After(EmptyUpload()).tunnel;
            && FIRST in t.files && t.files[FIRST].descriptor.status == Available
            && FIRST in EventLog.Watch(t.events).files && EventLog.Watch(t.events).files[FIRST].status == Uploading
  {
    hide *;
    EmptyUploadWorks();
    EventLog.WatchingIsInStep(EmptyUpload());
    assert EventLog.IsQuietlyAvailable(After(EmptyUpload()).tunnel.files[FIRST]) by {
      IsQuiet(After(EmptyUpload()).tunnel.files[FIRST]);
    }
    QuietIsSeenUploading(After(EmptyUpload()).tunnel);
  }

  lemma IsQuiet(f: FileRecord)
    requires f.descriptor.sizeBytes == 0 && f.descriptor.status == Available
    ensures EventLog.IsQuietlyAvailable(f)
  {
  }

  function EmptyFetched(): Run {
    Fetching(Declaring(EmptyUpload(), SECOND, 1), FIRST)
  }

  lemma EmptyFetchedWorks()
    ensures Legal(EmptyFetched()) && InUse(After(EmptyFetched()))
    ensures FIRST in After(EmptyFetched()).tunnel.files
    ensures var f := After(EmptyFetched()).tunnel.files[FIRST];
            f.upload == UploadState(0, []) && f.descriptor.sizeBytes == 0 && f.descriptor.status == Downloaded
  {
    hide Legal, After, InUse, EmptyUpload, Declaring, Fetching, LastChange, Integrity.Delivered;
    var declared := Declaring(EmptyUpload(), SECOND, 1);
    EmptyUploadWorks();
    DeclaringWorks(EmptyUpload(), SECOND, 1);
    FetchingWorks(declared, FIRST);
    assert !After(EmptyFetched()).tunnel.files[SECOND].descriptor.status.Downloaded?;
  }

  lemma PuttingReopens(r: Run, id: FileId)
    requires Legal(r) && InUse(After(r)) && id in After(r).tunnel.files
    requires var f := After(r).tunnel.files[id];
             f.upload == UploadState(0, []) && f.descriptor.sizeBytes == 0 && f.descriptor.status == Downloaded
    ensures var again := Putting(r, id, []);
            && Legal(again) && !Refinement.NeverReopens(again)
            && id in After(again).tunnel.files && After(again).tunnel.files[id].descriptor.status == Available
  {
    hide Legal, After, InUse, LastChange, Step, ResendsEmptyFile;
    PuttingWorks(r, id, []);
    BeginningChangesNothing(r, Putting(r, id, []).before.request);
    var again := Putting(r, id, []);
    LastStep(again);
    ReopeningIsForeseen(After(again.before), again.request);
    assert LastChange(again) == ChangeOf(After(again.before), again.request) by { ChangeIsOfLast(again); }
  }

  /** An empty file that was downloaded is uploaded again and becomes available again. */
  lemma EmptyFileReopens()
    ensures var again := Putting(EmptyFetched(), FIRST, []);
            && Legal(again) && !Refinement.NeverReopens(again)
            && FIRST in After(again).tunnel.files && After(again).tunnel.files[FIRST].descriptor.status == Available
  {
    hide *;
    EmptyFetchedWorks();
    PuttingReopens(EmptyFetched(), FIRST);
  }

  lemma ChangeIsOfLast(r: Run)
    requires r.Then?
    ensures LastChange(r) == ChangeOf(After(r.before), r.request)
  {
    hide ChangeOf;
  }

  lemma BeginningChangesNothing(before: Run, q: Request)
    requires q.UploadBegins?
    ensures After(Then(before, q)).tunnel == After(before).tunnel
  {
  }

  /** So no run of the protocol, over any domain, follows that run. */
  lemma EmptyFileBreaksRefinement(d: S.Domain, a: S.SetState)
    ensures !Refinement.Follows(d, Putting(EmptyFetched(), FIRST, []), a)
  {
    EmptyFileReopens();
    if Refinement.Follows(d, Putting(EmptyFetched(), FIRST, []), a) {
      Refinement.FollowedNeverReopens(d, Putting(EmptyFetched(), FIRST, []), a);
    }
  }
}
