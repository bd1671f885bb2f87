/**
 Nothing a client did so far can spoil a transfer: as long as a tunnel is open, every file in it
 can still be uploaded to the end and delivered.
 */
module Reachability {
  import opened Wrappers
  import opened Capabilities
  import opened ContentRanges
  import opened Uploads
  import opened TunnelModel
  import opened Changes
  import opened Invariants
  import opened Lifecycle
  import opened Integrity
  import Atomicity
  import Text

  /** A tunnel in which files move, before its time is over. */
  predicate IsLive(w: World) {
    IsOpen(w.tunnel.status) && w.now < w.tunnel.expiresAt
  }

  lemma LiveHasPhone(r: Run)
    requires Legal(r) && IsLive(After(r))
    ensures After(r).tunnel.phone.Some?
  {
    EveryRunIsOk(r);
  }

  lemma ExtendsOnward(r: Run, s: Run, t: Run)
    requires Extends(r, s) && Extends(s, t)
    ensures Extends(r, t)
  {
  }

  // ------------------------------------------------------------- finishing one upload

  lemma FreshTask(tasks: set<nat>) returns (task: nat)
    ensures task !in tasks
  {
    var below := AllBelow(tasks);
    task := below;
  }

  lemma {:induction false} AllBelow(tasks: set<nat>) returns (bound: nat)
    ensures forall k | k in tasks :: k < bound
    decreases tasks
  {
    if tasks == {} {
      bound := 0;
    } else {
      var k :| k in tasks;
      var rest := AllBelow(tasks - {k});
      bound := if rest > k then rest else k + 1;
      assert forall j | j in tasks :: j == k || j in tasks - {k};
    }
  }

  /** The files after the rest of one has been stored. */
  predicate IsFinished(before: map<FileId, FileRecord>, id: FileId, source: seq<byte>, after: map<FileId, FileRecord>) {
    && after.Keys == before.Keys && id in after
    && after[id].upload.bytes == source && after[id].upload.IsComplete()
    && (forall i | i in before && i != id :: after[i] == before[i])
    && after[id].descriptor.sizeBytes == before[id].descriptor.sizeBytes
  }

  /** The rest of a file in one piece, at its offset. */
  function RestOf(phone: Digest, id: FileId, offset: nat, source: seq<byte>): (p: PendingUpload)
    requires offset < |source| <= Text.U64_MAX
    ensures p.request.fileId == id && p.supplied == phone
  {
    var range: ContentRange := RawRange(offset, |source|, |source|);
    var body := source[offset..];
    PendingUpload(Atomicity.PieceRequest(Some(phone), id, range, body), phone, range, body)
  }

  /** The phone can begin to send the rest of a file of which the server has a proper prefix. */
  predicate CanFinish(w: World, phone: Digest, id: FileId, source: seq<byte>) {
    && IsLive(w) && w.tunnel.phone == Some(phone) && id in w.tunnel.files
    && var f := w.tunnel.files[id];
    && |source| <= Text.U64_MAX && f.descriptor.sizeBytes == f.upload.total == |source|
    && f.upload.bytes < source
  }

  lemma PhoneMayUpload(w: World, phone: Digest, id: FileId, source: seq<byte>)
    requires CanFinish(w, phone, id, source)
    ensures UploadCheck(w.tunnel, w.now, phone, id) == Success(w.tunnel.files[id])
    ensures w.tunnel.files[id].descriptor.sizeBytes == |source|
  {
  }

  lemma RestFits(phone: Digest, id: FileId, offset: nat, source: seq<byte>)
    requires offset < |source| <= Text.U64_MAX
    ensures var p := RestOf(phone, id, offset, source);
            p.request.bearer == Some(phone) && ReceiveBody(p.request, phone, |source|) == Success(p)
  {
    hide ReceiveBody;
    var p := RestOf(phone, id, offset, source);
    Atomicity.PieceIsReceived(Some(phone), phone, id, p.range, p.body);
  }

  lemma RestIsReceived(w: World, phone: Digest, id: FileId, source: seq<byte>)
    requires CanFinish(w, phone, id, source)
    ensures var p := RestOf(phone, id, w.tunnel.files[id].upload.Offset(), source);
            BeginUpload(w.tunnel, w.now, p.request) == Success(p)
  {
    CanFinishMeans(w, phone, id, source);
    hide CanFinish, RestOf, ReceiveBody, UploadCheck;
    PhoneMayUpload(w, phone, id, source);
    RestFits(phone, id, w.tunnel.files[id].upload.Offset(), source);
  }

  lemma RestIsStored(w: World, phone: Digest, id: FileId, source: seq<byte>)
    requires CanFinish(w, phone, id, source)
    ensures var p := RestOf(phone, id, w.tunnel.files[id].upload.Offset(), source);
            && StoredFresh(CommitUpload(w.tunnel, w.now, p).1)
            && Extended(w.tunnel.files[id].upload, p.body).bytes == source
  {
    var u := w.tunnel.files[id].upload;
    var p := RestOf(phone, id, u.Offset(), source);
    hide AppendTo, WithChunk, Atomicity.PieceRequest;
    AppendsAtOffset(u, p.range, p.body);
    assert u.bytes == source[..u.Offset()];
  }

  /** The world between the two halves. */
  lemma RestBegins(w: World, phone: Digest, id: FileId, source: seq<byte>, task: nat)
    requires CanFinish(w, phone, id, source)
    ensures var p := RestOf(phone, id, w.tunnel.files[id].upload.Offset(), source);
            Step(w, UploadBegins(task, p.request)).0 == w.(uploads := w.uploads[task := p])
  {
    hide BeginUpload, CanFinish, RestOf;
    RestIsReceived(w, phone, id, source);
  }

  lemma RestCommits(w: World, phone: Digest, id: FileId, source: seq<byte>, task: nat)
    requires CanFinish(w, phone, id, source) && task in w.uploads
    requires w.uploads[task] == RestOf(phone, id, w.tunnel.files[id].upload.Offset(), source)
    ensures ChangeOf(w, UploadCommits(task)) == Appends(id, w.uploads[task].body)
    ensures Extended(w.tunnel.files[id].upload, w.uploads[task].body) == UploadState(|source|, source)
    ensures Step(w, UploadCommits(task)).0.now == w.now
  {
    hide CommitUpload;
    RestIsStored(w, phone, id, source);
  }

  lemma StoredIsFinished(t: TunnelState, now: Instant, id: FileId, body: seq<byte>, source: seq<byte>)
    requires Possible(t, Appends(id, body)) && Extended(t.files[id].upload, body) == UploadState(|source|, source)
    ensures var u := Changed(t, now, Appends(id, body));
            && IsFinished(t.files, id, source, u.files)
            && IsOpen(u.status) && u.expiresAt == t.expiresAt && u.phone == t.phone
  {
    hide Changed, Extended;
    FilesAfter(t, now, Appends(id, body));
    PartsAfter(t, now, Appends(id, body));
  }

  lemma FinishOne(r: Run, id: FileId, source: seq<byte>) returns (s: Run)
    requires Legal(r) && After(r).tunnel.phone.Some?
    requires CanFinish(After(r), After(r).tunnel.phone.value, id, source)
    ensures Legal(s) && Extends(r, s) && IsLive(After(s)) && After(s).tunnel.phone == After(r).tunnel.phone
    ensures IsFinished(After(r).tunnel.files, id, source, After(s).tunnel.files)
  {
    hide Step, ChangeOf, Changed, CanFinish, RestOf, WorldOk, IsFinished, Extended, Possible;
    var w, phone := After(r), After(r).tunnel.phone.value;
    CanFinishMeans(w, phone, id, source);
    var p := RestOf(phone, id, w.tunnel.files[id].upload.Offset(), source);
    var task := FreshTask(w.uploads.Keys);
    var begun := Then(r, UploadBegins(task, p.request));
    RestBegins(w, phone, id, source, task);
    s := Then(begun, UploadCommits(task));
    SameTunnelCanFinish(w, After(begun), phone, id, source);
    RestCommits(After(begun), phone, id, source, task);
    LastStep(s);
    assert LastChange(s) == Appends(id, p.body);
    StoredIsFinished(w.tunnel, w.now, id, p.body, source);
    assert Extends(r, begun) && Extends(begun, s);
    ExtendsOnward(r, begun, s);
  }

  lemma CanFinishMeans(w: World, phone: Digest, id: FileId, source: seq<byte>)
    requires CanFinish(w, phone, id, source)
    ensures id in w.tunnel.files && IsLive(w) && w.tunnel.files[id].upload.Offset() < |source| <= Text.U64_MAX
  {
  }

  lemma SameTunnelCanFinish(w: World, v: World, phone: Digest, id: FileId, source: seq<byte>)
    requires CanFinish(w, phone, id, source) && v.tunnel == w.tunnel && v.now == w.now
    ensures CanFinish(v, phone, id, source)
  {
  }

  // ------------------------------------------------------------- finishing all uploads

  /** Every file still holds a prefix of the source meant for it. */
  predicate HoldPrefixes(files: map<FileId, FileRecord>, sources: map<FileId, seq<byte>>) {
    forall id | id in files ::
      id in sources && files[id].descriptor.sizeBytes == |sources[id]| && files[id].upload.bytes <= sources[id]
  }

  function Incomplete(files: map<FileId, FileRecord>): set<FileId> {
    set id | id in files && !files[id].upload.IsComplete()
  }

  lemma FinishedFiles(before: map<FileId, FileRecord>, id: FileId, after: map<FileId, FileRecord>,
                      sources: map<FileId, seq<byte>>)
    requires HoldPrefixes(before, sources) && id in Incomplete(before)
    requires IsFinished(before, id, sources[id], after)
    ensures HoldPrefixes(after, sources) && Incomplete(after) == Incomplete(before) - {id}
  {
  }

  lemma PrefixCanFinish(r: Run, id: FileId, sources: map<FileId, seq<byte>>)
    requires Legal(r) && IsLive(After(r)) && After(r).tunnel.phone.Some?
    requires HoldPrefixes(After(r).tunnel.files, sources) && id in Incomplete(After(r).tunnel.files)
    ensures CanFinish(After(r), After(r).tunnel.phone.value, id, sources[id])
  {
    EveryRunIsOk(r);
    var t := After(r).tunnel;
    hide Step, TunnelOk;
    assert RecordOk(id, t.files[id], t.maxFileBytes) by { FilesAreOk(t, id); }
  }

  lemma FilesAreOk(t: TunnelState, id: FileId)
    requires TunnelOk(t) && id in t.files
    ensures RecordOk(id, t.files[id], t.maxFileBytes)
  {
  }

  lemma {:induction false} FinishAll(r: Run, sources: map<FileId, seq<byte>>) returns (s: Run)
    requires Legal(r) && IsLive(After(r)) && HoldPrefixes(After(r).tunnel.files, sources)
    ensures Legal(s) && Extends(r, s) && IsLive(After(s)) && HoldPrefixes(After(s).tunnel.files, sources)
    ensures Incomplete(After(s).tunnel.files) == {} && After(s).tunnel.files.Keys == After(r).tunnel.files.Keys
    decreases Incomplete(After(r).tunnel.files)
  {
    hide Legal, After, IsLive, HoldPrefixes, Incomplete, CanFinish;
    var todo := Incomplete(After(r).tunnel.files);
    if todo == {} {
      s := r;
    } else {
      var id :| id in todo;
      LiveHasPhone(r);
      PrefixCanFinish(r, id, sources);
      PrefixHasSource(After(r).tunnel.files, id, sources);
      var one := FinishOne(r, id, sources[id]);
      FinishedFiles(After(r).tunnel.files, id, After(one).tunnel.files, sources);
      s := FinishAll(one, sources);
      ExtendsOnward(r, one, s);
    }
  }

  lemma PrefixHasSource(files: map<FileId, FileRecord>, id: FileId, sources: map<FileId, seq<byte>>)
    requires HoldPrefixes(files, sources) && id in Incomplete(files)
    ensures id in files && id in sources
  {
  }

  // ---------------------------------------------------------------- fetching all files

  function Undelivered(files: map<FileId, FileRecord>): set<FileId> {
    set id | id in files && !files[id].descriptor.status.Downloaded?
  }

  lemma FetchIsMade(w: World, id: FileId)
    requires IsLive(w) && id in w.tunnel.files && w.tunnel.files[id].upload.IsComplete()
    ensures ChangeOf(w, DownloadRequest(Some(w.tunnel.desktop), id)) == Fetches(id)
    ensures Step(w, DownloadRequest(Some(w.tunnel.desktop), id)).0.now == w.now
  {
  }

  lemma FetchedFiles(t: TunnelState, now: Instant, id: FileId)
    requires Possible(t, Fetches(id)) && Incomplete(t.files) == {} && id in Undelivered(t.files)
    ensures var u := Changed(t, now, Fetches(id));
            && u.files.Keys == t.files.Keys
            && (forall i | i in t.files :: u.files[i].upload == t.files[i].upload)
            && Incomplete(u.files) == {} && Undelivered(u.files) == Undelivered(t.files) - {id}
            && u.expiresAt == t.expiresAt
            && (if Undelivered(u.files) == {} then u.status.Complete? else IsOpen(u.status))
  {
    hide Changed;
    FilesAfter(t, now, Fetches(id));
    PartsAfter(t, now, Fetches(id));
    var u := Changed(t, now, Fetches(id));
    assert u.files == MarkDownloaded(t.files, id);
    assert AllDownloaded(u.files) <==> Undelivered(u.files) == {} by {
      forall i | i in u.files ensures u.files[i].descriptor.status.Downloaded? <==> i !in Undelivered(u.files) {
      }
    }
    assert forall i | i in u.files :: i !in Incomplete(t.files) && u.files[i].upload == t.files[i].upload;
  }

  lemma FetchOne(r: Run, id: FileId) returns (s: Run)
    requires Legal(r) && IsLive(After(r)) && Incomplete(After(r).tunnel.files) == {}
    requires id in Undelivered(After(r).tunnel.files)
    ensures Legal(s) && Extends(r, s)
    ensures var before, after := After(r).tunnel, After(s).tunnel;
            && after.files.Keys == before.files.Keys
            && (forall i | i in before.files :: after.files[i].upload == before.files[i].upload)
            && Incomplete(after.files) == {} && Undelivered(after.files) == Undelivered(before.files) - {id}
            && (if Undelivered(after.files) == {} then after.status.Complete? else IsLive(After(s)))
  {
    hide Step, ChangeOf, Changed, WorldOk, Undelivered;
    var w := After(r);
    UndeliveredIsFile(w.tunnel.files, id);
    assert id !in Incomplete(w.tunnel.files);
    s := Then(r, DownloadRequest(Some(w.tunnel.desktop), id));
    FetchIsMade(w, id);
    LastStep(s);
    FetchedFiles(w.tunnel, w.now, id);
    assert Extends(r, r);
  }

  lemma UndeliveredIsFile(files: map<FileId, FileRecord>, id: FileId)
    requires id in Undelivered(files)
    ensures id in files
  {
  }

  lemma {:induction false} FetchAll(r: Run) returns (s: Run)
    requires Legal(r) && IsLive(After(r)) && Incomplete(After(r).tunnel.files) == {}
    requires Undelivered(After(r).tunnel.files) != {}
    ensures Legal(s) && Extends(r, s) && After(s).tunnel.status.Complete?
    ensures After(s).tunnel.files.Keys == After(r).tunnel.files.Keys
    ensures forall i | i in After(r).tunnel.files :: After(s).tunnel.files[i].upload == After(r).tunnel.files[i].upload
    decreases Undelivered(After(r).tunnel.files)
  {
    hide Legal, After, IsLive, Incomplete, Undelivered;
    var id :| id in Undelivered(After(r).tunnel.files);
    s := FetchOne(r, id);
    if Undelivered(After(s).tunnel.files) != {} {
      var one := s;
      s := FetchAll(one);
      ExtendsOnward(r, one, s);
    }
  }

  // ------------------------------------------------------------------------- delivery

  /** A file marked as downloaded was delivered, and what was delivered is what it holds. */
  lemma {:induction false} DownloadedWasDelivered(r: Run, id: FileId)
    requires Legal(r) && id in After(r).tunnel.files && After(r).tunnel.files[id].descriptor.status.Downloaded?
    ensures Delivered(r, id, After(r).tunnel.files[id].upload.bytes)
  {
    hide Step, ChangeOf, Changed, ContentReturned, WorldOk;
    var w, c := After(r.before), LastChange(r);
    LastStep(r);
    FilesAfter(w.tunnel, w.now, c);
    if c == Fetches(id) {
      FetchDelivers(w, r.request, id);
    } else {
      DownloadedWasDelivered(r.before, id);
    }
  }

  lemma FetchDelivers(w: World, q: Request, id: FileId)
    requires ChangeOf(w, q) == Fetches(id)
    ensures id in w.tunnel.files && ContentReturned(w, q, id, w.tunnel.files[id].upload.bytes)
  {
    hide CommitUpload;
  }

  /** Once delivered, a file that is not empty stays marked as downloaded. */
  lemma {:induction false} DeliveredIsDownloaded(r: Run, id: FileId, content: seq<byte>)
    requires Legal(r) && Delivered(r, id, content) && id in After(r).tunnel.files
    requires After(r).tunnel.files[id].descriptor.sizeBytes > 0
    ensures After(r).tunnel.files[id].descriptor.status.Downloaded?
  {
    hide Step, ChangeOf, Changed, ContentReturned, WorldOk, Delivered;
    var w, c := After(r.before), LastChange(r);
    LastStep(r);
    FilesAfter(w.tunnel, w.now, c);
    if !Delivered(r.before, id, content) {
      DeliveredNow(r, id, content);
      FetchStep(w, r.request, id, content);
    } else {
      DeliveredIsFreshBodies(r.before, id, content);
      DeliveredIsDownloaded(r.before, id, content);
      ResendingReopens(r);
      if c.Appends? {
        AppendIsCommit(w, r.request);
      }
    }
  }

  lemma DeliveredNow(r: Run, id: FileId, content: seq<byte>)
    requires Delivered(r, id, content) && !Delivered(r.before, id, content)
    ensures ContentReturned(After(r.before), r.request, id, content)
  {
  }

  ghost predicate EverDelivered(r: Run, id: FileId) {
    exists content :: Delivered(r, id, content)
  }

  /** The status of a file that is not empty, from what was stored and delivered. */
  ghost function StatusOf(r: Run, id: FileId, size: nat): FileStatus {
    var stored := |Integrity.FreshBodies(r, id)|;
    if EverDelivered(r, id) then Downloaded
    else if stored == size then Available
    else if stored > 0 then Uploading
    else Declared
  }

  lemma StatusIsHistory(r: Run, id: FileId)
    requires Legal(r) && id in After(r).tunnel.files && After(r).tunnel.files[id].descriptor.sizeBytes > 0
    ensures var f := After(r).tunnel.files[id].descriptor;
            f.status == StatusOf(r, id, f.sizeBytes)
  {
    hide Step, Delivered, Integrity.FreshBodies;
    EveryRunIsOk(r);
    var f := After(r).tunnel.files[id];
    assert RecordOk(id, f, After(r).tunnel.maxFileBytes);
    CancelledHasNoFiles(After(r).tunnel);
    StoredIsFreshBodies(r, id);
    if f.descriptor.status.Downloaded? {
      DownloadedWasDelivered(r, id);
    }
    if content :| Delivered(r, id, content) {
      DeliveredIsDownloaded(r, id, content);
    }
  }

  lemma CancelledHasNoFiles(t: TunnelState)
    requires TunnelOk(t)
    ensures t.status.Cancelled? ==> t.files == map[]
  {
  }

  lemma OpenMeansUndelivered(r: Run)
    requires Legal(r) && IsLive(After(r)) && After(r).tunnel.files != map[]
    ensures Undelivered(After(r).tunnel.files) != {}
  {
    EveryRunIsOk(r);
    var files := After(r).tunnel.files;
    hide Step, FilesOk, EventsOk, LimitsOk;
    if id :| id in files && !files[id].descriptor.status.Downloaded? {
      assert id in Undelivered(files);
    }
  }

  /**
   From whatever state a legal run has left an open tunnel with files in, it can be completed with
   every file delivered as the source of which it holds a prefix.
   */
  lemma CompletionIsReachable(r: Run, sources: map<FileId, seq<byte>>) returns (s: Run)
    requires Legal(r) && IsLive(After(r)) && After(r).tunnel.files != map[]
    requires HoldPrefixes(After(r).tunnel.files, sources)
    ensures Legal(s) && Extends(r, s) && After(s).tunnel.status.Complete?
    ensures forall id | id in After(r).tunnel.files :: id in sources && Delivered(s, id, sources[id])
  {
    hide After, Legal, IsLive, HoldPrefixes, Incomplete, Undelivered, Delivered;
    var stored := FinishAll(r, sources);
    assert After(stored).tunnel.files != map[] by {
      assert After(stored).tunnel.files.Keys == After(r).tunnel.files.Keys;
      assert After(r).tunnel.files.Keys != {};
    }
    OpenMeansUndelivered(stored);
    s := FetchAll(stored);
    ExtendsOnward(r, stored, s);
    forall id | id in After(r).tunnel.files ensures id in sources && Delivered(s, id, sources[id]) {
      SizeIsTotal(stored, id);
      CompleteIsSource(After(stored).tunnel.files, id, sources);
      CompleteIsDownloaded(s, id);
      DownloadedWasDelivered(s, id);
    }
  }

  lemma CompleteIsSource(files: map<FileId, FileRecord>, id: FileId, sources: map<FileId, seq<byte>>)
    requires HoldPrefixes(files, sources) && Incomplete(files) == {} && id in files
    requires files[id].upload.total == files[id].descriptor.sizeBytes
    ensures id in sources && files[id].upload.bytes == sources[id]
  {
    assert id !in Incomplete(files);
  }

  lemma SizeIsTotal(r: Run, id: FileId)
    requires Legal(r) && id in After(r).tunnel.files
    ensures After(r).tunnel.files[id].upload.total == After(r).tunnel.files[id].descriptor.sizeBytes
  {
    EveryRunIsOk(r);
    hide Step;
    FilesAreOk(After(r).tunnel, id);
  }

  lemma CompleteIsDownloaded(r: Run, id: FileId)
    requires Legal(r) && After(r).tunnel.status.Complete? && id in After(r).tunnel.files
    ensures After(r).tunnel.files[id].descriptor.status.Downloaded?
  {
    EveryRunIsOk(r);
    hide Step;
  }
}
