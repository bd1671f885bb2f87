/**
 What a client that only watches events knows, compared with the snapshot the server would
 give it.
 */
module EventLog {
  import opened Wrappers
  import opened Capabilities
  import opened Uploads
  import opened Declarations
  import opened TunnelModel
  import opened Changes
  import opened Invariants
  import Integrity

  datatype FileView = FileView(status: FileStatus, bytes: nat)

  datatype View = View(status: TunnelStatus, files: map<FileId, FileView>)

  predicate AllFetched(files: map<FileId, FileView>) {
    forall id | id in files :: files[id].status.Downloaded?
  }

  function With(v: View, e: TunnelEvent, status: FileStatus): map<FileId, FileView> {
    if e.fileId.Some? && e.bytesTransferred.Some? then
      v.files[e.fileId.value := FileView(status, e.bytesTransferred.value)]
    else v.files
  }

  /** How a client updates its picture with one event. */
  function See(v: View, e: TunnelEvent): View {
    match e.kind
    case TunnelConnected => v.(status := Connected)
    case TunnelCancelled => View(TunnelStatus.Cancelled, map[])
    case FileDeclared => v.(files := With(v, e, Declared))
    case FileProgress => View(Transferring, With(v, e, Uploading))
    case FileAvailable => v.(files := With(v, e, Available))
    case FileDownloaded =>
      var files := With(v, e, Downloaded);
      View(if AllFetched(files) then Complete else v.status, files)
  }

  /** The picture of a client that has seen every event since the creation of the tunnel. */
  function Watch(events: seq<TunnelEvent>): View {
    if events == [] then View(Waiting, map[])
    else See(Watch(events[..|events| - 1]), events[|events| - 1])
  }

  /** The same picture as the server reports it in a snapshot. */
  function ViewOf(snapshot: Reply): View
    requires snapshot.Snapshot?
  {
    View(snapshot.status, map id | id in snapshot.files ::
                            FileView(snapshot.files[id].status, snapshot.files[id].bytesTransferred))
  }

  /** An empty file that was uploaded and not yet downloaded: no event says that it is available. */
  predicate IsQuietlyAvailable(f: FileRecord) {
    f.descriptor.sizeBytes == 0 && f.descriptor.status.Available?
  }

  function SeenStatus(f: FileRecord): FileStatus {
    if IsQuietlyAvailable(f) then Uploading else f.descriptor.status
  }

  function SeenFiles(files: map<FileId, FileRecord>): map<FileId, FileView> {
    map id | id in files :: FileView(SeenStatus(files[id]), files[id].descriptor.bytesTransferred)
  }

  // ---------------------------------------------------------------- one more event

  lemma WatchOneMore(t: TunnelState, kind: EventKind, file: Option<FileId>, bytes: Option<nat>)
    ensures Watch(Publish(t, kind, file, bytes).events) ==
            See(Watch(t.events), TunnelEvent(t.sequence + 1, kind, file, bytes))
  {
    var e := TunnelEvent(t.sequence + 1, kind, file, bytes);
    assert (t.events + [e])[..|t.events|] == t.events;
  }

  predicate InStep(t: TunnelState) {
    Watch(t.events) == View(t.status, SeenFiles(t.files))
  }

  lemma DeclareStaysInStep(t: TunnelState, now: Instant, id: FileId, d: FileDeclaration)
    requires InStep(t) && Possible(t, Declares(id, d))
    ensures InStep(WithFile(t, id, d, now))
  {
    hide Watch;
    var files := t.files[id := NewRecord(id, d, now)];
    WatchOneMore(t.(files := files), FileDeclared, Some(id), Some(0));
    assert SeenFiles(files) == SeenFiles(t.files)[id := FileView(Declared, 0)];
  }

  lemma AppendStaysInStep(t: TunnelState, id: FileId, body: seq<byte>)
    requires InStep(t) && Possible(t, Appends(id, body)) && RecordOk(id, t.files[id], t.maxFileBytes)
    ensures InStep(Appended(t, id, body))
  {
    hide Watch, Publish;
    var v := Extended(t.files[id].upload, body);
    var outcome := Outcome(v, false);
    var moved := Moved(t, id, v, outcome);
    var one := Publish(moved, FileProgress, Some(id), Some(outcome.offset));
    PublishOnlyLogs();
    WatchOneMore(moved, FileProgress, Some(id), Some(outcome.offset));
    WatchOneMore(one, FileAvailable, Some(id), Some(outcome.offset));
    var seen := SeenFiles(t.files);
    assert SeenFiles(moved.files) == seen[id := FileView(SeenStatus(moved.files[id]), outcome.offset)];
    var uploading: map<FileId, FileView> := seen[id := FileView(Uploading, outcome.offset)];
    var available: map<FileId, FileView> := seen[id := FileView(Available, outcome.offset)];
    assert uploading[id := FileView(Available, outcome.offset)] == available;
  }

  lemma DownloadStaysInStep(t: TunnelState, id: FileId)
    requires InStep(t) && Possible(t, Fetches(id)) && RecordOk(id, t.files[id], t.maxFileBytes)
    ensures InStep(Fetched(t, id))
  {
    hide Watch, Publish;
    var marked, offset := Marked(t, id), t.files[id].upload.Offset();
    PublishOnlyLogs();
    WatchOneMore(marked, FileDownloaded, Some(id), Some(offset));
    var seen := SeenFiles(marked.files);
    assert seen == SeenFiles(t.files)[id := FileView(Downloaded, offset)];
    assert AllFetched(seen) <==> AllDownloaded(marked.files) by {
      assert forall i | i in marked.files ::
          seen[i].status.Downloaded? <==> marked.files[i].descriptor.status.Downloaded?;
    }
  }

  lemma PhaseStaysInStep(t: TunnelState, phone: Digest)
    requires InStep(t)
    ensures InStep(Claimed(t, phone)) && InStep(Closed(t))
  {
    hide Watch;
    WatchOneMore(t.(phone := Some(phone), pairing := None, status := Connected), TunnelConnected, None, None);
    WatchOneMore(t.(status := TunnelStatus.Cancelled, files := map[], tickets := map[]), TunnelCancelled, None, None);
  }

  lemma ChangeStaysInStep(t: TunnelState, now: Instant, c: Change)
    requires TunnelOk(t) && InStep(t) && Possible(t, c)
    ensures InStep(Changed(t, now, c))
  {
    match c
    case Claims(phone) => hide InStep, Claimed; PhaseStaysInStep(t, phone);
    case Cancels => hide InStep, Closed; PhaseStaysInStep(t, 0);
    case Declares(id, d) => hide InStep, WithFile; DeclareStaysInStep(t, now, id, d);
    case Appends(id, body) => hide InStep, Appended; AppendStaysInStep(t, id, body);
    case Fetches(id) => hide InStep, Fetched; DownloadStaysInStep(t, id);
    case _ => hide Watch, SeenFiles;
  }

  // ------------------------------------------------------------------- whole runs

  lemma {:induction false} WatchingIsInStep(r: Run)
    requires Legal(r)
    ensures InStep(After(r).tunnel)
  {
    hide Step, ChangeOf, Changed;
    if r.Then? {
      WatchingIsInStep(r.before);
      LastStep(r);
      hide InStep;
      ChangeStaysInStep(After(r.before).tunnel, After(r.before).now, LastChange(r));
    }
  }

  /**
   A client that watched every event knows exactly what a snapshot tells it, at any moment of
   any run, unless some empty file has been uploaded and not yet downloaded.
   */
  lemma WatchingEqualsSnapshot(r: Run, bearer: Option<Digest>)
    requires Legal(r) && Reading(After(r).tunnel, After(r).now, bearer).1.Success?
    ensures var t, snapshot := After(r).tunnel, Reading(After(r).tunnel, After(r).now, bearer).1.value;
            && snapshot.Snapshot?
            && (Watch(t.events) == ViewOf(snapshot) <==>
                forall id | id in t.files :: !IsQuietlyAvailable(t.files[id]))
  {
    hide Step, Watch;
    WatchingIsInStep(r);
    var t, snapshot := After(r).tunnel, Reading(After(r).tunnel, After(r).now, bearer).1.value;
    if Watch(t.events) == ViewOf(snapshot) {
      forall id | id in t.files ensures !IsQuietlyAvailable(t.files[id]) {
        assert SeenFiles(t.files)[id] == ViewOf(snapshot).files[id];
      }
    }
    if forall id | id in t.files :: !IsQuietlyAvailable(t.files[id]) {
      assert SeenFiles(t.files) == ViewOf(snapshot).files;
    }
  }

  // ----------------------------------------------------------- the log of one file

  predicate IsAbout(e: TunnelEvent, kind: EventKind, id: FileId) {
    e.kind == kind && e.fileId == Some(id)
  }

  function CountOf(events: seq<TunnelEvent>, kind: EventKind, id: FileId): nat {
    if events == [] then 0
    else CountOf(events[..|events| - 1], kind, id) + if IsAbout(events[|events| - 1], kind, id) then 1 else 0
  }

  /** The offsets reported by progress events of a file, in order. */
  function Offsets(events: seq<TunnelEvent>, id: FileId): seq<nat> {
    if events == [] then []
    else
      var e := events[|events| - 1];
      Offsets(events[..|events| - 1], id)
      + if IsAbout(e, FileProgress, id) && e.bytesTransferred.Some? then [e.bytesTransferred.value] else []
  }

  predicate Increasing(s: seq<nat>) {
    forall i, j | 0 <= i < j < |s| :: s[i] < s[j]
  }

  predicate AllZero(s: seq<nat>) {
    forall i | 0 <= i < |s| :: s[i] == 0
  }

  /**
   What the log says about one file: it was declared, it is announced once when complete, and its
   progress rises up to its offset; that of an empty file repeats the offset 0.
   */
  predicate LogOk(events: seq<TunnelEvent>, id: FileId, f: FileRecord) {
    && CountOf(events, FileDeclared, id) == 1
    && CountOf(events, FileAvailable, id) == (if f.upload.total > 0 && f.upload.IsComplete() then 1 else 0)
    && var offsets := Offsets(events, id);
    if f.upload.total == 0 then AllZero(offsets)
    else
      && Increasing(offsets)
      && (if offsets == [] then f.upload.Offset() == 0 else offsets[|offsets| - 1] == f.upload.Offset())
  }

  lemma OneMore(t: TunnelState, kind: EventKind, file: Option<FileId>, bytes: Option<nat>, of: EventKind, id: FileId)
    ensures var u := Publish(t, kind, file, bytes);
            && CountOf(u.events, of, id) ==
               CountOf(t.events, of, id) + (if kind == of && file == Some(id) then 1 else 0)
            && Offsets(u.events, id) ==
               Offsets(t.events, id)
               + (if kind.FileProgress? && file == Some(id) && bytes.Some? then [bytes.value] else [])
  {
    var e := TunnelEvent(t.sequence + 1, kind, file, bytes);
    assert (t.events + [e])[..|t.events|] == t.events;
  }

  lemma {:induction false} NothingAbout(events: seq<TunnelEvent>, id: FileId, kind: EventKind)
    requires forall i | 0 <= i < |events| :: events[i].fileId != Some(id)
    ensures CountOf(events, kind, id) == 0 && Offsets(events, id) == []
  {
    if events != [] {
      NothingAbout(events[..|events| - 1], id, kind);
    }
  }

  /** Adding an event about another matter leaves the log of this file as it was. */
  lemma UnrelatedEvent(t: TunnelState, kind: EventKind, file: Option<FileId>, bytes: Option<nat>,
                       id: FileId, f: FileRecord)
    requires LogOk(t.events, id, f)
    requires file != Some(id) || kind.FileDownloaded?
    ensures LogOk(Publish(t, kind, file, bytes).events, id, f)
  {
    hide CountOf, Offsets, Publish;
    OneMore(t, kind, file, bytes, FileDeclared, id);
    OneMore(t, kind, file, bytes, FileAvailable, id);
  }

  lemma DeclaredLog(t: TunnelState, now: Instant, id: FileId, d: FileDeclaration)
    requires EventsOk(t) && Possible(t, Declares(id, d))
    ensures LogOk(WithFile(t, id, d, now).events, id, NewRecord(id, d, now))
  {
    hide CountOf, Offsets, Publish;
    NothingAbout(t.events, id, FileDeclared);
    NothingAbout(t.events, id, FileAvailable);
    var u := t.(files := t.files[id := NewRecord(id, d, now)]);
    OneMore(u, FileDeclared, Some(id), Some(0), FileDeclared, id);
    OneMore(u, FileDeclared, Some(id), Some(0), FileAvailable, id);
  }

  lemma AppendedLog(t: TunnelState, id: FileId, body: seq<byte>)
    requires Possible(t, Appends(id, body)) && LogOk(t.events, id, t.files[id])
    ensures LogOk(Appended(t, id, body).events, id, RecordAfter(t.files[id], id, Appends(id, body)))
  {
    hide CountOf, Offsets, Publish;
    var v := Extended(t.files[id].upload, body);
    var moved := Moved(t, id, v, Outcome(v, false));
    var one := Publish(moved, FileProgress, Some(id), Some(v.Offset()));
    OneMore(moved, FileProgress, Some(id), Some(v.Offset()), FileDeclared, id);
    OneMore(moved, FileProgress, Some(id), Some(v.Offset()), FileAvailable, id);
    OneMore(one, FileAvailable, Some(id), Some(v.Offset()), FileDeclared, id);
    OneMore(one, FileAvailable, Some(id), Some(v.Offset()), FileAvailable, id);
  }

  lemma AppendedElsewhere(t: TunnelState, other: FileId, body: seq<byte>, id: FileId)
    requires Possible(t, Appends(other, body)) && id != other && id in t.files && LogOk(t.events, id, t.files[id])
    ensures LogOk(Appended(t, other, body).events, id, t.files[id])
  {
    hide LogOk, Publish;
    var v := Extended(t.files[other].upload, body);
    var moved := Moved(t, other, v, Outcome(v, false));
    UnrelatedEvent(moved, FileProgress, Some(other), Some(v.Offset()), id, t.files[id]);
    var one := Publish(moved, FileProgress, Some(other), Some(v.Offset()));
    UnrelatedEvent(one, FileAvailable, Some(other), Some(v.Offset()), id, t.files[id]);
  }

  lemma ChangeKeepsLog(t: TunnelState, now: Instant, c: Change, id: FileId)
    requires EventsOk(t) && Possible(t, c) && id in Changed(t, now, c).files
    requires id in t.files ==> LogOk(t.events, id, t.files[id])
    ensures LogOk(Changed(t, now, c).events, id, Changed(t, now, c).files[id])
  {
    FilesAfter(t, now, c);
    hide LogOk, Publish, EventsOk;
    match c
    case Claims(phone) =>
      var u := t.(phone := Some(phone), pairing := None, status := Connected);
      UnrelatedEvent(u, TunnelConnected, None, None, id, t.files[id]);
    case Declares(i, d) =>
      if i == id { DeclaredLog(t, now, id, d); }
      else {
        var u := t.(files := t.files[i := NewRecord(i, d, now)]);
        UnrelatedEvent(u, FileDeclared, Some(i), Some(0), id, t.files[id]);
      }
    case Appends(i, body) =>
      if i == id { AppendedLog(t, id, body); } else { AppendedElsewhere(t, i, body, id); }
    case Fetches(i) =>
      UnrelatedEvent(Marked(t, i), FileDownloaded, Some(i), Some(t.files[i].upload.Offset()), id, t.files[id]);
      LogIgnoresDescriptor(Fetched(t, i).events, id, t.files[id], Changed(t, now, c).files[id]);
    case _ =>
  }

  lemma LogIgnoresDescriptor(events: seq<TunnelEvent>, id: FileId, f: FileRecord, g: FileRecord)
    requires LogOk(events, id, f) && f.upload == g.upload
    ensures LogOk(events, id, g)
  {
  }

  /**
   For every live file: it was announced once, `file.available` was published exactly once if a
   nonempty file is complete and never otherwise, and its progress rises strictly to its offset.
   */
  lemma {:induction false} LogTellsEveryFile(r: Run, id: FileId)
    requires Legal(r) && id in After(r).tunnel.files
    ensures LogOk(After(r).tunnel.events, id, After(r).tunnel.files[id])
    ensures |After(r).tunnel.events| == After(r).tunnel.sequence
    ensures forall i | 0 <= i < |After(r).tunnel.events| :: After(r).tunnel.events[i].sequence == i + 1
  {
    hide Step, ChangeOf, Changed, LogOk;
    EveryRunIsOk(r);
    LastStep(r);
    if id in After(r.before).tunnel.files {
      LogTellsEveryFile(r.before, id);
    }
    ChangeKeepsLog(After(r.before).tunnel, After(r.before).now, LastChange(r), id);
  }

  // ----------------------------------------------------------- progress and commits

  /** How often a body for the file was stored. */
  function FreshCommits(r: Run, id: FileId): nat {
    match r
    case Created(_, _, _, _) => 0
    case Then(before, _) =>
      FreshCommits(before, id) + if LastChange(r).Appends? && LastChange(r).fileId == id then 1 else 0
  }

  lemma ChangeCountsProgress(t: TunnelState, now: Instant, c: Change, id: FileId)
    requires Possible(t, c)
    ensures |Offsets(Changed(t, now, c).events, id)| ==
            |Offsets(t.events, id)| + if c.Appends? && c.fileId == id then 1 else 0
  {
    hide Offsets, Publish;
    match c
    case Claims(phone) =>
      var u := t.(phone := Some(phone), pairing := None, status := Connected);
      OneMore(u, TunnelConnected, None, None, FileDeclared, id);
    case Cancels =>
      OneMore(t.(status := TunnelStatus.Cancelled, files := map[], tickets := map[]), TunnelCancelled, None, None,
              FileDeclared, id);
    case Declares(i, d) =>
      OneMore(t.(files := t.files[i := NewRecord(i, d, now)]), FileDeclared, Some(i), Some(0), FileDeclared, id);
    case Appends(i, body) => AppendCountsProgress(t, i, body, id);
    case Fetches(i) =>
      FetchKeepsProgress(t, i, id);
    case _ =>
  }

  lemma AppendCountsProgress(t: TunnelState, i: FileId, body: seq<byte>, id: FileId)
    requires i in t.files
    ensures |Offsets(Appended(t, i, body).events, id)| == |Offsets(t.events, id)| + if i == id then 1 else 0
  {
    hide Offsets, Publish;
    var v := Extended(t.files[i].upload, body);
    var moved := Moved(t, i, v, Outcome(v, false));
    var one := Publish(moved, FileProgress, Some(i), Some(v.Offset()));
    OneMore(moved, FileProgress, Some(i), Some(v.Offset()), FileDeclared, id);
    OneMore(one, FileAvailable, Some(i), Some(v.Offset()), FileDeclared, id);
  }

  lemma FetchKeepsProgress(t: TunnelState, i: FileId, id: FileId)
    requires i in t.files
    ensures Offsets(Fetched(t, i).events, id) == Offsets(t.events, id)
  {
    hide Offsets, Publish, AllDownloaded, MarkDownloaded;
    OneMore(Marked(t, i), FileDownloaded, Some(i), Some(t.files[i].upload.Offset()), FileDeclared, id);
  }

  lemma {:induction false} ProgressCountsCommits(r: Run, id: FileId)
    requires Legal(r)
    ensures |Offsets(After(r).tunnel.events, id)| == FreshCommits(r, id)
  {
    hide Step, ChangeOf, Changed, Offsets;
    if r.Then? {
      ProgressCountsCommits(r.before, id);
      LastStep(r);
      ChangeCountsProgress(After(r.before).tunnel, After(r.before).now, LastChange(r), id);
    } else {
      NothingAbout(After(r).tunnel.events, id, FileProgress);
    }
  }

  /**
   There is one progress event for each stored body, and they rise strictly if and only if the
   file is not empty or was stored into at most once.
   */
  lemma ProgressRises(r: Run, id: FileId)
    requires Legal(r) && id in After(r).tunnel.files
    ensures var offsets, f := Offsets(After(r).tunnel.events, id), After(r).tunnel.files[id];
            && |offsets| == FreshCommits(r, id)
            && (Increasing(offsets) <==> f.descriptor.sizeBytes > 0 || FreshCommits(r, id) <= 1)
  {
    hide Step, Offsets, CountOf, FreshCommits;
    EveryRunIsOk(r);
    LogTellsEveryFile(r, id);
    ProgressCountsCommits(r, id);
    assert RecordOk(id, After(r).tunnel.files[id], After(r).tunnel.maxFileBytes);
    var offsets := Offsets(After(r).tunnel.events, id);
    if |offsets| > 1 && AllZero(offsets) {
      assert offsets[0] == offsets[1];
    }
  }

  // ------------------------------------------------------------------ the whole log

  /** What a change writes after `n` events, given the bytes of its file before and after it. */
  function Entries(n: nat, c: Change, before: nat, after: nat, size: nat): seq<TunnelEvent> {
    match c
    case Claims(_) => [TunnelEvent(n + 1, TunnelConnected, None, None)]
    case Cancels => [TunnelEvent(n + 1, TunnelCancelled, None, None)]
    case Declares(id, _) => [TunnelEvent(n + 1, FileDeclared, Some(id), Some(0))]
    case Appends(id, _) =>
      [TunnelEvent(n + 1, FileProgress, Some(id), Some(after))]
      + if before < size == after then [TunnelEvent(n + 2, FileAvailable, Some(id), Some(after))] else []
    case Fetches(id) => [TunnelEvent(n + 1, FileDownloaded, Some(id), Some(before))]
    case _ => []
  }

  function SizeOf(t: TunnelState, c: Change): nat {
    if c.Appends? && c.fileId in t.files then t.files[c.fileId].descriptor.sizeBytes else 0
  }

  function BytesOf(r: Run, c: Change): nat {
    if c.Appends? || c.Fetches? then |Integrity.FreshBodies(r, c.fileId)| else 0
  }

  /** The log that the changes of a run write, one after the other. */
  function LogOf(r: Run): seq<TunnelEvent> {
    match r
    case Created(_, _, _, _) => []
    case Then(before, _) =>
      var c := LastChange(r);
      LogOf(before)
      + Entries(|LogOf(before)|, c, BytesOf(before, c), BytesOf(r, c), SizeOf(After(before).tunnel, c))
  }

  lemma AppendWrites(t: TunnelState, id: FileId, body: seq<byte>)
    requires Possible(t, Appends(id, body)) && RecordOk(id, t.files[id], t.maxFileBytes)
    ensures var offset := t.files[id].upload.Offset();
            Appended(t, id, body).events ==
            t.events + Entries(t.sequence, Appends(id, body), offset, offset + |body|, t.files[id].descriptor.sizeBytes)
  {
  }

  lemma FetchWrites(t: TunnelState, id: FileId)
    requires id in t.files
    ensures Fetched(t, id).events == t.events + Entries(t.sequence, Fetches(id), t.files[id].upload.Offset(), 0, 0)
  {
    hide MarkDownloaded, AllDownloaded;
  }

  lemma ChangeWrites(t: TunnelState, now: Instant, c: Change, before: nat, after: nat)
    requires TunnelOk(t) && Possible(t, c)
    requires c.Appends? || c.Fetches? ==> before == t.files[c.fileId].upload.Offset()
    requires c.Appends? ==> after == before + |c.body|
    ensures Changed(t, now, c).events == t.events + Entries(t.sequence, c, before, after, SizeOf(t, c))
  {
    hide Appended, Fetched, LimitsOk, SecretsOk, PhaseOk, EventsOk;
    match c
    case Appends(id, body) =>
      assert RecordOk(id, t.files[id], t.maxFileBytes);
      AppendWrites(t, id, body);
    case Fetches(id) => FetchWrites(t, id);
    case _ =>
  }

  /** The log is exactly what the changes write: nothing is missing, repeated or out of order. */
  lemma {:induction false} LogIsHistory(r: Run)
    requires Legal(r)
    ensures After(r).tunnel.events == LogOf(r)
  {
    hide Step, ChangeOf, Changed, TunnelOk, Entries, Integrity.FreshBodies;
    if r.Then? {
      var w, c := After(r.before), LastChange(r);
      LogIsHistory(r.before);
      LastStep(r);
      if c.Appends? || c.Fetches? {
        Integrity.StoredIsFreshBodies(r.before, c.fileId);
        FreshAfter(r, c.fileId);
      }
      LogIsCounted(w.tunnel);
      ChangeWrites(w.tunnel, w.now, c, BytesOf(r.before, c), BytesOf(r, c));
    }
  }

  lemma FreshAfter(r: Run, id: FileId)
    requires r.Then? && (LastChange(r).Appends? ==> LastChange(r).fileId == id)
    ensures |Integrity.FreshBodies(r, id)| ==
            |Integrity.FreshBodies(r.before, id)| + if LastChange(r).Appends? then |LastChange(r).body| else 0
  {
  }

  lemma LogIsCounted(t: TunnelState)
    requires TunnelOk(t)
    ensures |t.events| == t.sequence
  {
  }
}
