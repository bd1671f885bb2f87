/**
 The tunnel refines the set-valued protocol: every run of the handlers and the clock, over any
 number of files and tickets, is followed step by step by enabled actions of the protocol.
 */
module Refinement {
  import opened Wrappers
  import opened Capabilities
  import opened Uploads
  import opened Declarations
  import opened TunnelModel
  import opened Changes
  import opened Invariants
  import opened Lifecycle
  import S = SetProtocol

  // --------------------------------------------------------------- the abstraction

  function CompleteIds(files: map<FileId, FileRecord>): set<FileId> {
    set id | id in files && files[id].upload.IsComplete()
  }

  function DownloadedIds(files: map<FileId, FileRecord>): set<FileId> {
    set id | id in files && files[id].descriptor.status.Downloaded?
  }

  /** Connected and Transferring count as one phase; expiry is read off the clock. */
  predicate PhaseMatches(w: World, phase: TunnelStatus) {
    var status := w.tunnel.status;
    if status.Complete? || status.Cancelled? then phase == status
    else if w.tunnel.expiresAt <= w.now then phase.Expired?
    else if status.Waiting? then phase.Waiting?
    else IsOpen(phase)
  }

  predicate ShowsRights(a: S.SetState, w: World, issued: set<Digest>) {
    && PhaseMatches(w, a.phase)
    && a.pairingAvailable == w.tunnel.pairing.Some?
    && a.phoneIssued == w.tunnel.phone.Some?
    && a.issued == issued
    && a.active == (if S.IsTerminal(a.phase) then {} else w.tunnel.tickets.Keys)
  }

  predicate ShowsFiles(a: S.SetState, t: TunnelState) {
    !t.status.Cancelled? ==>
      a.declared == t.files.Keys && a.available == CompleteIds(t.files) && a.downloaded == DownloadedIds(t.files)
  }

  /** The abstract state shows this world, in which these tickets have been issued. */
  predicate Shows(a: S.SetState, w: World, issued: set<Digest>) {
    ShowsRights(a, w, issued) && ShowsFiles(a, w.tunnel)
  }

  lemma CompleteAreFiles(files: map<FileId, FileRecord>)
    ensures CompleteIds(files) <= files.Keys && DownloadedIds(files) <= files.Keys
    ensures forall id | id in files :: id in CompleteIds(files) <==> files[id].upload.IsComplete()
    ensures forall id | id in files :: id in DownloadedIds(files) <==> files[id].descriptor.status.Downloaded?
    ensures AllDownloaded(files) <==> DownloadedIds(files) == files.Keys
  {
  }

  /** The records of `after` are those of `before` with the change made to them. */
  predicate FilesMove(before: map<FileId, FileRecord>, c: Change, after: map<FileId, FileRecord>) {
    && after.Keys == (if c.Declares? then before.Keys + {c.fileId} else before.Keys)
    && (forall id | id in before :: after[id] == RecordAfter(before[id], id, c))
    && (c.Declares? ==> c.fileId !in before && !after[c.fileId].descriptor.status.Downloaded?)
    && (c.Appends? || c.Fetches? ==> c.fileId in before)
    && (c.Appends? && before[c.fileId].upload.IsComplete() ==> after[c.fileId].upload.IsComplete())
  }

  lemma CompleteMove(before: map<FileId, FileRecord>, c: Change, after: map<FileId, FileRecord>)
    requires FilesMove(before, c, after)
    ensures CompleteIds(after) ==
      if (c.Declares? || c.Appends?) && after[c.fileId].upload.IsComplete() then CompleteIds(before) + {c.fileId}
      else CompleteIds(before)
  {
  }

  lemma DownloadedMove(before: map<FileId, FileRecord>, c: Change, after: map<FileId, FileRecord>)
    requires FilesMove(before, c, after)
    ensures DownloadedIds(after) ==
      if c.Appends? then DownloadedIds(before) - {c.fileId}
      else if c.Fetches? then DownloadedIds(before) + {c.fileId} else DownloadedIds(before)
  {
  }

  lemma FilesMoveAfter(t: TunnelState, now: Instant, c: Change)
    requires Possible(t, c) && !c.Cancels?
    ensures FilesMove(t.files, c, Changed(t, now, c).files)
  {
    hide Changed;
    FilesAfter(t, now, c);
  }

  /** The sets the protocol sees, after a change. */
  lemma SetsAfter(t: TunnelState, now: Instant, c: Change)
    requires Possible(t, c) && (c.Declares? || c.Appends? || c.Fetches?)
    ensures var u := Changed(t, now, c);
            && u.files.Keys == (if c.Declares? then t.files.Keys + {c.fileId} else t.files.Keys)
            && CompleteIds(u.files) ==
               (if !c.Fetches? && u.files[c.fileId].upload.IsComplete() then CompleteIds(t.files) + {c.fileId}
                else CompleteIds(t.files))
            && DownloadedIds(u.files) ==
               (if c.Appends? then DownloadedIds(t.files) - {c.fileId}
                else if c.Fetches? then DownloadedIds(t.files) + {c.fileId} else DownloadedIds(t.files))
  {
    hide Changed, CompleteIds, DownloadedIds;
    FilesMoveAfter(t, now, c);
    CompleteMove(t.files, c, Changed(t, now, c).files);
    DownloadedMove(t.files, c, Changed(t, now, c).files);
  }

  /** The protocol actions that follow a request; most requests need none. */
  function ActionsFor(w: World, q: Request): seq<S.Action> {
    var t, c := w.tunnel, ChangeOf(w, q);
    match c
    case Nothing =>
      if q.ClockReaches? && !IsOver(w) && t.expiresAt <= q.now then [S.Expire] else []
    case Claims(_) => [S.ClaimTunnel]
    case Cancels => [S.CancelTunnel]
    case Declares(id, d) => if d.sizeBytes == 0 then [S.Declare(id), S.FinishUpload(id)] else [S.Declare(id)]
    case Appends(id, body) =>
      if id in t.files && !t.files[id].upload.IsComplete() && Extended(t.files[id].upload, body).IsComplete()
      then [S.FinishUpload(id)] else []
    case Fetches(id) => if id in t.files then FetchActions(t, id) else []
    case Mints(ticket) =>
      if q.TicketRequest? && q.bearer == Some(t.desktop) then [S.MintForDesktop(ticket)] else [S.MintForPhone(ticket)]
    case Spends(ticket) => [S.Redeem(ticket)]
  }

  // -------------------------------------------------------------------- one change

  /** The ids a change introduces are part of the domain, and new where they must be. */
  predicate InDomain(d: S.Domain, issued: set<Digest>, c: Change) {
    && (c.Declares? ==> c.fileId in d.files)
    && (c.Mints? ==> c.ticket in d.tickets && c.ticket !in issued)
  }

  function IssuedAfter(issued: set<Digest>, c: Change): set<Digest> {
    if c.Mints? then issued + {c.ticket} else issued
  }

  lemma OneAction(d: S.Domain, a: S.SetState, x: S.Action)
    requires S.Enabled(d, a, x)
    ensures S.Path(d, a, [x], S.Next(a, x))
  {
    assert S.Path(d, S.Next(a, x), [x][1..], S.Next(a, x));
  }

  lemma TwoActions(d: S.Domain, a: S.SetState, x: S.Action, y: S.Action)
    requires S.Enabled(d, a, x) && S.Enabled(d, S.Next(a, x), y)
    ensures S.Path(d, a, [x, y], S.Next(S.Next(a, x), y))
  {
    OneAction(d, S.Next(a, x), y);
    assert [x, y][1..] == [y];
  }

  lemma NoAction(d: S.Domain, a: S.SetState)
    ensures S.Path(d, a, [], a)
  {
  }

  function DeclareTarget(a: S.SetState, id: FileId, f: FileDeclaration): S.SetState {
    var b := S.Next(a, S.Declare(id));
    if f.sizeBytes == 0 then S.Next(b, S.FinishUpload(id)) else b
  }

  lemma NewFileIsComplete(t: TunnelState, now: Instant, id: FileId, f: FileDeclaration)
    requires Possible(t, Declares(id, f))
    ensures WithFile(t, id, f, now).files[id].upload.IsComplete() <==> f.sizeBytes == 0
  {
  }

  lemma DeclareShowsFiles(t: TunnelState, now: Instant, a: S.SetState, id: FileId, f: FileDeclaration)
    requires ShowsFiles(a, t) && Possible(t, Declares(id, f))
    ensures ShowsFiles(DeclareTarget(a, id, f), WithFile(t, id, f, now))
  {
    hide WithFile, CompleteIds, DownloadedIds;
    SetsAfter(t, now, Declares(id, f));
    NewFileIsComplete(t, now, id, f);
  }

  lemma DeclareIsShown(w: World, issued: set<Digest>, a: S.SetState, id: FileId, f: FileDeclaration)
    requires Shows(a, w, issued) && w.now < w.tunnel.expiresAt && Possible(w.tunnel, Declares(id, f))
    ensures Shows(DeclareTarget(a, id, f), w.(tunnel := WithFile(w.tunnel, id, f, w.now)), issued)
  {
    hide WithFile, ShowsFiles, AllDownloaded;
    DeclareShowsFiles(w.tunnel, w.now, a, id, f);
    PartsAfter(w.tunnel, w.now, Declares(id, f));
  }

  lemma DeclareIsFollowed(d: S.Domain, w: World, issued: set<Digest>, a: S.SetState, id: FileId, f: FileDeclaration)
    returns (b: S.SetState)
    requires Shows(a, w, issued) && w.now < w.tunnel.expiresAt && w.tunnel.phone.Some?
    requires Possible(w.tunnel, Declares(id, f)) && id in d.files
    ensures S.Path(d, a, if f.sizeBytes == 0 then [S.Declare(id), S.FinishUpload(id)] else [S.Declare(id)], b)
    ensures Shows(b, w.(tunnel := WithFile(w.tunnel, id, f, w.now)), issued)
  {
    DeclareIsShown(w, issued, a, id, f);
    CompleteAreFiles(w.tunnel.files);
    assert IsOpen(a.phase) && a.phoneIssued && id !in a.declared && id !in a.available;
    hide Shows, WithFile, S.Path, CompleteIds, DownloadedIds, AllDownloaded;
    b := DeclareTarget(a, id, f);
    if f.sizeBytes == 0 {
      TwoActions(d, a, S.Declare(id), S.FinishUpload(id));
    } else {
      OneAction(d, a, S.Declare(id));
    }
  }

  function AppendTarget(a: S.SetState, u: UploadState, id: FileId, body: seq<byte>): S.SetState {
    if !u.IsComplete() && Extended(u, body).IsComplete() then S.Next(a, S.FinishUpload(id)) else a
  }

  lemma GrownFileIsComplete(t: TunnelState, id: FileId, body: seq<byte>)
    requires Possible(t, Appends(id, body)) && !Reopens(t, Appends(id, body))
    ensures var u := t.files[id].upload;
            && Appended(t, id, body).files[id].upload == Extended(u, body)
            && (u.IsComplete() ==> Extended(u, body).IsComplete())
            && (u.IsComplete() <==> id in CompleteIds(t.files)) && id !in DownloadedIds(t.files)
  {
  }

  lemma AppendShowsFiles(t: TunnelState, now: Instant, a: S.SetState, id: FileId, body: seq<byte>)
    requires ShowsFiles(a, t) && Possible(t, Appends(id, body)) && !Reopens(t, Appends(id, body))
    ensures ShowsFiles(AppendTarget(a, t.files[id].upload, id, body), Appended(t, id, body))
  {
    GrownFileIsComplete(t, id, body);
    hide Appended, CompleteIds, DownloadedIds, Extended;
    SetsAfter(t, now, Appends(id, body));
    assert DownloadedIds(t.files) - {id} == DownloadedIds(t.files);
    assert id in CompleteIds(t.files) ==> CompleteIds(t.files) + {id} == CompleteIds(t.files);
  }

  lemma AppendIsShown(w: World, issued: set<Digest>, a: S.SetState, id: FileId, body: seq<byte>)
    requires Shows(a, w, issued) && w.now < w.tunnel.expiresAt
    requires Possible(w.tunnel, Appends(id, body)) && !Reopens(w.tunnel, Appends(id, body))
    ensures Shows(AppendTarget(a, w.tunnel.files[id].upload, id, body),
                  w.(tunnel := Appended(w.tunnel, id, body)), issued)
  {
    hide Appended, ShowsFiles, AllDownloaded;
    AppendShowsFiles(w.tunnel, w.now, a, id, body);
    PartsAfter(w.tunnel, w.now, Appends(id, body));
  }

  lemma AppendIsFollowed(d: S.Domain, w: World, issued: set<Digest>, a: S.SetState, id: FileId, body: seq<byte>)
    returns (b: S.SetState)
    requires Shows(a, w, issued) && w.now < w.tunnel.expiresAt && w.tunnel.phone.Some?
    requires Possible(w.tunnel, Appends(id, body)) && !Reopens(w.tunnel, Appends(id, body))
    ensures var u := w.tunnel.files[id].upload;
            S.Path(d, a, if !u.IsComplete() && Extended(u, body).IsComplete() then [S.FinishUpload(id)] else [], b)
    ensures Shows(b, w.(tunnel := Appended(w.tunnel, id, body)), issued)
  {
    AppendIsShown(w, issued, a, id, body);
    hide Appended, S.Path, CompleteIds, DownloadedIds, AllDownloaded;
    CompleteAreFiles(w.tunnel.files);
    var u := w.tunnel.files[id].upload;
    b := AppendTarget(a, u, id, body);
    if !u.IsComplete() && Extended(u, body).IsComplete() {
      OneAction(d, a, S.FinishUpload(id));
    } else {
      NoAction(d, a);
    }
  }

  lemma FetchedFiles(t: TunnelState, id: FileId)
    requires id in t.files
    ensures Fetched(t, id).files == MarkDownloaded(t.files, id)
  {
  }

  function FetchActions(t: TunnelState, id: FileId): seq<S.Action>
    requires id in t.files
  {
    if t.files[id].descriptor.status.Downloaded? then []
    else if AllDownloaded(MarkDownloaded(t.files, id)) then [S.DownloadLast(id)] else [S.DownloadPartial(id)]
  }

  function FetchTarget(a: S.SetState, t: TunnelState, id: FileId): S.SetState
    requires id in t.files
  {
    if FetchActions(t, id) == [] then a else S.Next(a, FetchActions(t, id)[0])
  }

  /** The sets after a download, and what they say about the last one. */
  lemma FetchedSets(t: TunnelState, now: Instant, id: FileId)
    requires Possible(t, Fetches(id))
    ensures var files := MarkDownloaded(t.files, id);
            && Fetched(t, id).files == files && files.Keys == t.files.Keys
            && CompleteIds(files) == CompleteIds(t.files) && id in CompleteIds(files)
            && DownloadedIds(files) == DownloadedIds(t.files) + {id}
            && (AllDownloaded(files) <==> DownloadedIds(files) == files.Keys)
            && (AllDownloaded(t.files) <==> DownloadedIds(t.files) == t.files.Keys)
            && (id in DownloadedIds(t.files) <==> t.files[id].descriptor.status.Downloaded?)
  {
    hide CompleteIds, DownloadedIds, AllDownloaded;
    SetsAfter(t, now, Fetches(id));
    var files := MarkDownloaded(t.files, id);
    FetchedFiles(t, id);
    CompleteAreFiles(t.files);
    CompleteAreFiles(files);
  }

  /** Downloading a file again cannot be what completes the tunnel. */
  lemma RefetchIsNotLast(t: TunnelState, now: Instant, id: FileId)
    requires PhaseOk(t) && Possible(t, Fetches(id)) && t.files[id].descriptor.status.Downloaded?
    ensures !AllDownloaded(MarkDownloaded(t.files, id))
  {
    FetchedSets(t, now, id);
    hide CompleteIds, DownloadedIds, AllDownloaded, MarkDownloaded;
    assert DownloadedIds(t.files) + {id} == DownloadedIds(t.files);
  }

  lemma FetchShowsFiles(t: TunnelState, now: Instant, a: S.SetState, id: FileId)
    requires ShowsFiles(a, t) && Possible(t, Fetches(id))
    ensures ShowsFiles(FetchTarget(a, t, id), Fetched(t, id))
  {
    FetchedSets(t, now, id);
    hide Fetched, CompleteIds, DownloadedIds, AllDownloaded, MarkDownloaded;
    if t.files[id].descriptor.status.Downloaded? {
      assert DownloadedIds(t.files) + {id} == DownloadedIds(t.files);
    }
  }

  lemma FetchShowsRights(w: World, issued: set<Digest>, a: S.SetState, id: FileId)
    requires ShowsRights(a, w, issued) && w.now < w.tunnel.expiresAt && Possible(w.tunnel, Fetches(id))
    requires w.tunnel.files[id].descriptor.status.Downloaded? ==> !AllDownloaded(MarkDownloaded(w.tunnel.files, id))
    ensures ShowsRights(FetchTarget(a, w.tunnel, id), w.(tunnel := Fetched(w.tunnel, id)), issued)
  {
    hide Fetched, AllDownloaded, MarkDownloaded;
    PartsAfter(w.tunnel, w.now, Fetches(id));
  }

  lemma FetchIsShown(w: World, issued: set<Digest>, a: S.SetState, id: FileId)
    requires TunnelOk(w.tunnel) && Shows(a, w, issued) && w.now < w.tunnel.expiresAt
    requires Possible(w.tunnel, Fetches(id))
    ensures Shows(FetchTarget(a, w.tunnel, id), w.(tunnel := Fetched(w.tunnel, id)), issued)
  {
    hide ShowsRights, ShowsFiles, FetchTarget, Fetched, AllDownloaded, MarkDownloaded;
    if w.tunnel.files[id].descriptor.status.Downloaded? {
      RefetchIsNotLast(w.tunnel, w.now, id);
    }
    FetchShowsFiles(w.tunnel, w.now, a, id);
    FetchShowsRights(w, issued, a, id);
  }

  lemma FetchIsFollowed(d: S.Domain, w: World, issued: set<Digest>, a: S.SetState, id: FileId)
    returns (b: S.SetState)
    requires TunnelOk(w.tunnel) && Shows(a, w, issued) && w.now < w.tunnel.expiresAt
    requires Possible(w.tunnel, Fetches(id))
    ensures S.Path(d, a, FetchActions(w.tunnel, id), b)
    ensures Shows(b, w.(tunnel := Fetched(w.tunnel, id)), issued)
  {
    FetchIsShown(w, issued, a, id);
    FetchedSets(w.tunnel, w.now, id);
    hide TunnelOk, Fetched, S.Path, CompleteIds, DownloadedIds, AllDownloaded, MarkDownloaded;
    b := FetchTarget(a, w.tunnel, id);
    var actions := FetchActions(w.tunnel, id);
    if actions == [] {
      NoAction(d, a);
    } else {
      OneAction(d, a, actions[0]);
    }
  }

  /** Claims, cancellation, tickets: the phase and secret part of the protocol. */
  lemma ExchangeIsFollowed(d: S.Domain, w: World, q: Request, issued: set<Digest>, a: S.SetState)
    returns (b: S.SetState)
    requires TunnelOk(w.tunnel) && Shows(a, w, issued) && w.now < w.tunnel.expiresAt
    requires var c := ChangeOf(w, q);
             && (c.Claims? || c.Cancels? || c.Mints? || c.Spends?)
             && Possible(w.tunnel, c) && InDomain(d, issued, c)
    ensures S.Path(d, a, ActionsFor(w, q), b)
    ensures Shows(b, w.(tunnel := Changed(w.tunnel, w.now, ChangeOf(w, q))), IssuedAfter(issued, ChangeOf(w, q)))
  {
    hide ChangeOf, S.Path, CompleteIds, DownloadedIds, FilesOk, EventsOk, LimitsOk, AllDownloaded, MarkDownloaded;
    ChangesNeedLife(w, q);
    var c, x := ChangeOf(w, q), ActionsFor(w, q)[0];
    PartsAfter(w.tunnel, w.now, c);
    assert ActionsFor(w, q) == [x];
    OneAction(d, a, x);
    b := S.Next(a, x);
  }

  lemma ClockIsFollowed(d: S.Domain, w: World, later: Instant, issued: set<Digest>, a: S.SetState)
    returns (b: S.SetState)
    requires TunnelOk(w.tunnel) && Shows(a, w, issued) && w.now <= later
    ensures S.Path(d, a, if !IsOver(w) && w.tunnel.expiresAt <= later then [S.Expire] else [], b)
    ensures Shows(b, w.(now := later), issued)
  {
    hide S.Path, CompleteIds, DownloadedIds, FilesOk, EventsOk;
    if !IsOver(w) && w.tunnel.expiresAt <= later {
      OneAction(d, a, S.Expire);
      b := S.Next(a, S.Expire);
    } else {
      NoAction(d, a);
      b := a;
    }
  }

  // ---------------------------------------------------------------------- one step

  lemma ShowsIgnoresUploads(a: S.SetState, w: World, v: World, issued: set<Digest>)
    requires Shows(a, w, issued) && v.tunnel == w.tunnel && v.now == w.now
    ensures Shows(a, v, issued)
  {
  }

  lemma StepWorld(w: World, q: Request)
    requires q.DeclareRequest? ==> q.fileId !in w.tunnel.files
    ensures Possible(w.tunnel, ChangeOf(w, q))
    ensures Step(w, q).0.tunnel == Changed(w.tunnel, w.now, ChangeOf(w, q))
    ensures Step(w, q).0.now == if q.ClockReaches? then q.now else w.now
  {
    hide Step, Changed, ChangeOf;
    StepIsChange(w, q);
    ExpiryIsFixed(w, q);
  }

  /** Unless it uploads an empty file again, every step is followed by the protocol. */
  lemma StepIsFollowed(d: S.Domain, w: World, q: Request, issued: set<Digest>, a: S.SetState)
    returns (b: S.SetState)
    requires WorldOk(w) && Shows(a, w, issued) && InDomain(d, issued, ChangeOf(w, q))
    requires q.DeclareRequest? ==> q.fileId !in w.tunnel.files
    requires q.ClockReaches? ==> w.now <= q.now
    requires !ResendsEmptyFile(w, q)
    ensures S.Path(d, a, ActionsFor(w, q), b)
    ensures Shows(b, Step(w, q).0, IssuedAfter(issued, ChangeOf(w, q)))
  {
    ReopeningIsForeseen(w, q);
    hide Step, ChangeOf, ResendsEmptyFile, Shows, S.Path;
    hide Claimed, Closed, WithFile, Appended, Fetched, MarkDownloaded, AllDownloaded;
    StepWorld(w, q);
    var c := ChangeOf(w, q);
    if c != Nothing {
      ChangesNeedLife(w, q);
    }
    match c {
      case Nothing => b := ClockIsFollowed(d, w, if q.ClockReaches? then q.now else w.now, issued, a);
      case Declares(id, f) => b := DeclareIsFollowed(d, w, issued, a, id, f);
      case Appends(id, body) => b := AppendIsFollowed(d, w, issued, a, id, body);
      case Fetches(id) => b := FetchIsFollowed(d, w, issued, a, id);
      case _ => b := ExchangeIsFollowed(d, w, q, issued, a);
    }
    ShowsIgnoresUploads(b, Step(w, q).0.(uploads := w.uploads), Step(w, q).0, IssuedAfter(issued, c));
  }

  lemma ReopeningLosesDownload(t: TunnelState, now: Instant, c: Change)
    requires Possible(t, c) && Reopens(t, c)
    ensures c.fileId in DownloadedIds(t.files) && c.fileId !in DownloadedIds(Changed(t, now, c).files)
    ensures !t.status.Cancelled? && !Changed(t, now, c).status.Cancelled?
  {
    hide Changed, Appended, CompleteIds, DownloadedIds;
    SetsAfter(t, now, c);
    PartsAfter(t, now, c);
    CompleteAreFiles(t.files);
  }

  /** No sequence of protocol actions can follow a step that sends a downloaded file again. */
  lemma ReopeningIsNotFollowed(d: S.Domain, w: World, q: Request, issued: set<Digest>, later: set<Digest>,
                               a: S.SetState, actions: seq<S.Action>, b: S.SetState)
    requires WorldOk(w) && ResendsEmptyFile(w, q)
    requires Shows(a, w, issued) && S.Path(d, a, actions, b)
    ensures !Shows(b, Step(w, q).0, later)
  {
    hide WorldOk, Step, ChangeOf, Changed, S.Path, CompleteIds, DownloadedIds, ShowsRights;
    StepWorld(w, q);
    ReopeningIsForeseen(w, q);
    ReopeningLosesDownload(w.tunnel, w.now, ChangeOf(w, q));
    S.PathKeepsDownloads(d, a, actions, b);
  }

  // ------------------------------------------------------------------- whole runs

  function FilesOf(r: Run): set<FileId> {
    match r
    case Created(_, _, _, _) => {}
    case Then(before, _) => FilesOf(before) + if LastChange(r).Declares? then {LastChange(r).fileId} else {}
  }

  /** The run, seen step by step through the protocol, can end in this abstract state. */
  ghost predicate Follows(d: S.Domain, r: Run, a: S.SetState) {
    match r
    case Created(_, _, _, _) => a == S.Initial()
    case Then(before, _) =>
      Shows(a, After(r), Minted(r))
      && exists b, actions :: Follows(d, before, b) && S.Path(d, b, actions, a)
  }

  /** No step completes an upload to an empty file that was already downloaded. */
  ghost predicate NeverReopens(r: Run) {
    r.Then? ==> NeverReopens(r.before) && !ResendsEmptyFile(After(r.before), r.request)
  }

  lemma CreationIsShown(r: Run)
    requires Legal(r) && r.Created?
    ensures Shows(S.Initial(), After(r), Minted(r))
  {
  }

  lemma IssuedIsMinted(r: Run)
    requires Legal(r) && r.Then?
    ensures Minted(r) == IssuedAfter(Minted(r.before), LastChange(r))
    ensures LastChange(r).Mints? ==> LastChange(r).ticket !in Minted(r.before)
  {
    TicketChanges(r);
  }

  lemma {:induction false} FollowedIsShown(d: S.Domain, r: Run, a: S.SetState)
    requires Legal(r) && Follows(d, r, a)
    ensures Shows(a, After(r), Minted(r)) && exists path :: S.Path(d, S.Initial(), path, a)
  {
    if r.Created? {
      CreationIsShown(r);
      NoAction(d, a);
    } else {
      hide Shows, After;
      var b, actions :| Follows(d, r.before, b) && S.Path(d, b, actions, a);
      FollowedIsShown(d, r.before, b);
      var path :| S.Path(d, S.Initial(), path, b);
      S.PathConcat(d, S.Initial(), path, b, actions, a);
    }
  }

  lemma {:induction false} RunIsFollowed(d: S.Domain, r: Run) returns (a: S.SetState)
    requires Legal(r) && NeverReopens(r) && FilesOf(r) <= d.files && Minted(r) <= d.tickets
    ensures Follows(d, r, a)
  {
    hide Step, ChangeOf, Shows, S.Path;
    if r.Created? {
      a := S.Initial();
    } else {
      IssuedIsMinted(r);
      var b := RunIsFollowed(d, r.before);
      FollowedIsShown(d, r.before, b);
      EveryRunIsOk(r.before);
      a := StepIsFollowed(d, After(r.before), r.request, Minted(r.before), b);
    }
  }

  lemma {:induction false} FollowedNeverReopens(d: S.Domain, r: Run, a: S.SetState)
    requires Legal(r) && Follows(d, r, a)
    ensures NeverReopens(r)
  {
    if r.Then? {
      hide Step, ChangeOf, Shows, S.Path;
      var b, actions :| Follows(d, r.before, b) && S.Path(d, b, actions, a);
      FollowedNeverReopens(d, r.before, b);
      FollowedIsShown(d, r.before, b);
      EveryRunIsOk(r.before);
      if ResendsEmptyFile(After(r.before), r.request) {
        ReopeningIsNotFollowed(d, After(r.before), r.request, Minted(r.before), Minted(r), b, actions, a);
      }
    }
  }

  /**
   Refinement, exactly: a run over any finite domain of identities is a run of the protocol if
   and only if it never completes an upload to an empty file that was already downloaded.
   */
  lemma RefinementIsExact(d: S.Domain, r: Run)
    requires Legal(r) && FilesOf(r) <= d.files && Minted(r) <= d.tickets
    ensures (exists a :: Follows(d, r, a)) <==> NeverReopens(r)
  {
    hide Follows, NeverReopens, Legal, FilesOf, Minted;
    if NeverReopens(r) {
      var a := RunIsFollowed(d, r);
    }
    if a :| Follows(d, r, a) {
      FollowedNeverReopens(d, r, a);
    }
  }

  /** Whenever the run is followed, the safety of the protocol is the safety of the tunnel. */
  lemma FollowedIsSafe(d: S.Domain, r: Run, a: S.SetState)
    requires Legal(r) && Follows(d, r, a)
    ensures S.Safe(d, a) && Shows(a, After(r), Minted(r))
  {
    FollowedIsShown(d, r, a);
    var path :| S.Path(d, S.Initial(), path, a);
    S.SafetyForEveryDomain(d, path, a);
  }

  /** With positive declared sizes the refinement is unconditional. */
  lemma {:induction false} PositiveSizesNeverReopen(r: Run)
    requires Legal(r)
    requires forall id, f | DeclaredAs(r, id, f) :: f.sizeBytes > 0
    ensures NeverReopens(r)
  {
    hide Step, ChangeOf, Changed, DeclaredAs;
    if r.Then? {
      forall id, f | DeclaredAs(r.before, id, f) ensures f.sizeBytes > 0 {
        assert DeclaredAs(r, id, f) by { DeclaredOnward(r, id, f); }
      }
      PositiveSizesNeverReopen(r.before);
      var w := After(r.before);
      if ResendsEmptyFile(w, r.request) {
        var id := w.uploads[r.request.task].request.fileId;
        var f := StoredFilesWereDeclared(r.before, id);
        DeclarationsWereAdmissible(r.before, id, f);
        assert false;
      }
    }
  }

  lemma DeclaredOnward(r: Run, id: FileId, f: FileDeclaration)
    requires r.Then? && DeclaredAs(r.before, id, f)
    ensures DeclaredAs(r, id, f)
  {
  }
}
