/** Bytes are neither lost nor invented, and never exceed what the tunnel allows. */
module Conservation {
  import opened TunnelModel
  import opened Changes
  import opened Invariants

  /** The committed bytes of all files together. */
  ghost function TotalBytes(files: map<FileId, FileRecord>): nat {
    if files == map[] then 0
    else
      var id :| id in files;
      files[id].upload.Offset() + TotalBytes(files - {id})
  }

  /** The length of all fresh bodies of a run together. */
  function FreshLength(r: Run): nat {
    match r
    case Created(_, _, _, _) => 0
    case Then(before, _) =>
      FreshLength(before) + if LastChange(r).Appends? then |LastChange(r).body| else 0
  }

  /** Any file can be taken out of the sum first. */
  lemma {:induction false} TakeOut(files: map<FileId, FileRecord>, id: FileId)
    requires id in files
    ensures TotalBytes(files) == files[id].upload.Offset() + TotalBytes(files - {id})
    decreases |files|
  {
    var first :| first in files && TotalBytes(files) == files[first].upload.Offset() + TotalBytes(files - {first});
    if first != id {
      Smaller(files, first);
      Smaller(files, id);
      TakeOut(files - {first}, id);
      TakeOut(files - {id}, first);
      assert files - {first} - {id} == files - {id} - {first};
    }
  }

  lemma Smaller(files: map<FileId, FileRecord>, id: FileId)
    requires id in files
    ensures |files - {id}| == |files| - 1
  {
    assert (files - {id}).Keys == files.Keys - {id};
  }

  lemma PutIn(files: map<FileId, FileRecord>, id: FileId, f: FileRecord)
    ensures TotalBytes(files[id := f]) == f.upload.Offset() + TotalBytes(files - {id})
  {
    TakeOut(files[id := f], id);
    assert files[id := f] - {id} == files - {id};
  }

  lemma {:induction false} EachWithinLimit(files: map<FileId, FileRecord>, limit: nat)
    requires forall id | id in files :: files[id].upload.Offset() <= limit
    ensures TotalBytes(files) <= |files| * limit
    decreases |files|
  {
    if files != map[] {
      var id :| id in files;
      TakeOut(files, id);
      Smaller(files, id);
      EachWithinLimit(files - {id}, limit);
      hide TotalBytes;
      OneTimesMore(|files|, limit);
    }
  }

  lemma OneTimesMore(n: nat, limit: nat)
    requires n > 0
    ensures n * limit == limit + (n - 1) * limit
  {
  }

  lemma ProductGrows(m: nat, n: nat, limit: nat)
    requires m <= n
    ensures m * limit <= n * limit
  {
  }

  lemma ChangeConserves(t: TunnelState, now: Instant, c: Change)
    requires Possible(t, c) && !c.Cancels?
    ensures TotalBytes(Changed(t, now, c).files) == TotalBytes(t.files) + if c.Appends? then |c.body| else 0
  {
    hide TotalBytes, Publish, AllDownloaded;
    PublishOnlyLogs();
    var u := Changed(t, now, c);
    if c.Appends? || c.Fetches? {
      TakeOut(t.files, c.fileId);
      PutIn(t.files, c.fileId, u.files[c.fileId]);
      assert u.files == t.files[c.fileId := u.files[c.fileId]];
    } else if c.Declares? {
      PutIn(t.files, c.fileId, u.files[c.fileId]);
      assert t.files - {c.fileId} == t.files;
    }
  }

  /**
   Until cancellation the committed bytes of all files are the fresh bodies of the run; and
   over the whole run the fresh bodies never exceed the limits agreed at creation.
   */
  lemma {:induction false} BytesAreConserved(r: Run)
    requires Legal(r)
    ensures !After(r).tunnel.status.Cancelled? ==> TotalBytes(After(r).tunnel.files) == FreshLength(r)
    ensures FreshLength(r) <= After(r).tunnel.maxFiles * After(r).tunnel.maxFileBytes
  {
    hide Step, ChangeOf, Changed;
    EveryRunIsOk(r);
    if r.Then? {
      var w, c := After(r.before), LastChange(r);
      BytesAreConserved(r.before);
      LastStep(r);
      PartsAfter(w.tunnel, w.now, c);
      ChangeKeepsFiles(w.tunnel, w.now, c);
      if !After(r).tunnel.status.Cancelled? {
        ChangeConserves(w.tunnel, w.now, c);
        WithinLimits(After(r).tunnel);
      }
    }
  }

  lemma WithinLimits(t: TunnelState)
    requires TunnelOk(t)
    ensures TotalBytes(t.files) <= t.maxFiles * t.maxFileBytes
  {
    hide TotalBytes, EventsOk, PhaseOk;
    forall id | id in t.files ensures t.files[id].upload.Offset() <= t.maxFileBytes {
      assert RecordOk(id, t.files[id], t.maxFileBytes);
    }
    EachWithinLimit(t.files, t.maxFileBytes);
    ProductGrows(|t.files|, t.maxFiles, t.maxFileBytes);
  }
}
