/** The incrementally kept tracks refine recomputation: which events keep them equal to
    what a reload would track, exactly, and that runs of such events never drift. */
module JobAgreement {
  import opened Jobs
  import opened JobCounter
  import opened JobTables
  import opened JobIndex

  /** Does the report leave its detail DONE? */
  predicate EndsDone(db: Database, k: JobKey, fid: string, sid: string, t: TransferState, reported: nat)
    requires HasDetail(db, k, fid)
  {
    Reported(db.details[k][fid], db.files[fid], t, SegBytes(db, sid, reported)).state.Done?
  }

  /** Is detail `fid` of the job DONE, or missing? */
  predicate Closed(db: Database, k: JobKey, fid: string)
    requires k in db.details
  {
    fid in db.details[k] ==> db.details[k][fid].state.Done?
  }

  /** The details that stay open when detail `fid` becomes DONE. */
  function OpenLeft(db: Database, k: JobKey, fid: string): int
    requires k in db.details
  {
    CountUnfinished(db.details[k]) - if Closed(db, k, fid) then 0 else 1
  }

  /** Does counting detail `fid` as DONE retire the job while others are open? The counter is
      below the true count by the drift, and falls once more if the detail was DONE before. */
  ghost predicate RetiresEarly(s: State, k: JobKey, fid: string)
    requires k in s.db.details
  {
    0 < OpenLeft(s.db, k, fid) <= Drift(s, k) + if Closed(s.db, k, fid) then 1 else 0
  }

  /** Has the package a file that is not empty? */
  ghost predicate NonEmptyPkg(db: Database, pid: string)
    requires pid in db.pkgs
  {
    exists f :: f in db.pkgs[pid] && f in db.files && db.files[f].size > 0
  }

  /** There is nothing to transfer in a job created now: its package has only empty files, and
      none of them is open from before. */
  ghost predicate StaysFinished(db: Database, k: JobKey) {
    && k.pid in db.pkgs && !NonEmptyPkg(db, k.pid)
    && (k in db.jobs && k in db.details ==> AllDone(db.details[k]))
  }

  /** The events after which the tracks still are what a reload would track. All others
      create a soft-deleted job again, or one with nothing to transfer unless it is an upload
      being downloaded; delete an upload while it is downloaded; reopen a DONE detail of a job no
      longer tracked; or retire a job early. */
  ghost predicate Safe(s: State, e: Event) {
    match e
    case CreateE(k) =>
      && (k in s.db.jobs ==> !s.db.jobs[k].softDel)
      && (StaysFinished(s.db, k) ==> k.typ.Upload? && HasUnfinishedDownload(s.db, k.pid))
    case DeleteE(k, _) => !(LiveUpload(s.db, k) && HasUnfinishedDownload(s.db, k.pid))
    case AddTaskE(k, fid, numSegs) =>
      HasDetail(s.db, k, fid) && s.db.details[k][fid].state.Done? && s.db.files[fid].size > 0
      && Restarts(s.db.details[k][fid], s.db.files[fid], numSegs) && !s.db.jobs[k].softDel
      ==> k in s.tracks
    case NotifyE(k, fid, sid, t, reported, _) =>
      sid != "" && HasDetail(s.db, k, fid) && !s.db.jobs[k].softDel
      ==> if AllDone(s.db.details[k])
          then EndsDone(s.db, k, fid, sid, t, reported) || k in s.tracks
          else EndsDone(s.db, k, fid, sid, t, reported) && RetiresEarly(s, k, fid)
               ==> k.typ.Upload? && HasUnfinishedDownload(s.db, k.pid)
    case EmptySegsE(k, fid, _) =>
      k in s.db.jobs && k in s.db.details && !AllDone(s.db.details[k]) ==> !RetiresEarly(s, k, fid)
    case _ => true
  }

  // ---------------------------------------------------------------- reports and requests

  lemma AllDoneSave(ds: map<string, Detail>, f: string, d: Detail)
    requires f in ds
    ensures AllDone(ds[f := d]) <==>
      CountUnfinished(ds) - (if ds[f].state.Done? then 0 else 1) + (if d.state.Done? then 0 else 1) == 0
  {
    CountSave(ds, f, d);
    CountZero(ds[f := d]);
  }

  lemma WrittenCounter(s: State, r: State, k: JobKey, fid: string, d: Detail, j: JobKey)
    requires Indexed(s) && Written(Load(s, k), r, k, fid, d) && j != k
    ensures Counted(r, j)
  {
    assert Counted(s, j);
  }

  lemma WrittenTables(s: State, r: State, k: JobKey, fid: string, d: Detail)
    requires Written(Load(s, k), r, k, fid, d)
    ensures k in s.db.jobs
    ensures r.tracks == s.tracks && r.db.jobs.Keys == s.db.jobs.Keys && r.db.details.Keys == s.db.details.Keys
    ensures forall y :: y in s.db.jobs ==> r.db.jobs[y].softDel == s.db.jobs[y].softDel
    ensures forall y :: y in s.db.details && y != k ==> r.db.details[y] == s.db.details[y]
  {
  }

  lemma WrittenIsWrite(s: State, r: State, k: JobKey, fid: string, d: Detail)
    requires Indexed(s) && Written(Load(s, k), r, k, fid, d)
    ensures WriteTo(s, r, k)
  {
    hide Indexed, Written, Load, Counted;
    WrittenTables(s, r, k, fid, d);
    forall j | j != k
      ensures Counted(r, j)
    {
      WrittenCounter(s, r, k, fid, d, j);
    }
  }

  /** Is job `k` retired when its loaded counter has been written back? */
  lemma WrittenFinishing(s: State, r: State, k: JobKey, fid: string, d: Detail)
    requires Counted(s, k) && Written(Load(s, k), r, k, fid, d)
    ensures Finishing(r, k) <==>
      d.state.Done? && (AllDone(s.db.details[k]) || CountUnfinished(s.db.details[k]) <= Drift(s, k) + 1)
  {
    var ds := s.db.details[k];
    CountZero(ds);
    AllDoneSave(ds, fid, d);
    assert r.db.details[k] == ds[fid := d];
    CountZero(r.db.details[k]);
    if AllDone(ds) {
      assert k !in r.cache;
    } else {
      assert Load(s, k).cache[k] == CountUnfinished(ds) - Drift(s, k);
      assert k in r.cache;
    }
  }

  /** Job `k` was written and processed: the condition of ProcessExactly, in terms of the
      details before the write. */
  lemma WrittenExactly(s: State, r: State, k: JobKey, fid: string, d: Detail, order: seq<string>)
    requires Indexed(s) && Written(Load(s, k), r, k, fid, d) && OrderFits(r, k, order)
    ensures AllAgree(ProcessJob(r, k, order)) <==>
      (!s.db.jobs[k].softDel ==>
         if AllDone(s.db.details[k]) then d.state.Done? || k in s.tracks
         else d.state.Done? && RetiresEarly(s, k, fid) ==> k.typ.Upload? && HasUnfinishedDownload(s.db, k.pid))
  {
    assert Counted(s, k) && Agrees(s, k);
    WrittenIsWrite(s, r, k, fid, d);
    WrittenFinishing(s, r, k, fid, d);
    AllDoneSave(s.db.details[k], fid, d);
    CountZero(s.db.details[k]);
    ProcessExactly(s, r, k, order);
  }

  lemma NotifySafe(s: State, k: JobKey, fid: string, sid: string, t: TransferState, reported: nat, order: seq<string>)
    requires Indexed(s) && OrderFits(s, k, order)
    ensures AllAgree(Notify(s, k, fid, sid, t, reported, order))
       <==> Safe(s, NotifyE(k, fid, sid, t, reported, order))
  {
    if sid == "" || !HasDetail(s.db, k, fid) {
      SameAgreement(s, Notify(s, k, fid, sid, t, reported, order));
    } else {
      ReportSafe(s, k, fid, sid, t, reported, order);
    }
  }

  lemma ReportSafe(s: State, k: JobKey, fid: string, sid: string, t: TransferState, reported: nat, order: seq<string>)
    requires Indexed(s) && OrderFits(s, k, order) && sid != "" && HasDetail(s.db, k, fid)
    ensures AllAgree(ProcessJob(Reporting(s, k, fid, sid, t, reported), k, order))
       <==> Safe(s, NotifyE(k, fid, sid, t, reported, order))
  {
    var d := Reported(s.db.details[k][fid], s.db.files[fid], t, SegBytes(s.db, sid, reported));
    var r := Reporting(s, k, fid, sid, t, reported);
    ReportingWrites(s, k, fid, sid, t, reported);
    assert r.tracks == s.tracks;
    WrittenExactly(s, r, k, fid, d, order);
  }

  lemma ClaimSafe(s: State, k: JobKey, fid: string, order: seq<string>)
    requires Indexed(s) && OrderFits(s, k, order) && k.typ.Download? && HasDetail(s.db, k, fid)
    ensures AllAgree(EmptySegs(s, k, fid, order)) <==> Safe(s, EmptySegsE(k, fid, order))
  {
    hide AllAgree;
    var d := Detail(Done, true, s.db.files[fid].size, s.db.files[fid].numSegs);
    CountZero(s.db.details[k]);
    WrittenExactly(s, Claiming(s, k, fid), k, fid, d, order);
  }

  lemma UnknownFileSafe(s: State, k: JobKey, fid: string, order: seq<string>)
    requires Indexed(s) && OrderFits(s, k, order) && k.typ.Download?
    requires k in s.db.jobs && k in s.db.details && !HasDetail(s.db, k, fid)
    requires WriteTo(s, Claiming(s, k, fid), k)
    requires Finishing(Claiming(s, k, fid), k) <==>
      AllDone(s.db.details[k]) || CountUnfinished(s.db.details[k]) <= Drift(s, k) + 1
    ensures AllAgree(EmptySegs(s, k, fid, order)) <==>
      (!AllDone(s.db.details[k]) ==> CountUnfinished(s.db.details[k]) > Drift(s, k) + 1)
  {
    CountZero(s.db.details[k]);
    assert Agrees(s, k);
    ProcessExactly(s, Claiming(s, k, fid), k, order);
  }

  lemma UnknownFileWrite(s: State, r: State, k: JobKey, fid: string)
    requires Indexed(s) && k in s.db.jobs && k in s.db.details && !HasDetail(s.db, k, fid) && r == Claiming(s, k, fid)
    ensures WriteTo(s, r, k)
    ensures Finishing(r, k) <==> AllDone(s.db.details[k]) || CountUnfinished(s.db.details[k]) <= Drift(s, k) + 1
  {
    assert Counted(s, k);
    CountZero(s.db.details[k]);
    forall j | j != k
      ensures Counted(r, j)
    {
      assert Counted(s, j);
    }
  }

  lemma MissingFile(db: Database, k: JobKey, fid: string)
    requires TablesValid(db) && k in db.jobs && !HasDetail(db, k, fid)
    ensures k in db.details && fid !in db.details[k]
  {
    assert JobFits(db, k) && PkgFits(db, k.pid);
  }

  lemma MissingSafe(s: State, k: JobKey, fid: string, order: seq<string>)
    requires Indexed(s) && OrderFits(s, k, order) && k.typ.Download? && k in s.db.jobs && !HasDetail(s.db, k, fid)
    ensures AllAgree(EmptySegs(s, k, fid, order)) <==> Safe(s, EmptySegsE(k, fid, order))
  {
    hide AllAgree, TablesValid, Counted, SoleUploads, EmptySegs, Claiming;
    MissingFile(s.db, k, fid);
    CountZero(s.db.details[k]);
    UnknownFileWrite(s, Claiming(s, k, fid), k, fid);
    UnknownFileSafe(s, k, fid, order);
  }

  lemma EmptySegsSafe(s: State, k: JobKey, fid: string, order: seq<string>)
    requires Indexed(s) && OrderFits(s, k, order) && k.typ.Download?
    ensures AllAgree(EmptySegs(s, k, fid, order)) <==> Safe(s, EmptySegsE(k, fid, order))
  {
    if k !in s.db.jobs {
      assert Counted(s, k);
      SameAgreement(s, EmptySegs(s, k, fid, order));
    } else if HasDetail(s.db, k, fid) {
      ClaimSafe(s, k, fid, order);
    } else {
      MissingSafe(s, k, fid, order);
    }
  }

  // ---------------------------------------------------------------- tasks and progress

  lemma SavedAgrees(s: State, r: State, k: JobKey, fid: string, d: Detail)
    requires Indexed(s) && HasDetail(s.db, k, fid)
    requires r.tracks == s.tracks && r.db.details == s.db.details[k := s.db.details[k][fid := d]]
    requires r.db.jobs.Keys == s.db.jobs.Keys
    requires forall y :: y in s.db.jobs ==> r.db.jobs[y].softDel == s.db.jobs[y].softDel
    requires d.state.Done? ==> s.db.details[k][fid].state.Done?
    ensures AllAgree(r) <==>
      (s.db.details[k][fid].state.Done? && !d.state.Done? && !s.db.jobs[k].softDel ==> k in s.tracks)
  {
    hide TablesValid, Counted, SoleUploads;
    AllDoneSave(s.db.details[k], fid, d);
    CountZero(s.db.details[k]);
    assert Agrees(s, k);
    SameTracksAgree(s, r, k);
  }

  lemma AddTaskSaves(s: State, k: JobKey, fid: string, numSegs: nat)
    requires HasDetail(s.db, k, fid)
    ensures var r := AddTask(s, k, fid, numSegs);
      var d := TaskedDetail(s.db.details[k][fid], s.db.files[fid], numSegs);
      && r.tracks == s.tracks && r.db.details == s.db.details[k := s.db.details[k][fid := d]]
      && r.db.jobs.Keys == s.db.jobs.Keys
      && (forall y :: y in s.db.jobs ==> r.db.jobs[y].softDel == s.db.jobs[y].softDel)
  {
  }

  lemma AddTaskSafe(s: State, k: JobKey, fid: string, numSegs: nat)
    requires Indexed(s)
    ensures AllAgree(AddTask(s, k, fid, numSegs)) <==> Safe(s, AddTaskE(k, fid, numSegs))
  {
    if HasDetail(s.db, k, fid) {
      var d := TaskedDetail(s.db.details[k][fid], s.db.files[fid], numSegs);
      AddTaskSaves(s, k, fid, numSegs);
      SavedAgrees(s, AddTask(s, k, fid, numSegs), k, fid, d);
    } else {
      SameAgreement(s, AddTask(s, k, fid, numSegs));
    }
  }

  lemma DelTaskSafe(s: State, k: JobKey, fid: string, t: TransferState)
    requires Indexed(s)
    ensures AllAgree(DelTask(s, k, fid, t))
  {
    if HasDetail(s.db, k, fid) {
      SavedAgrees(s, DelTask(s, k, fid, t), k, fid, UntaskedDetail(s.db.details[k][fid], t));
    } else {
      SameAgreement(s, DelTask(s, k, fid, t));
    }
  }

  lemma ProgressSafe(s: State, k: JobKey, fid: string, size: nat, n: int)
    requires Indexed(s)
    ensures AllAgree(Progress(s, k, fid, size, n))
  {
    if HasDetail(s.db, k, fid) {
      SavedAgrees(s, Progress(s, k, fid, size, n), k, fid,
        s.db.details[k][fid].(finishedSize := size, numFinishedSegs := n));
    } else {
      SameAgreement(s, Progress(s, k, fid, size, n));
    }
  }

  // ---------------------------------------------------------------- creating and deleting

  /** Job `k` became unfinished and is tracked, with the uploads it brings. */
  lemma StartedAgrees(s: State, r: State, k: JobKey)
    requires AllAgree(s) && SameElsewhere(s.db, r.db, k) && k in r.db.jobs && k in r.db.details
    requires !r.db.jobs[k].softDel && !AllDone(r.db.details[k])
    requires r.tracks == WithTrack(r.db, s.tracks, k)
    ensures AllAgree(r)
  {
    assert UnfinishedJob(r.db, k);
    if k.typ.Download? { assert HasUnfinishedDownload(r.db, k.pid); }
    forall x
      ensures Agrees(r, x)
    {
      assert Agrees(s, x);
      if k.typ.Upload? {
        SameUploadDownloads(s.db, r.db, k, x.pid);
      } else if x.pid != k.pid {
        SameDownloads(s.db, r.db, k, x.pid);
      }
    }
  }

  lemma NonEmptyCreated(db: Database, pid: string, ds: map<string, Detail>)
    requires pid in db.pkgs && NonEmptyPkg(db, pid) && ds.Keys == set f | f in db.pkgs[pid]
    requires forall f :: f in ds && f in db.files && db.files[f].size > 0 ==> ds[f].state.Idle?
    ensures !AllDone(ds)
  {
    var f :| f in db.pkgs[pid] && f in db.files && db.files[f].size > 0;
    assert f in ds;
  }

  /** Job `k` has nothing to transfer and is tracked, with the uploads it brings. */
  lemma FinishedTracked(s: State, r: State, k: JobKey)
    requires AllAgree(s) && SameElsewhere(s.db, r.db, k) && k in r.db.jobs && k in r.db.details
    requires !UnfinishedJob(s.db, k) && !r.db.jobs[k].softDel && AllDone(r.db.details[k])
    requires r.tracks == WithTrack(r.db, s.tracks, k)
    ensures AllAgree(r) <==> (k.typ.Upload? && HasUnfinishedDownload(s.db, k.pid))
  {
    SameDownloads(s.db, r.db, k, k.pid);
    if k.typ.Upload? && HasUnfinishedDownload(s.db, k.pid) {
      forall x
        ensures Agrees(r, x)
      {
        assert Agrees(s, x);
        SameDownloads(s.db, r.db, k, x.pid);
      }
    } else {
      assert !Agrees(r, k);
    }
  }

  lemma JobRecreated(db: Database, k: JobKey)
    requires TablesValid(db) && k in db.jobs
    ensures k in db.details && k.pid in db.pkgs
    ensures var r := RecreatedDb(db, k);
      && r.jobs == db.jobs && SameElsewhere(db, r, k) && k in r.details
      && (AllDone(r.details[k]) <==> StaysFinished(db, k))
  {
    assert JobFits(db, k);
    var ds := RecreatedDb(db, k).details[k];
    if NonEmptyPkg(db, k.pid) {
      NonEmptyCreated(db, k.pid, ds);
    } else {
      assert forall f :: f in ds ==> ds[f].state == db.details[k][f].state;
      assert ds.Keys == db.details[k].Keys;
    }
  }

  lemma RecreateSafe(s: State, k: JobKey)
    requires Indexed(s) && k in s.db.jobs
    ensures AllAgree(CreateJob(s, k)) <==> Safe(s, CreateE(k))
  {
    var r := CreateJob(s, k);
    JobRecreated(s.db, k);
    assert StaysFinished(s.db, k) && !s.db.jobs[k].softDel ==> !UnfinishedJob(s.db, k);
    hide RecreatedDb, StaysFinished, TablesValid, SoleUploads, Counted;
    assert r.tracks == WithTrack(s.db, s.tracks, k) == WithTrack(r.db, s.tracks, k);
    if s.db.jobs[k].softDel {
      assert !Agrees(r, k);
    } else if StaysFinished(s.db, k) {
      FinishedTracked(s, r, k);
    } else {
      StartedAgrees(s, r, k);
    }
  }

  lemma NewJobCreated(db: Database, k: JobKey)
    requires k.pid in db.pkgs && k !in db.jobs && k !in db.details && PkgFits(db, k.pid)
    ensures var r := CreatedDb(db, k);
      && SameElsewhere(db, r, k) && r.jobs.Keys == db.jobs.Keys + {k} && !r.jobs[k].softDel
      && k in r.details && (AllDone(r.details[k]) <==> StaysFinished(db, k))
  {
    if NonEmptyPkg(db, k.pid) { NonEmptyCreated(db, k.pid, CreatedDb(db, k).details[k]); }
  }

  lemma NewJobSafe(s: State, k: JobKey)
    requires Indexed(s) && k !in s.db.jobs && k.pid in s.db.pkgs
    ensures AllAgree(CreateJob(s, k)) <==> Safe(s, CreateE(k))
  {
    var r := CreateJob(s, k);
    assert k !in s.db.details && PkgFits(s.db, k.pid);
    assert r.db == CreatedDb(s.db, k);
    NewJobCreated(s.db, k);
    hide CreatedDb, StaysFinished;
    if StaysFinished(s.db, k) { FinishedTracked(s, r, k); } else { StartedAgrees(s, r, k); }
  }

  lemma CreateSafe(s: State, k: JobKey)
    requires Indexed(s)
    ensures AllAgree(CreateJob(s, k)) <==> Safe(s, CreateE(k))
  {
    if k in s.db.jobs {
      RecreateSafe(s, k);
    } else if k.pid in s.db.pkgs {
      NewJobSafe(s, k);
    } else {
      SameAgreement(s, CreateJob(s, k));
    }
  }

  lemma DeletedSettles(s: State, r: State, k: JobKey)
    requires Indexed(s) && k in s.db.jobs && r.tracks == s.tracks
    requires r.db == s.db.(jobs := s.db.jobs - {k}, details := s.db.details - {k})
    requires !(LiveUpload(s.db, k) && HasUnfinishedDownload(s.db, k.pid))
    ensures SameElsewhere(s.db, r.db, k) && Settling(r, k)
  {
    assert SameElsewhere(s.db, r.db, k);
    FinishSettles(s, r, k);
  }

  lemma DeleteAgrees(s: State, k: JobKey, order: seq<string>, x: JobKey)
    requires Indexed(s) && OrderFits(s, k, order) && Safe(s, DeleteE(k, order))
    ensures Agrees(DeleteJob(s, k, order), x)
  {
    assert Agrees(s, x);
    if k in s.db.jobs {
      var r := s.(db := s.db.(jobs := s.db.jobs - {k}, details := s.db.details - {k}));
      DeletedSettles(s, r, k);
      if x.pid == k.pid {
        assert SoleUploads(s.db, k.pid);
        SameKeysSole(s.db, r.db, k.pid);
        forall u: JobKey | u.typ.Upload? && u.pid == k.pid
          ensures Counted(r.(cache := r.cache - {k}), u)
        {
          assert Counted(s, u);
        }
        DelTrackIgnores(r, k, order);
        DelTrackAgrees(r.(cache := r.cache - {k}), k, order, x);
      } else {
        ElsewhereAgrees(s, r, k, order, x);
      }
    }
  }

  lemma DeleteSafe(s: State, k: JobKey, order: seq<string>)
    requires Indexed(s) && OrderFits(s, k, order)
    ensures AllAgree(DeleteJob(s, k, order)) <==> Safe(s, DeleteE(k, order))
  {
    if Safe(s, DeleteE(k, order)) {
      forall x
        ensures Agrees(DeleteJob(s, k, order), x)
      {
        DeleteAgrees(s, k, order, x);
      }
    } else {
      var uid :| UnfinishedJob(s.db, JobKey(uid, k.pid, Download));
      assert Agrees(s, JobKey(uid, k.pid, Download)) && Agrees(s, k);
      assert uid in TrackedUsers(s.tracks, k.pid, Download);
      assert !Agrees(DeleteJob(s, k, order), k);
    }
  }

  // ---------------------------------------------------------------- deleting a package

  /** All jobs but the soft-deleted upload `k` agree, and no other upload of its package is
      known. */
  ghost predicate AgreesBut(s: State, k: JobKey) {
    && k.typ.Upload? && !LiveUpload(s.db, k) && !UnfinishedJob(s.db, k)
    && (forall x :: x != k ==> Agrees(s, x))
    && (forall u :: u in s.db.jobs && u.typ.Upload? && u.pid == k.pid ==> u == k)
    && (forall u :: u in s.tracks && u.typ.Upload? && u.pid == k.pid ==> u == k)
  }

  lemma DeleteDownloadAgrees(s: State, k: JobKey, d: JobKey, order: seq<string>)
    requires AgreesBut(s, k) && d.typ.Download? && d.pid == k.pid
    ensures AgreesBut(DeleteJob(s, d, order), k)
  {
    var r := DeleteJob(s, d, order);
    if d in s.db.jobs {
      var s1 := s.(db := s.db.(jobs := s.db.jobs - {d}, details := s.db.details - {d}));
      forall x
        ensures x != k ==> Agrees(r, x)
        ensures x in r.tracks ==> x in s.tracks
      {
        DelTrackTracks(s1, d, order, x);
        if x != k {
          assert Agrees(s, x);
          if x.pid != k.pid { SameDownloads(s.db, s1.db, d, x.pid); }
        }
      }
    }
  }

  lemma {:induction false} DeleteDownloadsAgree(s: State, k: JobKey, plan: seq<Deletion>)
    requires AgreesBut(s, k)
    ensures AgreesBut(DeleteDownloads(s, k.pid, plan), k)
    decreases |plan|
  {
    if plan != [] {
      var d := JobKey(plan[0].uid, k.pid, Download);
      DeleteDownloadAgrees(s, k, d, plan[0].order);
      DeleteDownloadsAgree(DeleteJob(s, d, plan[0].order), k, plan[1..]);
    }
  }

  lemma DeletePkgSafe(s: State, k: JobKey, plan: seq<Deletion>, order: seq<string>)
    requires Indexed(s) && Possible(s, DeletePkgE(k, plan, order))
    ensures AllAgree(DeletePkg(s, k, plan, order))
  {
    var s1 := SoftDeleted(s, k);
    SoftDeletedAgrees(s, k);
    DeleteDownloadsAgree(s1, k, plan);
    var s2 := DeleteDownloads(s1, k.pid, plan);
    assert forall u :: JobKey(u, k.pid, Download) in s.db.jobs ==> LiveDownload(s.db, k.pid, u);
    DownloadsGone(s1, k, plan);
    forall uid: string
      ensures uid !in TrackedUsers(s2.tracks, k.pid, Download)
    {
      assert Agrees(s2, JobKey(uid, k.pid, Download));
    }
    LastDelTrackAgrees(s2, k, order);
  }

  lemma SoftDeletedAgrees(s: State, k: JobKey)
    requires Indexed(s) && k in s.db.jobs && k.typ.Upload?
    ensures AgreesBut(SoftDeleted(s, k), k)
  {
    var s1 := SoftDeleted(s, k);
    assert SoleUploads(s.db, k.pid);
    forall x
      ensures x != k ==> Agrees(s1, x)
      ensures x in s1.tracks && x.typ.Upload? && x.pid == k.pid ==> x == k
    {
      assert Agrees(s, x);
      if x != k { SameUploadDownloads(s.db, s1.db, k, x.pid); }
    }
  }

  lemma DownloadsGone(s: State, k: JobKey, plan: seq<Deletion>)
    requires s.db.jobs.Keys == s.db.details.Keys
    requires forall u :: JobKey(u, k.pid, Download) in s.db.jobs ==> Planned(plan, u)
    ensures forall u :: JobKey(u, k.pid, Download) !in DeleteDownloads(s, k.pid, plan).db.jobs
  {
    DeleteDownloadsTables(s, k.pid, plan);
  }

  lemma LastDelTrackAgrees(s: State, k: JobKey, order: seq<string>)
    requires AgreesBut(s, k) && OrderFits(s, k, order)
    requires TrackedUsers(s.tracks, k.pid, Download) == {}
    ensures AllAgree(DelTrack(s, k, order))
  {
    var r := DelTrack(s, k, order);
    forall x
      ensures Agrees(r, x)
    {
      DelTrackTracks(s, k, order, x);
      CascadeTracks(s.(tracks := s.tracks - {k}), k.pid, order, x);
      assert x != k ==> Agrees(s, x);
    }
  }

  // ---------------------------------------------------------------- every event

  /** When tracks agree with the database, the events that keep the agreement are exactly the safe
      ones, however far the counters have drifted. */
  lemma SafeExactly(s: State, e: Event)
    requires Indexed(s) && Possible(s, e)
    ensures AllAgree(Step(s, e)) <==> Safe(s, e)
  {
    match e
    case NotifyE(k, fid, sid, t, reported, order) => NotifySafe(s, k, fid, sid, t, reported, order);
    case EmptySegsE(k, fid, order) => EmptySegsSafe(s, k, fid, order);
    case AddTaskE(k, fid, numSegs) => AddTaskSafe(s, k, fid, numSegs);
    case DelTaskE(k, fid, t) => DelTaskSafe(s, k, fid, t);
    case ProgressE(k, fid, size, n) => ProgressSafe(s, k, fid, size, n);
    case CreateE(k) => CreateSafe(s, k);
    case DeleteE(k, order) => DeleteSafe(s, k, order);
    case DeletePkgE(k, plan, order) => DeletePkgSafe(s, k, plan, order);
    case NewPkgE(pid, fids, files, segs) => UnchangedJobsAgree(s, Step(s, e));
    case GetJobE(k) => UnchangedJobsAgree(s, Step(s, e));
    case EnableE(_) => UnchangedJobsAgree(s, Step(s, e));
    case FetchDeletesE(_, _, _) => UnchangedJobsAgree(s, Step(s, e));
    case RestartE => RestartAgrees(s);
  }

  lemma UnchangedJobsAgree(s: State, r: State)
    requires AllAgree(s) && r.tracks == s.tracks && r.db.jobs == s.db.jobs && r.db.details == s.db.details
    ensures AllAgree(r)
  {
    forall x
      ensures Agrees(r, x)
    {
      assert Agrees(s, x);
      SameDownloads(s.db, r.db, x, x.pid);
    }
  }

  /** A reload agrees with the database, whatever was there before. */
  lemma RestartAgrees(s: State)
    ensures AllAgree(Restart(s))
  {
  }

  // ---------------------------------------------------------------- runs

  /** A package gets no second uploader: the program creates its upload only together with it. */
  ghost predicate Plain(s: State, e: Event) {
    e.CreateE? && e.key.typ.Upload? ==>
      forall u :: u in s.db.jobs && u.typ.Upload? && u.pid == e.key.pid ==> u == e.key
  }

  ghost predicate PlainRun(es: seq<Event>) {
    es != [] ==> PlainRun(es[..|es| - 1]) && Plain(Run(es[..|es| - 1]), es[|es| - 1])
  }

  /** Every event is safe where it happens. */
  ghost predicate SafeRun(es: seq<Event>) {
    es != [] ==> SafeRun(es[..|es| - 1]) && Safe(Run(es[..|es| - 1]), es[|es| - 1])
  }

  /** The tracks agree with a reload all along the run. */
  ghost predicate AgreesThroughout(es: seq<Event>) {
    AllAgree(Run(es)) && (es != [] ==> AgreesThroughout(es[..|es| - 1]))
  }

  lemma StepSoleUploads(s: State, e: Event, pid: string)
    requires TablesValid(s.db) && Possible(s, e) && Plain(s, e) && SoleUploads(s.db, pid)
    ensures SoleUploads(Step(s, e).db, pid)
  {
    KeysMatch(s.db);
    forall u, v | u in Step(s, e).db.jobs && v in Step(s, e).db.jobs && u.typ.Upload? && v.typ.Upload?
                  && u.pid == pid && v.pid == pid
      ensures u == v
    {
      StepJobs(s, e, u);
      StepJobs(s, e, v);
    }
  }

  /** Counters, tables and packages stay in order whatever happens. */
  lemma StepGrounded(s: State, e: Event)
    requires Grounded(s) && Possible(s, e) && Plain(s, e)
    ensures Grounded(Step(s, e))
  {
    var r := Step(s, e);
    StepKeepsTables(s, e);
    forall j
      ensures Counted(r, j)
    {
      assert Counted(s, j);
      if e.NotifyE? || e.EmptySegsE? { assert Counted(s, e.key); }
      StepDrifts(s, e, j);
    }
    forall pid
      ensures SoleUploads(r.db, pid)
    {
      assert SoleUploads(s.db, pid);
      StepSoleUploads(s, e, pid);
    }
  }

  lemma {:induction false} RunGrounded(es: seq<Event>)
    requires PossibleRun(es) && PlainRun(es)
    ensures Grounded(Run(es))
  {
    if es != [] {
      RunGrounded(es[..|es| - 1]);
      StepGrounded(Run(es[..|es| - 1]), es[|es| - 1]);
    }
  }

  /** In every reachable state in which the tracks agree with a reload, however far the counters
      have drifted, an event keeps them in agreement if and only if it is safe. */
  lemma SafeExactlyWhereReached(es: seq<Event>, e: Event)
    requires PossibleRun(es) && PlainRun(es) && Possible(Run(es), e) && AllAgree(Run(es))
    ensures AllAgree(Step(Run(es), e)) <==> Safe(Run(es), e)
  {
    RunGrounded(es);
    SafeExactly(Run(es), e);
  }

  /** Over any run the tracks kept step by step agree with a reload all along if and only if
      every event of the run is safe. */
  lemma {:induction false} AgreesThroughoutExactly(es: seq<Event>)
    requires PossibleRun(es) && PlainRun(es)
    ensures AgreesThroughout(es) <==> SafeRun(es)
  {
    if es == [] {
      assert forall x :: Agrees(Run(es), x);
    } else {
      var before := es[..|es| - 1];
      AgreesThroughoutExactly(before);
      if SafeRun(before) { SafeExactlyWhereReached(before, es[|es| - 1]); }
    }
  }

  /** The tracks kept step by step are, after every run of safe events, the set that reloading
      the database would compute: the unfinished jobs, and the uploads of the packages with an
      unfinished download. */
  lemma IndexRefinesReload(es: seq<Event>)
    requires PossibleRun(es) && PlainRun(es) && SafeRun(es)
    ensures Run(es).tracks == Recomputed(Run(es).db)
  {
    AgreesThroughoutExactly(es);
    AgreementIsReload(Run(es));
  }

  lemma AgreementIsReload(s: State)
    ensures AllAgree(s) <==> s.tracks == Recomputed(s.db)
  {
    if AllAgree(s) {
      forall x
        ensures x in s.tracks <==> x in Recomputed(s.db)
      {
        assert Agrees(s, x);
      }
    }
    if s.tracks == Recomputed(s.db) {
      forall x
        ensures Agrees(s, x)
      {
        assert x in s.tracks <==> x in Recomputed(s.db);
      }
    }
  }

  /** The process can be started again without any job appearing in or vanishing from the tracks
      if and only if they agreed before. */
  lemma RestartInvisibleExactly(s: State)
    ensures Restart(s).tracks == s.tracks <==> AllAgree(s)
  {
    SyncedShouldTrack(s.db);
    AgreementIsReload(s);
  }

  lemma SyncedUnfinished(db: Database, k: JobKey)
    ensures UnfinishedJob(Synced(db), k) <==> UnfinishedJob(db, k)
    ensures LiveUpload(Synced(db), k) <==> LiveUpload(db, k)
  {
    if k in db.details {
      var ds := Synced(db).details[k];
      assert ds.Keys == db.details[k].Keys;
      assert forall f :: f in ds ==> ds[f] == SyncedDetail(db.details[k][f]);
      assert AllDone(Synced(db).details[k]) <==> AllDone(db.details[k]);
    }
  }

  /** Synchronising the states at startup opens and closes no job. */
  lemma SyncedShouldTrack(db: Database)
    ensures Recomputed(Synced(db)) == Recomputed(db)
  {
    assert Synced(db).jobs.Keys == db.jobs.Keys;
    hide Synced, UnfinishedJob, LiveUpload;
    forall k
      ensures UnfinishedJob(Synced(db), k) <==> UnfinishedJob(db, k)
      ensures LiveUpload(Synced(db), k) <==> LiveUpload(db, k)
    {
      SyncedUnfinished(db, k);
    }
    assert forall pid :: HasUnfinishedDownload(Synced(db), pid) <==> HasUnfinishedDownload(db, pid);
  }
}
