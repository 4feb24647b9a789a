/** The incrementally kept set of tracked jobs against the set that a reload of the
    database would compute. */
module JobIndex {
  import opened Jobs
  import opened JobCounter
  import opened JobTables

  /** Job `x` is tracked exactly if a reload would track it. */
  ghost predicate Agrees(s: State, x: JobKey) {
    x in s.tracks <==> ShouldTrack(s.db, x)
  }

  ghost predicate AllAgree(s: State) {
    forall x :: Agrees(s, x)
  }

  /** No two users upload the package. */
  ghost predicate SoleUploads(db: Database, pid: string) {
    forall u, v :: u in db.jobs && v in db.jobs && u.typ.Upload? && v.typ.Upload? && u.pid == pid && v.pid == pid
      ==> u == v
  }

  // ---------------------------------------------------------------- one job changed

  /** The two databases agree on every job but `k`, as far as tracking is concerned. */
  ghost predicate SameElsewhere(db: Database, db': Database, k: JobKey) {
    forall y :: y != k ==>
      (UnfinishedJob(db, y) <==> UnfinishedJob(db', y)) && (LiveUpload(db, y) <==> LiveUpload(db', y))
  }

  lemma SameDownloads(db: Database, db': Database, k: JobKey, pid: string)
    requires SameElsewhere(db, db', k)
    requires pid == k.pid ==> (UnfinishedJob(db, k) <==> UnfinishedJob(db', k))
    ensures HasUnfinishedDownload(db, pid) <==> HasUnfinishedDownload(db', pid)
  {
    if HasUnfinishedDownload(db, pid) {
      var uid :| UnfinishedJob(db, JobKey(uid, pid, Download));
      assert UnfinishedJob(db', JobKey(uid, pid, Download));
    }
    if HasUnfinishedDownload(db', pid) {
      var uid :| UnfinishedJob(db', JobKey(uid, pid, Download));
      assert UnfinishedJob(db, JobKey(uid, pid, Download));
    }
  }

  // ---------------------------------------------------------------- DelTrack

  /** How many uploaders the cascade visits before the first whose upload is unfinished. */
  ghost function Visited(s: State, pid: string, order: seq<string>): (n: nat)
    ensures n <= |order|
    decreases |order|
  {
    if order == [] then 0 else
    var u := JobKey(order[0], pid, Upload);
    if u in s.db.jobs && !LooksFinished(Load(s, u), u) then 0 else 1 + Visited(s, pid, order[1..])
  }

  lemma {:induction false} SameVisited(s: State, t: State, pid: string, order: seq<string>)
    requires forall u :: LooksFinished(Load(s, u), u) <==> LooksFinished(Load(t, u), u)
    requires s.db == t.db
    ensures Visited(s, pid, order) == Visited(t, pid, order)
    decreases |order|
  {
    if order != [] {
      SameVisited(s, t, pid, order[1..]);
    }
  }

  lemma LoadLooks(s: State, tracks: set<JobKey>, k: JobKey, u: JobKey)
    ensures LooksFinished(Load(s, u), u) <==> LooksFinished(Load(Load(s, k).(tracks := tracks), u), u)
  {
  }

  /** The uploads of the first `n` users listed. */
  function UploadsOf(pid: string, order: seq<string>, n: nat): set<JobKey>
    requires n <= |order|
  {
    set i | 0 <= i < n :: JobKey(order[i], pid, Upload)
  }

  /** The cascade untracks the uploads of exactly those users that stand before the first
      unfinished one. */
  lemma {:induction false} CascadePrefix(s: State, pid: string, order: seq<string>)
    ensures Cascade(s, pid, order).tracks == s.tracks - UploadsOf(pid, order, Visited(s, pid, order))
    decreases |order|
  {
    if order != [] {
      var u := JobKey(order[0], pid, Upload);
      var s1 := Load(s, u);
      var t := s1.(tracks := s1.tracks - {u});
      if !(u in s.db.jobs && !LooksFinished(s1, u)) {
        forall v
          ensures LooksFinished(Load(s, v), v) <==> LooksFinished(Load(t, v), v)
        {
          LoadLooks(s, s1.tracks - {u}, u, v);
        }
        SameVisited(s, t, pid, order[1..]);
        CascadePrefix(t, pid, order[1..]);
        OneMoreUpload(pid, order, Visited(s, pid, order[1..]));
      }
    }
  }

  lemma OneMoreUpload(pid: string, order: seq<string>, n: nat)
    requires n < |order|
    ensures UploadsOf(pid, order, n + 1) == {JobKey(order[0], pid, Upload)} + UploadsOf(pid, order[1..], n)
  {
    forall x | x in UploadsOf(pid, order, n + 1)
      ensures x in {JobKey(order[0], pid, Upload)} + UploadsOf(pid, order[1..], n)
    {
      var i :| 0 <= i < n + 1 && x == JobKey(order[i], pid, Upload);
      assert i > 0 ==> order[1..][i - 1] == order[i];
    }
  }

  lemma {:induction false} CascadeTracks(s: State, pid: string, order: seq<string>, x: JobKey)
    ensures var r := Cascade(s, pid, order);
      && (x in r.tracks ==> x in s.tracks)
      && (x in s.tracks && x !in r.tracks ==> x.typ.Upload? && x.pid == pid && x.uid in order)
    decreases |order|
  {
    if order != [] {
      var u := JobKey(order[0], pid, Upload);
      var s1 := Load(s, u);
      if !(u in s.db.jobs && !LooksFinished(s1, u)) {
        CascadeTracks(s1.(tracks := s1.tracks - {u}), pid, order[1..], x);
      }
    }
  }

  lemma DelTrackTracks(s: State, k: JobKey, order: seq<string>, x: JobKey)
    ensures var r := DelTrack(s, k, order);
      && (x in r.tracks ==> x in s.tracks)
      && (x in s.tracks && x !in r.tracks ==> x == k || (x.typ.Upload? && x.pid == k.pid))
      && (k.typ.Download? ==> k !in r.tracks)
  {
    CascadeTracks(s.(tracks := s.tracks - {k}), k.pid, order, x);
    CascadeTracks(s.(tracks := s.tracks - {k}), k.pid, order, k);
  }

  /** DelTrack never looks at the cached counter of the job itself. */
  lemma DelTrackIgnores(s: State, k: JobKey, order: seq<string>)
    requires OrderFits(s, k, order)
    ensures var r := DelTrack(s, k, order); DelTrack(s.(cache := s.cache - {k}), k, order) == r.(cache := r.cache - {k})
  {
    assert forall i :: 0 <= i < |order| ==> order[i] in TrackedUsers(s.tracks - {k}, k.pid, Upload);
    CascadeIgnores(s.(tracks := s.tracks - {k}), k.pid, order, k);
  }

  lemma {:induction false} CascadeIgnores(s: State, pid: string, order: seq<string>, k: JobKey)
    requires forall i :: 0 <= i < |order| ==> JobKey(order[i], pid, Upload) != k
    ensures var r := Cascade(s, pid, order); Cascade(s.(cache := s.cache - {k}), pid, order) == r.(cache := r.cache - {k})
    decreases |order|
  {
    if order != [] {
      var u := JobKey(order[0], pid, Upload);
      var s1 := Load(s, u);
      var t1 := Load(s.(cache := s.cache - {k}), u);
      assert t1 == s1.(cache := s1.cache - {k});
      CascadeIgnores(s1.(tracks := s1.tracks - {u}), pid, order[1..], k);
    }
  }

  /** The tracked jobs of `k`'s package agree with the database, except that `k` itself
      has just ceased to be unfinished. */
  ghost predicate Settling(s: State, k: JobKey) {
    && (forall d: JobKey :: d.typ.Download? && d.pid == k.pid && d != k ==> Agrees(s, d))
    && (forall u: JobKey :: u.typ.Upload? && u.pid == k.pid && u != k ==>
          && (ShouldTrack(s.db, u) ==> u in s.tracks)
          && (u in s.tracks ==> LiveUpload(s.db, u) && u in s.db.details))
    && !UnfinishedJob(s.db, k)
    && (k.typ.Upload? && HasUnfinishedDownload(s.db, k.pid) ==> (k in s.tracks <==> LiveUpload(s.db, k)))
  }

  lemma DownloadersTracked(s: State, k: JobKey)
    requires Settling(s, k)
    ensures HasUnfinishedDownload(s.db, k.pid) <==> TrackedUsers(s.tracks - {k}, k.pid, Download) != {}
  {
    var users := TrackedUsers(s.tracks - {k}, k.pid, Download);
    if HasUnfinishedDownload(s.db, k.pid) {
      var uid :| UnfinishedJob(s.db, JobKey(uid, k.pid, Download));
      assert JobKey(uid, k.pid, Download) in s.tracks - {k};
      assert uid in users;
    }
    if users != {} {
      var uid :| uid in users;
      assert JobKey(uid, k.pid, Download) in s.tracks - {k};
      assert UnfinishedJob(s.db, JobKey(uid, k.pid, Download));
    }
  }

  /** Visiting a sole uploader. */
  lemma {:induction false} CascadeSole(s: State, u: JobKey, order: seq<string>)
    requires u.typ.Upload? && u in s.db.jobs && u in s.db.details && Counted(s, u)
    requires forall i :: 0 <= i < |order| ==> order[i] == u.uid
    ensures Cascade(s, u.pid, order).tracks
         == if order != [] && AllDone(s.db.details[u]) then s.tracks - {u} else s.tracks
    decreases |order|
  {
    if order != [] {
      CountZero(s.db.details[u]);
      var s1 := Load(s, u);
      if LooksFinished(s1, u) {
        CascadeSole(s1.(tracks := s1.tracks - {u}), u, order[1..]);
      }
    }
  }

  /** With at most one uploader, DelTrack makes the tracked jobs of the package agree. */
  lemma DelTrackAgrees(s: State, k: JobKey, order: seq<string>, x: JobKey)
    requires Settling(s, k) && OrderFits(s, k, order) && x.pid == k.pid
    requires SoleUploads(s.db, k.pid)
    requires forall u: JobKey :: u.typ.Upload? && u.pid == k.pid ==> Counted(s, u)
    ensures Agrees(DelTrack(s, k, order), x)
  {
    DownloadersTracked(s, k);
    DelTrackTracks(s, k, order, x);
    var users := TrackedUsers(s.tracks - {k}, k.pid, Upload);
    if HasUnfinishedDownload(s.db, k.pid) {
      if k.typ.Upload? {
        var uid :| uid in TrackedUsers(s.tracks - {k}, k.pid, Download);
        assert uid in TrackedUsers(s.tracks, k.pid, Download);
      }
    } else {
      if k.typ.Upload? {
        assert TrackedUsers(s.tracks, k.pid, Download) == TrackedUsers(s.tracks - {k}, k.pid, Download);
      }
      assert forall u :: u in s.tracks - {k} && u.typ.Upload? && u.pid == k.pid ==> u.uid in users;
      forall i | 0 <= i < |order|
        ensures var u := JobKey(order[i], k.pid, Upload);
          u in s.tracks && u in s.db.jobs && u in s.db.details && order[i] == order[0]
      {
        assert order[i] in users && order[0] in users;
      }
      if order != [] {
        var u := JobKey(order[0], k.pid, Upload);
        var s1 := s.(tracks := s.tracks - {k});
        assert Counted(s, u);
        CascadeSole(s1, u, order);
      }
    }
  }

  // ---------------------------------------------------------------- ProcessJob

  /** Counters are positive and never above the true count, the tables belong together, and
      every package has at most one uploader. */
  ghost predicate Grounded(s: State) {
    && TablesValid(s.db)
    && (forall j :: Counted(s, j))
    && (forall pid :: SoleUploads(s.db, pid))
  }

  /** And the tracks are as a reload would make them. */
  ghost predicate Indexed(s: State) {
    Grounded(s) && AllAgree(s)
  }

  ghost predicate Finishing(s: State, k: JobKey) {
    k in s.db.jobs && LooksFinished(Load(s, k), k)
  }

  /** `r` is `s` after a write to job `k`, its counter or its details. */
  ghost predicate WriteTo(s: State, r: State, k: JobKey) {
    && Indexed(s) && k in s.db.jobs
    && r.tracks == s.tracks && r.db.jobs.Keys == s.db.jobs.Keys && r.db.details.Keys == s.db.details.Keys
    && (forall y :: y in s.db.jobs ==> r.db.jobs[y].softDel == s.db.jobs[y].softDel)
    && (forall y :: y in s.db.details && y != k ==> r.db.details[y] == s.db.details[y])
    && (forall j :: j != k ==> Counted(r, j))
  }

  lemma WriteApart(s: State, r: State, k: JobKey)
    requires WriteTo(s, r, k)
    ensures SameElsewhere(s.db, r.db, k) && r.tracks == s.tracks && (LiveUpload(s.db, k) <==> LiveUpload(r.db, k))
  {
    hide Indexed, Counted;
  }

  lemma WriteElsewhere(s: State, r: State, k: JobKey, x: JobKey)
    requires WriteTo(s, r, k)
    ensures SameElsewhere(s.db, r.db, k)
    ensures (UnfinishedJob(s.db, k) <==> UnfinishedJob(r.db, k)) || x.pid != k.pid ==>
      (Agrees(s, x) <==> (x in r.tracks <==> ShouldTrack(r.db, x)))
  {
    hide Indexed, Counted;
    WriteApart(s, r, k);
    if (UnfinishedJob(s.db, k) <==> UnfinishedJob(r.db, k)) || x.pid != k.pid {
      hide WriteTo, UnfinishedJob, LiveUpload;
      SameDownloads(s.db, r.db, k, x.pid);
    }
  }

  /** Finishing a job that is really finished. */
  lemma FinishAgrees(s: State, r: State, k: JobKey, order: seq<string>, x: JobKey)
    requires WriteTo(s, r, k) && OrderFits(r, k, order)
    requires Finishing(r, k) && !UnfinishedJob(r.db, k)
    ensures Agrees(ProcessJob(r, k, order), x)
  {
    var r2 := Retired(Load(r, k), k);
    WriteElsewhere(s, r, k, x);
    RetiredElsewhere(s.db, Load(r, k), k);
    RetiredAgrees(s, r, r2, k, order, x);
  }

  lemma RetiredElsewhere(db: Database, r: State, k: JobKey)
    requires SameElsewhere(db, r.db, k) && k in r.db.jobs
    ensures SameElsewhere(db, Retired(r, k).db, k)
    ensures UnfinishedJob(Retired(r, k).db, k) <==> UnfinishedJob(r.db, k)
  {
  }

  lemma RetiredAgrees(s: State, r: State, r2: State, k: JobKey, order: seq<string>, x: JobKey)
    requires WriteTo(s, r, k) && r2 == Retired(Load(r, k), k)
    requires SameElsewhere(s.db, r2.db, k) && !UnfinishedJob(r2.db, k)
    requires OrderFits(r2, k, order)
    ensures Agrees(DelTrack(r2, k, order), x)
  {
    if x.pid == k.pid {
      assert SoleUploads(s.db, k.pid);
      SameKeysSole(s.db, r2.db, k.pid);
      RetiredCounted(r, k);
      FinishSettles(s, r2, k);
      DelTrackAgrees(r2, k, order, x);
    } else {
      ElsewhereAgrees(s, r2, k, order, x);
    }
  }

  lemma SameKeysSole(db: Database, db': Database, pid: string)
    requires SoleUploads(db, pid) && db'.jobs.Keys <= db.jobs.Keys
    ensures SoleUploads(db', pid)
  {
  }

  lemma ElsewhereAgrees(s: State, r2: State, k: JobKey, order: seq<string>, x: JobKey)
    requires Agrees(s, x) && r2.tracks == s.tracks && SameElsewhere(s.db, r2.db, k) && x.pid != k.pid
    ensures Agrees(DelTrack(r2, k, order), x)
  {
    DelTrackTracks(r2, k, order, x);
    SameDownloads(s.db, r2.db, k, x.pid);
  }

  lemma RetiredCounted(r: State, k: JobKey)
    requires k in r.db.jobs && forall j :: j != k ==> Counted(r, j)
    ensures forall j :: Counted(Retired(Load(r, k), k), j)
  {
    forall j
      ensures Counted(Retired(Load(r, k), k), j)
    {
      if j != k { assert Counted(r, j); }
    }
  }

  lemma FinishSettles(s: State, r2: State, k: JobKey)
    requires Indexed(s) && SameElsewhere(s.db, r2.db, k) && r2.tracks == s.tracks
    requires !UnfinishedJob(r2.db, k) && forall y :: y in s.db.details && y != k ==> y in r2.db.details
    requires k.typ.Upload? && HasUnfinishedDownload(s.db, k.pid) ==> (LiveUpload(r2.db, k) <==> LiveUpload(s.db, k))
    ensures Settling(r2, k)
  {
    if HasUnfinishedDownload(r2.db, k.pid) {
      var uid :| UnfinishedJob(r2.db, JobKey(uid, k.pid, Download));
      assert UnfinishedJob(s.db, JobKey(uid, k.pid, Download));
    }
    forall d: JobKey | d.pid == k.pid && d != k
      ensures d.typ.Download? ==> Agrees(r2, d)
      ensures d.typ.Upload? ==> (ShouldTrack(r2.db, d) ==> d in r2.tracks)
      ensures d.typ.Upload? ==> (d in r2.tracks ==> LiveUpload(r2.db, d) && d in r2.db.details)
    {
      assert Agrees(s, d);
      assert d in s.db.jobs ==> JobFits(s.db, d);
    }
    assert Agrees(s, k);
  }

  /** Finishing an upload too early, when a detail is not DONE yet: a running download
      keeps it tracked. */
  lemma PrematureRefused(s: State, r: State, k: JobKey, order: seq<string>)
    requires Indexed(s) && r.tracks == s.tracks && SameElsewhere(s.db, r.db, k)
    requires UnfinishedJob(s.db, k) && UnfinishedJob(r.db, k)
    requires k.typ.Upload? && HasUnfinishedDownload(s.db, k.pid)
    requires LiveUpload(s.db, k) <==> LiveUpload(r.db, k)
    ensures AllAgree(DelTrack(r, k, order))
  {
    var uid :| UnfinishedJob(s.db, JobKey(uid, k.pid, Download));
    assert Agrees(s, JobKey(uid, k.pid, Download));
    assert uid in TrackedUsers(r.tracks, k.pid, Download);
    assert Agrees(s, k);
    SameTracksAgree(s, r, k);
  }

  lemma PrematureAgrees(s: State, r: State, k: JobKey, order: seq<string>)
    requires Indexed(s) && r.tracks == s.tracks && SameElsewhere(s.db, r.db, k)
    requires UnfinishedJob(s.db, k) && UnfinishedJob(r.db, k)
    requires LiveUpload(s.db, k) <==> LiveUpload(r.db, k)
    ensures AllAgree(DelTrack(r, k, order))
       <==> (k.typ.Upload? && HasUnfinishedDownload(s.db, k.pid))
  {
    if k.typ.Upload? && HasUnfinishedDownload(s.db, k.pid) {
      PrematureRefused(s, r, k, order);
    } else {
      NotRefused(s, r, k, order);
      assert !Agrees(DelTrack(r, k, order), k);
    }
  }

  lemma NotRefused(s: State, r: State, k: JobKey, order: seq<string>)
    requires AllAgree(s) && r.tracks == s.tracks
    requires k.typ.Download? || !HasUnfinishedDownload(s.db, k.pid)
    ensures k !in DelTrack(r, k, order).tracks
  {
    if k.typ.Upload? {
      forall uid: string
        ensures uid !in TrackedUsers(r.tracks, k.pid, Download)
      {
        assert Agrees(s, JobKey(uid, k.pid, Download));
      }
    }
    CascadeTracks(r.(tracks := r.tracks - {k}), k.pid, order, k);
  }

  lemma SameTracksAgree(s: State, r: State, k: JobKey)
    requires AllAgree(s) && r.tracks == s.tracks
    requires SameElsewhere(s.db, r.db, k) && (UnfinishedJob(s.db, k) ==> UnfinishedJob(r.db, k))
    requires LiveUpload(s.db, k) <==> LiveUpload(r.db, k)
    ensures AllAgree(r) <==> (UnfinishedJob(r.db, k) ==> k in s.tracks)
  {
    if UnfinishedJob(r.db, k) && k !in s.tracks {
      assert !Agrees(r, k);
    } else {
      assert Agrees(s, k);
      forall x
        ensures Agrees(r, x)
      {
        assert Agrees(s, x);
        if UnfinishedJob(s.db, k) <==> UnfinishedJob(r.db, k) {
          SameDownloads(s.db, r.db, k, x.pid);
        } else {
          assert k.typ.Upload?;
          SameUploadDownloads(s.db, r.db, k, x.pid);
        }
      }
    }
  }

  lemma SameUploadDownloads(db: Database, db': Database, k: JobKey, pid: string)
    requires SameElsewhere(db, db', k) && k.typ.Upload?
    ensures HasUnfinishedDownload(db, pid) <==> HasUnfinishedDownload(db', pid)
  {
    if HasUnfinishedDownload(db, pid) {
      var uid :| UnfinishedJob(db, JobKey(uid, pid, Download));
      assert UnfinishedJob(db', JobKey(uid, pid, Download));
    }
    if HasUnfinishedDownload(db', pid) {
      var uid :| UnfinishedJob(db', JobKey(uid, pid, Download));
      assert UnfinishedJob(db, JobKey(uid, pid, Download));
    }
  }

  lemma EarlyStart(s: State, r: State, r2: State, k: JobKey)
    requires WriteTo(s, r, k) && r2 == Retired(Load(r, k), k)
    ensures r2.tracks == s.tracks && SameElsewhere(s.db, r2.db, k)
    ensures (UnfinishedJob(r.db, k) <==> UnfinishedJob(r2.db, k)) && (LiveUpload(s.db, k) <==> LiveUpload(r2.db, k))
  {
    WriteElsewhere(s, r, k, k);
    RetiredElsewhere(s.db, Load(r, k), k);
  }

  lemma EarlyExactly(s: State, r: State, k: JobKey, order: seq<string>)
    requires WriteTo(s, r, k) && Finishing(r, k) && UnfinishedJob(r.db, k) && UnfinishedJob(s.db, k)
    ensures AllAgree(ProcessJob(r, k, order)) <==> (k.typ.Upload? && HasUnfinishedDownload(s.db, k.pid))
  {
    var r2 := Retired(Load(r, k), k);
    EarlyStart(s, r, r2, k);
    PrematureAgrees(s, r2, k, order);
    ProcessRetires(r, k, order);
    SameAgreement(DelTrack(r2, k, order), ProcessJob(r, k, order));
  }

  lemma ProcessRetires(r: State, k: JobKey, order: seq<string>)
    requires Finishing(r, k)
    ensures var r2 := Retired(Load(r, k), k);
      ProcessJob(r, k, order).tracks == DelTrack(r2, k, order).tracks && ProcessJob(r, k, order).db == r2.db
  {
  }

  lemma OpenExactly(s: State, r: State, k: JobKey, order: seq<string>)
    requires WriteTo(s, r, k) && !Finishing(r, k) && (UnfinishedJob(s.db, k) ==> UnfinishedJob(r.db, k))
    ensures AllAgree(ProcessJob(r, k, order)) <==> (UnfinishedJob(r.db, k) ==> k in s.tracks)
  {
    WriteElsewhere(s, r, k, k);
    assert ProcessJob(r, k, order) == Load(r, k);
    SameTracksAgree(s, Load(r, k), k);
  }

  /** After a write to job `k`, ProcessJob leaves tracks and database in agreement exactly if it
      neither retires an unfinished job nor leaves one untracked. */
  lemma ProcessExactly(s: State, r: State, k: JobKey, order: seq<string>)
    requires WriteTo(s, r, k) && OrderFits(r, k, order)
    requires !Finishing(r, k) && UnfinishedJob(s.db, k) ==> UnfinishedJob(r.db, k)
    requires Finishing(r, k) && UnfinishedJob(r.db, k) ==> UnfinishedJob(s.db, k)
    ensures AllAgree(ProcessJob(r, k, order))
       <==> (UnfinishedJob(r.db, k) ==>
               if Finishing(r, k) then k.typ.Upload? && HasUnfinishedDownload(s.db, k.pid) else k in s.tracks)
  {
    if !Finishing(r, k) {
      OpenExactly(s, r, k, order);
    } else if UnfinishedJob(r.db, k) {
      EarlyExactly(s, r, k, order);
    } else {
      forall x
        ensures Agrees(ProcessJob(r, k, order), x)
      {
        FinishAgrees(s, r, k, order, x);
      }
    }
  }

  lemma SameAgreement(r: State, r': State)
    requires r.tracks == r'.tracks && r.db == r'.db
    ensures AllAgree(r) <==> AllAgree(r')
  {
    if AllAgree(r) {
      forall x
        ensures Agrees(r', x)
      {
        assert Agrees(r, x);
      }
    }
    if AllAgree(r') {
      forall x
        ensures Agrees(r, x)
      {
        assert Agrees(r', x);
      }
    }
  }
}
