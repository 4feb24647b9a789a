/** A sender keeps seeing its receivers: while any download of a package is tracked, so is
    every upload of that package that was not deleted. No hypothesis on the run. */
module JobSender {
  import opened Jobs
  import opened JobTables
  import opened JobIndex
  import opened JobAgreement

  ghost predicate Sees(s: State, d: JobKey, u: JobKey) {
    d in s.tracks && d.typ.Download? && LiveUpload(s.db, u) && u.pid == d.pid ==> u in s.tracks
  }

  ghost predicate AllSee(s: State) {
    forall d, u :: Sees(s, d, u)
  }

  lemma SameTracksSee(s: State, r: State)
    requires AllSee(s) && r.tracks == s.tracks
    requires forall u :: LiveUpload(r.db, u) ==> LiveUpload(s.db, u)
    ensures AllSee(r)
  {
    forall d, u
      ensures Sees(r, d, u)
    {
      assert Sees(s, d, u);
    }
  }

  lemma DelTrackSees(s: State, k: JobKey, order: seq<string>)
    requires AllSee(s)
    ensures AllSee(DelTrack(s, k, order))
  {
    var r := DelTrack(s, k, order);
    forall d, u
      ensures Sees(r, d, u)
    {
      assert Sees(s, d, u);
      DelTrackTracks(s, k, order, d);
      DelTrackTracks(s, k, order, u);
      if d in r.tracks && d.typ.Download? && LiveUpload(s.db, u) && u.pid == d.pid == k.pid {
        assert d.uid in TrackedUsers(s.tracks, k.pid, Download);
        if k.typ.Download? { assert d.uid in TrackedUsers(s.tracks - {k}, k.pid, Download); }
      }
    }
  }

  lemma ProcessSees(s: State, k: JobKey, order: seq<string>)
    requires AllSee(s)
    ensures AllSee(ProcessJob(s, k, order))
  {
    var s1 := Load(s, k);
    SameTracksSee(s, s1);
    if k in s.db.jobs && LooksFinished(s1, k) {
      SameTracksSee(s1, Retired(s1, k));
      DelTrackSees(Retired(s1, k), k, order);
      SameTracksSee(DelTrack(Retired(s1, k), k, order), ProcessJob(s, k, order));
    }
  }

  lemma DeleteSees(s: State, k: JobKey, order: seq<string>)
    requires AllSee(s)
    ensures AllSee(DeleteJob(s, k, order))
  {
    if k in s.db.jobs {
      var s1 := s.(db := s.db.(jobs := s.db.jobs - {k}, details := s.db.details - {k}));
      SameTracksSee(s, s1);
      DelTrackSees(s1, k, order);
      SameTracksSee(DelTrack(s1, k, order), DeleteJob(s, k, order));
    }
  }

  lemma {:induction false} DeleteDownloadsSee(s: State, pid: string, plan: seq<Deletion>)
    requires AllSee(s)
    ensures AllSee(DeleteDownloads(s, pid, plan))
    decreases |plan|
  {
    if plan != [] {
      var k := JobKey(plan[0].uid, pid, Download);
      DeleteSees(s, k, plan[0].order);
      DeleteDownloadsSee(DeleteJob(s, k, plan[0].order), pid, plan[1..]);
    }
  }

  lemma CreateSees(s: State, k: JobKey)
    requires AllSee(s)
    ensures AllSee(CreateJob(s, k))
  {
    var r := CreateJob(s, k);
    forall d, u
      ensures Sees(r, d, u)
    {
      assert Sees(s, d, u);
    }
  }

  lemma RestartSees(s: State)
    ensures AllSee(Restart(s))
  {
    RestartAgrees(s);
    var r := Restart(s);
    forall d, u
      ensures Sees(r, d, u)
    {
      assert Agrees(r, d) && Agrees(r, u);
      if d in r.tracks && d.typ.Download? && u.pid == d.pid {
        assert UnfinishedJob(r.db, JobKey(d.uid, u.pid, Download));
      }
    }
  }

  lemma SameRecordsLive(db: Database, db': Database)
    requires SameRecords(db, db')
    ensures forall u :: LiveUpload(db', u) ==> LiveUpload(db, u)
  {
  }

  lemma StepSees(s: State, e: Event)
    requires AllSee(s)
    ensures AllSee(Step(s, e))
  {
    match e
    case NotifyE(k, fid, sid, t, reported, order) =>
      if sid != "" && HasDetail(s.db, k, fid) {
        SameTracksSee(s, Reporting(s, k, fid, sid, t, reported));
        ProcessSees(Reporting(s, k, fid, sid, t, reported), k, order);
      } else {
        SameTracksSee(s, Step(s, e));
      }
    case EmptySegsE(k, fid, order) =>
      SameTracksSee(s, Claiming(s, k, fid));
      ProcessSees(Claiming(s, k, fid), k, order);
    case AddTaskE(k, fid, numSegs) =>
      AddTaskRecords(s, k, fid, numSegs);
      SameRecordsLive(s.db, Step(s, e).db);
      SameTracksSee(s, Step(s, e));
    case DelTaskE(k, fid, t) =>
      DelTaskRecords(s, k, fid, t);
      SameTracksSee(s, Step(s, e));
    case ProgressE(k, fid, size, n) =>
      ProgressRecords(s, k, fid, size, n);
      SameTracksSee(s, Step(s, e));
    case CreateE(k) => CreateSees(s, k);
    case DeleteE(k, order) => DeleteSees(s, k, order);
    case DeletePkgE(k, plan, order) =>
      var s1 := SoftDeleted(s, k);
      SameTracksSee(s, s1);
      DeleteDownloadsSee(s1, k.pid, plan);
      DelTrackSees(DeleteDownloads(s1, k.pid, plan), k, order);
    case RestartE => RestartSees(s);
    case NewPkgE(_, _, _, _) => SameTracksSee(s, Step(s, e));
    case GetJobE(_) => SameTracksSee(s, Step(s, e));
    case EnableE(_) => SameTracksSee(s, Step(s, e));
    case FetchDeletesE(_, _, _) => SameTracksSee(s, Step(s, e));
  }

  /** After any run at all, while any download of a package is tracked, every upload of the
      package that is not deleted is tracked too. */
  lemma {:induction false} SenderSeesReceivers(es: seq<Event>, d: JobKey, u: JobKey)
    ensures AllSee(Run(es))
    ensures d in Run(es).tracks && d.typ.Download? && LiveUpload(Run(es).db, u) && u.pid == d.pid ==> u in Run(es).tracks
  {
    if es != [] {
      SenderSeesReceivers(es[..|es| - 1], d, u);
      StepSees(Run(es[..|es| - 1]), es[|es| - 1]);
    }
    assert Sees(Run(es), d, u);
  }
}
