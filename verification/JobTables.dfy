/** What every step keeps about the tables of the database. */
module JobTables {
  import opened Jobs

  /** Beyond referring to each other properly: only uploads are marked deleted. */
  ghost predicate TablesValid(db: Database) {
    && WellFormed(db)
    && (forall k :: k in db.jobs && db.jobs[k].softDel ==> k.typ.Upload?)
  }

  lemma KeysMatch(db: Database)
    requires WellFormed(db)
    ensures db.jobs.Keys == db.details.Keys
  {
    forall k
      ensures k in db.jobs <==> k in db.details
    {
      if k in db.jobs { assert JobFits(db, k); }
    }
  }

  /** Table contents after a step on job `k` that neither adds nor removes a record. */
  ghost predicate SameRecords(db: Database, db': Database) {
    && db'.pkgs == db.pkgs && db'.sizes == db.sizes && db'.files == db.files
    && db'.jobs.Keys == db.jobs.Keys && db'.details.Keys == db.details.Keys
    && (forall k :: k in db.details ==> db'.details[k].Keys == db.details[k].Keys)
    && (forall k :: k in db.jobs ==> db'.jobs[k].softDel == db.jobs[k].softDel)
  }

  lemma SameRecordsValid(db: Database, db': Database)
    requires TablesValid(db) && SameRecords(db, db')
    ensures TablesValid(db')
  {
    forall k | k in db'.jobs
      ensures JobFits(db', k)
    {
      assert JobFits(db, k);
    }
    forall pid | pid in db'.pkgs
      ensures PkgFits(db', pid)
    {
      assert PkgFits(db, pid);
    }
    assert forall k :: k in db'.details ==> k in db.details;
  }

  lemma ProcessRecords(s: State, k: JobKey, order: seq<string>)
    ensures SameRecords(s.db, ProcessJob(s, k, order).db)
  {
    if k in s.db.jobs && LooksFinished(Load(s, k), k) {
      SaveRowRecords(s.db, s.db, k, FinishedRow(s.db.jobs[k]));
    }
  }

  lemma SaveRecords(db: Database, k: JobKey, fid: string, d: Detail)
    requires k in db.details && fid in db.details[k]
    ensures SameRecords(db, SaveDetail(db, k, fid, d))
  {
  }

  lemma NotifyRecords(s: State, k: JobKey, fid: string, sid: string, t: TransferState, reported: nat, order: seq<string>)
    ensures SameRecords(s.db, Notify(s, k, fid, sid, t, reported, order).db)
  {
    if sid != "" && HasDetail(s.db, k, fid) {
      var r := Reporting(s, k, fid, sid, t, reported);
      ProcessRecords(r, k, order);
    }
  }

  lemma EmptySegsRecords(s: State, k: JobKey, fid: string, order: seq<string>)
    ensures SameRecords(s.db, EmptySegs(s, k, fid, order).db)
  {
    hide ProcessJob, Load;
    ProcessRecords(Claiming(s, k, fid), k, order);
  }

  lemma SaveRowRecords(db: Database, db': Database, k: JobKey, row: JobRow)
    requires SameRecords(db, db') && k in db'.jobs && row.softDel == db'.jobs[k].softDel
    ensures SameRecords(db, SaveRow(db', k, row))
  {
  }

  lemma AddTaskRecords(s: State, k: JobKey, fid: string, numSegs: nat)
    ensures SameRecords(s.db, AddTask(s, k, fid, numSegs).db)
  {
    if HasDetail(s.db, k, fid) {
      var d := TaskedDetail(s.db.details[k][fid], s.db.files[fid], numSegs);
      SaveRecords(s.db, k, fid, d);
      SaveRowRecords(s.db, SaveDetail(s.db, k, fid, d), k, s.db.jobs[k].(state := Doing));
    }
  }

  lemma DelTaskRecords(s: State, k: JobKey, fid: string, t: TransferState)
    ensures SameRecords(s.db, DelTask(s, k, fid, t).db)
  {
    if HasDetail(s.db, k, fid) {
      SaveRecords(s.db, k, fid, UntaskedDetail(s.db.details[k][fid], t));
    }
  }

  lemma ProgressRecords(s: State, k: JobKey, fid: string, size: nat, n: int)
    ensures SameRecords(s.db, Progress(s, k, fid, size, n).db)
  {
    if HasDetail(s.db, k, fid) {
      SaveRecords(s.db, k, fid, s.db.details[k][fid].(finishedSize := size, numFinishedSegs := n));
    }
  }

  /** Removing jobs with their details. */
  ghost predicate Removed(db: Database, db': Database) {
    && db'.pkgs == db.pkgs && db'.sizes == db.sizes && db'.files == db.files
    && db'.jobs.Keys == db'.details.Keys * db.jobs.Keys
    && db'.details.Keys <= db'.jobs.Keys
    && (forall k :: k in db'.jobs ==> k in db.details && db'.details[k] == db.details[k])
    && (forall k :: k in db'.jobs ==> db'.jobs[k] == db.jobs[k])
  }

  lemma RemovedValid(db: Database, db': Database)
    requires TablesValid(db) && Removed(db, db')
    ensures TablesValid(db')
  {
    forall k | k in db'.jobs
      ensures JobFits(db', k)
    {
      assert JobFits(db, k);
    }
    forall pid | pid in db'.pkgs
      ensures PkgFits(db', pid)
    {
      assert PkgFits(db, pid);
    }
  }

  function PlannedKeys(pid: string, plan: seq<Deletion>): set<JobKey> {
    set i | 0 <= i < |plan| :: JobKey(plan[i].uid, pid, Download)
  }

  /** The database without the planned downloads. */
  ghost function Without(db: Database, pid: string, plan: seq<Deletion>): Database {
    db.(jobs := db.jobs - PlannedKeys(pid, plan), details := db.details - PlannedKeys(pid, plan))
  }

  lemma PlannedFirst(pid: string, plan: seq<Deletion>)
    requires plan != []
    ensures PlannedKeys(pid, plan) == {JobKey(plan[0].uid, pid, Download)} + PlannedKeys(pid, plan[1..])
  {
    forall x | x in PlannedKeys(pid, plan)
      ensures x in {JobKey(plan[0].uid, pid, Download)} + PlannedKeys(pid, plan[1..])
    {
      var i :| 0 <= i < |plan| && x == JobKey(plan[i].uid, pid, Download);
      if i > 0 { assert plan[1..][i - 1] == plan[i]; }
    }
  }

  lemma DeleteJobTables(s: State, k: JobKey, order: seq<string>)
    requires s.db.jobs.Keys == s.db.details.Keys
    ensures DeleteJob(s, k, order).db == s.db.(jobs := s.db.jobs - {k}, details := s.db.details - {k})
  {
    if k !in s.db.jobs {
      assert s.db.jobs - {k} == s.db.jobs && s.db.details - {k} == s.db.details;
    }
  }

  lemma {:induction false} DeleteDownloadsTables(s: State, pid: string, plan: seq<Deletion>)
    requires s.db.jobs.Keys == s.db.details.Keys
    ensures DeleteDownloads(s, pid, plan).db == Without(s.db, pid, plan)
    decreases |plan|
  {
    if plan == [] {
      assert Without(s.db, pid, plan) == s.db;
    } else {
      PlannedFirst(pid, plan);
      hide PlannedKeys, DeleteJob;
      var k := JobKey(plan[0].uid, pid, Download);
      DeleteJobTables(s, k, plan[0].order);
      DeleteDownloadsTables(DeleteJob(s, k, plan[0].order), pid, plan[1..]);
      var gone, rest := PlannedKeys(pid, plan), PlannedKeys(pid, plan[1..]);
      assert s.db.jobs - gone == s.db.jobs - {k} - rest;
      assert s.db.details - gone == s.db.details - {k} - rest;
    }
  }

  lemma NewPkgTables(s: State, pid: string, fids: seq<string>, files: map<string, File>, segs: map<string, Seg>)
    requires TablesValid(s.db) && Possible(s, NewPkgE(pid, fids, files, segs))
    ensures TablesValid(NewPkg(s, pid, fids, files, segs).db)
  {
    var db := NewPkg(s, pid, fids, files, segs).db;
    forall k | k in db.jobs
      ensures JobFits(db, k)
    {
      assert JobFits(s.db, k);
    }
    forall p | p in db.pkgs
      ensures PkgFits(db, p)
    {
      if p != pid { assert PkgFits(s.db, p); }
    }
  }

  lemma RecreatedValid(db: Database, k: JobKey)
    requires TablesValid(db) && k in db.jobs && k in db.details
    ensures TablesValid(RecreatedDb(db, k))
  {
    hide RecreatedDetail;
    SameRecordsValid(db, RecreatedDb(db, k));
  }

  lemma CreatedValid(db: Database, k: JobKey)
    requires TablesValid(db) && k !in db.jobs && k.pid in db.pkgs
    ensures TablesValid(CreatedDb(db, k))
  {
    hide NewDetail;
    var r := CreatedDb(db, k);
    forall j | j in r.jobs
      ensures JobFits(r, j)
    {
      if j in db.jobs { assert JobFits(db, j); }
    }
    forall p | p in r.pkgs
      ensures PkgFits(r, p)
    {
      assert PkgFits(db, p);
    }
  }

  lemma CreateTables(s: State, k: JobKey)
    requires TablesValid(s.db)
    ensures TablesValid(CreateJob(s, k).db)
  {
    KeysMatch(s.db);
    hide TablesValid, RecreatedDb, CreatedDb;
    if k in s.db.jobs {
      RecreatedValid(s.db, k);
    } else if k.pid in s.db.pkgs {
      CreatedValid(s.db, k);
    }
  }

  lemma DeletePkgTables(s: State, k: JobKey, plan: seq<Deletion>, order: seq<string>)
    requires TablesValid(s.db) && Possible(s, DeletePkgE(k, plan, order))
    ensures TablesValid(DeletePkg(s, k, plan, order).db)
  {
    var s1 := SoftDeleted(s, k);
    assert TablesValid(s1.db) by {
      forall j | j in s1.db.jobs
        ensures JobFits(s1.db, j)
      {
        assert JobFits(s.db, j);
      }
      forall p | p in s1.db.pkgs
        ensures PkgFits(s1.db, p)
      {
        assert PkgFits(s.db, p);
      }
    }
    assert s1.db.jobs.Keys == s1.db.details.Keys;
    DeleteDownloadsTables(s1, k.pid, plan);
    RemovedValid(s1.db, DeletePkg(s, k, plan, order).db);
  }

  lemma DeletePkgJobs(s: State, k: JobKey, plan: seq<Deletion>, order: seq<string>)
    requires s.db.jobs.Keys == s.db.details.Keys
    ensures DeletePkg(s, k, plan, order).db.jobs.Keys <= s.db.jobs.Keys
  {
    hide DeleteDownloads, PlannedKeys;
    DeleteDownloadsTables(SoftDeleted(s, k), k.pid, plan);
  }

  /** No step adds a job other than by creating it, or changes a package that exists. */
  lemma StepJobs(s: State, e: Event, u: JobKey)
    requires s.db.jobs.Keys == s.db.details.Keys && Possible(s, e) && u in Step(s, e).db.jobs
    ensures u in s.db.jobs || (e.CreateE? && e.key == u)
  {
    hide Notify, EmptySegs, AddTask, DelTask, Progress, DeletePkg, Possible, Load, WithTrack, Recomputed, SyncedRow, SyncedDetail, NewDetail, RecreatedDetail;
    match e
    case NotifyE(k, fid, sid, t, reported, order) => NotifyRecords(s, k, fid, sid, t, reported, order);
    case EmptySegsE(k, fid, order) => EmptySegsRecords(s, k, fid, order);
    case AddTaskE(k, fid, numSegs) => AddTaskRecords(s, k, fid, numSegs);
    case DelTaskE(k, fid, t) => DelTaskRecords(s, k, fid, t);
    case ProgressE(k, fid, size, n) => ProgressRecords(s, k, fid, size, n);
    case DeletePkgE(k, plan, order) => DeletePkgJobs(s, k, plan, order);
    case CreateE(_) =>
    case DeleteE(_, _) =>
    case NewPkgE(_, _, _, _) =>
    case GetJobE(_) =>
    case EnableE(_) =>
    case FetchDeletesE(_, _, _) =>
    case RestartE =>
  }

  lemma DeletePkgPkgs(s: State, k: JobKey, plan: seq<Deletion>, order: seq<string>)
    requires s.db.jobs.Keys == s.db.details.Keys
    ensures var db := DeletePkg(s, k, plan, order).db;
      db.pkgs == s.db.pkgs && db.sizes == s.db.sizes && db.files == s.db.files
  {
    hide DeleteDownloads, PlannedKeys;
    DeleteDownloadsTables(SoftDeleted(s, k), k.pid, plan);
  }

  lemma CreatedPkgs(db: Database, k: JobKey)
    ensures k in db.details ==>
      var r := RecreatedDb(db, k); r.pkgs == db.pkgs && r.sizes == db.sizes && r.files == db.files
    ensures k.pid in db.pkgs ==>
      var r := CreatedDb(db, k); r.pkgs == db.pkgs && r.sizes == db.sizes && r.files == db.files
  {
  }

  lemma CreatePkgs(s: State, k: JobKey)
    ensures var db := CreateJob(s, k).db;
      db.pkgs == s.db.pkgs && db.sizes == s.db.sizes && db.files == s.db.files
  {
    CreatedPkgs(s.db, k);
    hide RecreatedDb, CreatedDb, WithTrack;
  }

  lemma StepPkgs(s: State, e: Event)
    requires s.db.jobs.Keys == s.db.details.Keys && Possible(s, e) && !e.NewPkgE?
    ensures Step(s, e).db.pkgs == s.db.pkgs && Step(s, e).db.sizes == s.db.sizes && Step(s, e).db.files == s.db.files
  {
    hide Notify, EmptySegs, AddTask, DelTask, Progress, DeletePkg, CreateJob, Load, Possible;
    match e
    case NotifyE(k, fid, sid, t, reported, order) => NotifyRecords(s, k, fid, sid, t, reported, order);
    case EmptySegsE(k, fid, order) => EmptySegsRecords(s, k, fid, order);
    case AddTaskE(k, fid, numSegs) => AddTaskRecords(s, k, fid, numSegs);
    case DelTaskE(k, fid, t) => DelTaskRecords(s, k, fid, t);
    case ProgressE(k, fid, size, n) => ProgressRecords(s, k, fid, size, n);
    case DeletePkgE(k, plan, order) => DeletePkgPkgs(s, k, plan, order);
    case CreateE(k) => CreatePkgs(s, k);
    case DeleteE(k, order) => DeleteJobTables(s, k, order);
    case GetJobE(_) =>
    case EnableE(_) =>
    case FetchDeletesE(_, _, _) =>
    case RestartE =>
  }

  lemma StepKeepsTables(s: State, e: Event)
    requires TablesValid(s.db) && Possible(s, e)
    ensures TablesValid(Step(s, e).db)
  {
    match e
    case NewPkgE(pid, fids, files, segs) => NewPkgTables(s, pid, fids, files, segs);
    case CreateE(k) => CreateTables(s, k);
    case DeleteE(k, order) =>
      if k in s.db.jobs { RemovedValid(s.db, Step(s, e).db); }
    case DeletePkgE(k, plan, order) => DeletePkgTables(s, k, plan, order);
    case NotifyE(k, fid, sid, t, reported, order) =>
      NotifyRecords(s, k, fid, sid, t, reported, order);
      SameRecordsValid(s.db, Step(s, e).db);
    case EmptySegsE(k, fid, order) =>
      EmptySegsRecords(s, k, fid, order);
      SameRecordsValid(s.db, Step(s, e).db);
    case AddTaskE(k, fid, numSegs) =>
      AddTaskRecords(s, k, fid, numSegs);
      SameRecordsValid(s.db, Step(s, e).db);
    case DelTaskE(k, fid, t) =>
      DelTaskRecords(s, k, fid, t);
      SameRecordsValid(s.db, Step(s, e).db);
    case ProgressE(k, fid, size, n) =>
      ProgressRecords(s, k, fid, size, n);
      SameRecordsValid(s.db, Step(s, e).db);
    case RestartE => SameRecordsValid(s.db, Step(s, e).db);
    case GetJobE(_) =>
    case EnableE(_) =>
    case FetchDeletesE(_, _, _) =>
  }

  lemma {:induction false} RunKeepsTables(es: seq<Event>)
    requires PossibleRun(es)
    ensures TablesValid(Run(es).db)
  {
    if es != [] {
      RunKeepsTables(es[..|es| - 1]);
      StepKeepsTables(Run(es[..|es| - 1]), es[|es| - 1]);
    }
  }
}
