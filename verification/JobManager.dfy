/** The job manager as the program has it: job and detail objects, shared between a cache and
    the callers that update them in place, over a database. Every method leaves the state
    that Jobs.dfy names. */
module JobManagement {
  import opened Jobs
  import opened TrackIndex
  import JobCounter
  import JobIndex
  import JobSizes

  class JobDetail {
    const key: JobKey
    const fid: string
    var state: TransferState
    var started: bool
    var finishedSize: nat
    var numFinishedSegs: int
    var bitrate: nat
    var curSegSize: nat

    /** The columns of the detail's row. */
    function Row(): Detail
      reads this
    {
      Detail(state, started, finishedSize, numFinishedSegs)
    }

    constructor (key: JobKey, fid: string, d: Detail)
      ensures this.key == key && this.fid == fid && Row() == d
    {
      this.key := key;
      this.fid := fid;
      state := d.state;
      started := d.started;
      finishedSize := d.finishedSize;
      numFinishedSegs := d.numFinishedSegs;
      bitrate := 0;
      curSegSize := 0;
    }

    method Reset()
      modifies this
      ensures Row() == ResetDetail
    {
      state := Idle;
      started := false;
      finishedSize := 0;
      numFinishedSegs := 0;
    }

    /** The job is created again. */
    method Recreate(file: File)
      modifies this
      ensures Row() == RecreatedDetail(old(Row()), file)
    {
      if file.size > 0 {
        Reset();
      } else {
        started := true;
      }
    }

    /** The receiver has the whole file. */
    method Fill(file: File)
      modifies this
      ensures Row() == Detail(Done, true, file.size, file.numSegs)
    {
      finishedSize := file.size;
      numFinishedSegs := file.numSegs;
      started := true;
      state := Done;
    }

    /** A task with `numSegs` segments was dispatched. */
    method Start(file: File, numSegs: nat) returns (save: bool)
      modifies this
      ensures Row() == TaskedDetail(old(Row()), file, numSegs)
      ensures save <==> Restarts(old(Row()), file, numSegs)
    {
      save := false;
      if !started || numSegs == file.numSegs {
        if file.size > 0 {
          Reset();
        }
        started := true;
        save := true;
      }
    }

    /** A report on one segment; `bytes` is what the segment adds when it has ended. */
    method Update(file: File, segState: TransferState, bytes: nat, totalBytes: nat, bitrate: nat) returns (save: bool)
      modifies this
      ensures Row() == Reported(old(Row()), file, segState, bytes)
      ensures save <==> segState.Done? || numFinishedSegs == file.numSegs
      ensures this.bitrate == bitrate && curSegSize == if segState.Done? then 0 else totalBytes
    {
      save := false;
      this.bitrate := bitrate;
      if segState.Done? {
        curSegSize := 0;
        finishedSize := (finishedSize + bytes) % U64;
        numFinishedSegs := Succ64(numFinishedSegs);
        state := Pause;
        if finishedSize > file.size {
          finishedSize := file.size;
        }
        if numFinishedSegs > file.numSegs {
          numFinishedSegs := file.numSegs;
        }
        save := true;
      } else {
        curSegSize := totalBytes;
        state := segState;
      }
      if numFinishedSegs == file.numSegs {
        state := Done;
        save := true;
      }
    }
  }

  class Job {
    const key: JobKey
    const id: nat
    var finishedTimes: nat
    var state: TransferState
    var details: map<string, JobDetail>
    var numUnfinished: int
    var isCached: bool
    /** The objects of the details. */
    ghost var footprint: set<JobDetail>

    constructor (key: JobKey, row: JobRow)
      ensures this.key == key && id == row.id && finishedTimes == row.finishedTimes && state == row.state
      ensures details == map[] && !isCached && footprint == {}
    {
      this.key := key;
      id := row.id;
      finishedTimes := row.finishedTimes;
      state := row.state;
      details := map[];
      numUnfinished := 0;
      isCached := false;
      footprint := {};
    }

    /** The object was read completely, and its rows are these. */
    ghost predicate Matches(row: JobRow, ds: map<string, Detail>)
      reads this, footprint
    {
      && isCached && id == row.id && finishedTimes == row.finishedTimes && state == row.state
      && HasDetails(ds)
    }

    ghost predicate HasDetails(ds: map<string, Detail>)
      reads this, footprint
    {
      && details.Keys == ds.Keys
      && (forall jd :: jd in footprint ==> jd.key == key)
      && (forall f :: f in details ==>
            && details[f] in footprint
            && details[f].key == key && details[f].fid == f && details[f].Row() == ds[f])
    }
  }

  /** Queues the notifications of job events. */
  class NotifyManage {
    var enable: bool
    var queue: seq<Notice>

    constructor ()
      ensures !enable && queue == []
    {
      enable := false;
      queue := [];
    }

    method OnJobCreate(key: JobKey, id: nat)
      modifies this`queue
      ensures queue == old(queue) + (if enable then CreateNotices(key, id) else [])
    {
      if !enable || key.typ.Upload? {
        return;
      }
      queue := queue + [Notice(NewPkgToReceiver, id)];
    }

    method OnJobStart(key: JobKey, id: nat)
      modifies this`queue
      ensures queue == old(queue) + (if enable then StartNotices(key, id) else [])
    {
      if !enable || key.typ.Upload? {
        return;
      }
      queue := queue + [Notice(DownloadStartToSender, id)];
    }

    method OnJobFinish(key: JobKey, id: nat, finishedTimes: nat)
      modifies this`queue
      ensures queue == old(queue) + (if enable then FinishNotices(key, id, finishedTimes) else [])
    {
      if !enable || finishedTimes > 1 {
        return;
      }
      queue := queue + [Notice(if key.typ.Upload? then UploadFinishToSender else DownloadFinishToReceiver, id)];
      if key.typ.Download? {
        queue := queue + [Notice(DownloadFinishToSender, id)];
      }
    }
  }

  class JobManager {
    var db: Database
    var jobs: map<JobKey, Job>
    var trackUsers: Index
    var trackPkgs: Index
    var trackDeletes: Index
    const notices: NotifyManage
    /** The objects in the cache. */
    ghost var repr: set<object>
    /** The counters of the cached jobs. */
    ghost var counters: map<JobKey, int>

    // ---------------------------------------------------------------- representation

    /** The cached jobs `js`, with counters `cs` and all their objects in `objects`, are what
        the database holds. */
    static ghost predicate CacheFits(js: map<JobKey, Job>, cs: map<JobKey, int>, objects: set<object>, db: Database)
      reads objects
    {
      && cs.Keys == js.Keys
      && forall k :: k in js ==>
           && k in db.jobs && k in db.details
           && js[k] in objects && js[k].footprint <= objects
           && js[k].key == k && js[k].numUnfinished == cs[k]
           && js[k].Matches(db.jobs[k], db.details[k])
    }

    /** Job and detail tables belong together, and every detail has its file. */
    static ghost predicate TablesFit(db: Database) {
      && db.jobs.Keys == db.details.Keys
      && (forall k, f :: k in db.details && f in db.details[k] ==> f in db.files)
    }

    ghost predicate Valid()
      reads this, repr
    {
      && this !in repr && notices !in repr
      && Mirrored(trackUsers, trackPkgs)
      && TablesFit(db)
      && CacheFits(jobs, counters, repr, db)
    }

    ghost function Model(): State
      reads this, notices
    {
      State(db, counters, TrackedBy(trackPkgs), RecordedBy(trackDeletes), notices.enable, notices.queue)
    }

    constructor ()
      ensures Valid() && fresh(notices) && repr == {} && Model() == Initial
    {
      db := EmptyDatabase;
      jobs := map[];
      trackUsers := map[];
      trackPkgs := map[];
      trackDeletes := map[];
      var n := new NotifyManage();
      notices := n;
      repr := {};
      counters := map[];
    }

    // ---------------------------------------------------------------- cache

    /** `j` is the object through which everybody sees the row of job `key`. */
    ghost predicate Represents(j: Job, key: JobKey)
      reads this, j
    {
      && key in db.jobs && j.key == key
      && j.id == db.jobs[key].id && j.finishedTimes == db.jobs[key].finishedTimes && j.state == db.jobs[key].state
      && (j.isCached <==> key in jobs)
      && (if key in jobs then j == jobs[key] && j in repr else j !in repr)
    }

    /** Reads the details of a job into its object. */
    method LoadDetails(j: Job)
      requires j.key in db.details && j.details == map[] && j.footprint == {}
      modifies j`details, j`footprint
      ensures fresh(j.footprint) && j.HasDetails(db.details[j.key])
    {
      var ds := db.details[j.key];
      var left := ds.Keys;
      while left != {}
        modifies j`details, j`footprint
        invariant left <= ds.Keys && j.details.Keys == ds.Keys - left
        invariant fresh(j.footprint) && forall jd :: jd in j.footprint ==> jd.key == j.key
        invariant forall f :: f in j.details ==>
          && j.details[f] in j.footprint
          && j.details[f].key == j.key && j.details[f].fid == f && j.details[f].Row() == ds[f]
        decreases left
      {
        var f :| f in left;
        var jd := new JobDetail(j.key, f, ds[f]);
        j.details := j.details[f := jd];
        j.footprint := j.footprint + {jd};
        left := left - {f};
      }
    }

    /** Reads a job; an unfinished one completely, with its details counted. */
    method ReadJob(key: JobKey) returns (j: Job)
      requires key in db.jobs && key in db.details
      ensures fresh(j) && fresh(j.footprint) && j.key == key
      ensures j.isCached <==> !AllDone(db.details[key])
      ensures j.id == db.jobs[key].id && j.finishedTimes == db.jobs[key].finishedTimes && j.state == db.jobs[key].state
      ensures j.isCached ==>
        j.Matches(db.jobs[key], db.details[key]) && j.numUnfinished == CountUnfinished(db.details[key])
    {
      j := new Job(key, db.jobs[key]);
      JobCounter.CountZero(db.details[key]);
      if CountUnfinished(db.details[key]) != 0 {
        LoadDetails(j);
        j.numUnfinished := CountUnfinished(db.details[key]);
        j.isCached := true;
      }
    }

    lemma JobJoins(j: Job)
      requires CacheFits(jobs, counters, repr, db) && j.key !in jobs && j.key in db.jobs && j.key in db.details
      requires j.Matches(db.jobs[j.key], db.details[j.key])
      ensures CacheFits(jobs[j.key := j], counters[j.key := j.numUnfinished], repr + {j} + j.footprint, db)
    {
    }

    /** Puts a job that was read completely into the cache. */
    method CacheJob(j: Job)
      requires this !in repr
      requires CacheFits(jobs, counters, repr, db) && j.key !in jobs && j.key in db.jobs && j.key in db.details
      requires j.Matches(db.jobs[j.key], db.details[j.key])
      modifies this`jobs, this`counters, this`repr
      ensures CacheFits(jobs, counters, repr, db) && jobs == old(jobs)[j.key := j]
      ensures repr == old(repr) + {j} + j.footprint
      ensures counters == old(counters)[j.key := j.numUnfinished]
    {
      hide JobManager.CacheFits, Job.Matches;
      JobJoins(j);
      assert (this as object) !in (repr + {j} + j.footprint);
      jobs, counters, repr := jobs[j.key := j], counters[j.key := j.numUnfinished], repr + {j} + j.footprint;
    }

    /** Reads a job that is not cached, and caches it if it is unfinished. */
    method FetchJob(key: JobKey) returns (j: Job)
      requires this !in repr
      requires CacheFits(jobs, counters, repr, db) && key !in jobs && key in db.jobs && key in db.details
      modifies this`jobs, this`counters, this`repr
      ensures CacheFits(jobs, counters, repr, db) && fresh(repr - old(repr)) && old(repr) <= repr
      ensures fresh(j) && j.key == key && (j.isCached <==> !AllDone(db.details[key]))
      ensures j.isCached ==>
        jobs == old(jobs)[key := j] && counters == old(counters)[key := CountUnfinished(db.details[key])]
      ensures !j.isCached ==> jobs == old(jobs) && counters == old(counters) && repr == old(repr)
      ensures j.id == db.jobs[key].id && j.finishedTimes == db.jobs[key].finishedTimes && j.state == db.jobs[key].state
    {
      hide JobManager.CacheFits, Job.Matches;
      j := ReadJob(key);
      if j.isCached {
        CacheJob(j);
      }
    }

    /** The cached job; else the stored one, which is cached if it is unfinished. */
    method GetJob(key: JobKey) returns (j: Job?)
      requires Valid()
      modifies this`jobs, this`counters, this`repr
      ensures Valid() && fresh(repr - old(repr)) && old(repr) <= repr
      ensures Model() == Load(old(Model()), key)
      ensures Load(Model(), key) == Model()
      ensures Load(old(Model()), key) == old(Model()) ==> jobs == old(jobs) && repr == old(repr)
      ensures j == null <==> key !in db.jobs
      ensures j != null ==> Represents(j, key) && (j in repr || fresh(j))
    {
      if key in jobs {
        return jobs[key];
      }
      if key !in db.jobs {
        return null;
      }
      j := FetchJob(key);
    }

    /** `jd` is the object through which everybody sees its row. */
    ghost predicate Current(jd: JobDetail)
      reads this, repr, jd
    {
      && HasDetail(db, jd.key, jd.fid)
      && jd.Row() == db.details[jd.key][jd.fid]
      && (if jd.key in jobs
          then jobs[jd.key] in repr && jd.fid in jobs[jd.key].details && jobs[jd.key].details[jd.fid] == jd
          else jd !in repr)
    }

    /** The cached detail; else one read from the database. */
    method GetJobDetail(key: JobKey, fid: string) returns (jd: JobDetail?)
      requires Valid()
      modifies this`jobs, this`counters, this`repr
      ensures Valid() && fresh(repr - old(repr)) && old(repr) <= repr
      ensures Model() == Load(old(Model()), key)
      ensures jd != null <==> HasDetail(db, key, fid)
      ensures jd != null ==> jd.key == key && jd.fid == fid && Current(jd) && (jd in repr || fresh(jd))
      ensures Load(Model(), key) == Model()
      ensures Load(old(Model()), key) == old(Model()) ==> jobs == old(jobs) && repr == old(repr)
    {
      var j := GetJob(key);
      if j == null {
        return null;
      }
      if key in jobs {
        if fid !in j.details {
          return null;
        }
        return j.details[fid];
      }
      if fid !in db.details[key] {
        return null;
      }
      jd := new JobDetail(key, fid, db.details[key][fid]);
    }

    /** The cache fits the database, except that detail `jd` may have changed. */
    ghost predicate FitsBut(jd: JobDetail)
      reads this, repr - {jd}
    {
      && counters.Keys == jobs.Keys
      && (forall k :: k in jobs ==>
            && k in db.jobs && k in db.details
            && jobs[k] in repr && jobs[k].footprint <= repr
            && jobs[k].key == k && jobs[k].numUnfinished == counters[k]
            && jobs[k].isCached && jobs[k].id == db.jobs[k].id
            && jobs[k].finishedTimes == db.jobs[k].finishedTimes && jobs[k].state == db.jobs[k].state
            && jobs[k].details.Keys == db.details[k].Keys
            && (forall d :: d in jobs[k].footprint ==> d.key == k)
            && (forall f :: f in jobs[k].details ==> DetailFits(jobs[k], f, jd)))
    }

    ghost predicate DetailFits(j: Job, f: string, jd: JobDetail)
      requires f in j.details && j in repr && j.footprint <= repr && j.key in db.details && f in db.details[j.key]
      reads this, repr - {jd}
    {
      && j.details[f] in j.footprint && j.details[f].key == j.key && j.details[f].fid == f
      && (j.details[f] != jd ==> j.details[f].Row() == db.details[j.key][f])
      && (j.key == jd.key && f == jd.fid ==> j.details[f] == jd)
    }

    lemma CurrentFitsBut(jd: JobDetail)
      requires CacheFits(jobs, counters, repr, db) && Current(jd)
      ensures FitsBut(jd)
    {
    }

    lemma StoredJobFits(jd: JobDetail, k: JobKey)
      requires FitsBut(jd) && HasDetail(db, jd.key, jd.fid) && k in jobs
      ensures jobs[k].HasDetails(SaveDetail(db, jd.key, jd.fid, jd.Row()).details[k])
    {
      var db' := SaveDetail(db, jd.key, jd.fid, jd.Row());
      forall f | f in jobs[k].details
        ensures jobs[k].details[f].Row() == db'.details[k][f]
        ensures jobs[k].details[f] in jobs[k].footprint && jobs[k].details[f].key == k && jobs[k].details[f].fid == f
      {
        assert DetailFits(jobs[k], f, jd);
      }
    }

    lemma StoredFits(jd: JobDetail)
      requires FitsBut(jd) && HasDetail(db, jd.key, jd.fid) && TablesFit(db)
      ensures CacheFits(jobs, counters, repr, SaveDetail(db, jd.key, jd.fid, jd.Row()))
      ensures TablesFit(SaveDetail(db, jd.key, jd.fid, jd.Row()))
    {
      forall k | k in jobs
        ensures jobs[k].HasDetails(SaveDetail(db, jd.key, jd.fid, jd.Row()).details[k])
      {
        StoredJobFits(jd, k);
      }
    }

    /** Stores the row of a detail. */
    method StoreDetail(jd: JobDetail)
      requires this !in repr && FitsBut(jd) && HasDetail(db, jd.key, jd.fid) && TablesFit(db)
      modifies this`db
      ensures db == SaveDetail(old(db), jd.key, jd.fid, jd.Row()) && TablesFit(db)
      ensures CacheFits(jobs, counters, repr, db)
    {
      hide JobManager.CacheFits, JobManager.TablesFit, JobManager.FitsBut;
      StoredFits(jd);
      db := SaveDetail(db, jd.key, jd.fid, jd.Row());
    }

    // ---------------------------------------------------------------- tracks

    method AddTrack(uid: string, pid: string, typ: JobType)
      requires Valid()
      modifies this`trackUsers, this`trackPkgs
      ensures Valid() && Model() == old(Model()).(tracks := old(Model()).tracks + {JobKey(uid, pid, typ)})
    {
      hide Mirrored, TrackedBy, RecordedBy, JobManager.CacheFits, JobManager.TablesFit, Job.Matches;
      AddedMirrored(trackUsers, trackPkgs, JobKey(uid, pid, typ));
      var track := NewTrack;
      if pid in trackPkgs {
        track := trackPkgs[pid];
      }
      trackPkgs := trackPkgs[pid := track.Add(uid, typ)];
      track := NewTrack;
      if uid in trackUsers {
        track := trackUsers[uid];
      }
      trackUsers := trackUsers[uid := track.Add(pid, typ)];
    }

    /** Takes a name out of one of the two maps, and its track if that is now empty. */
    static method DelFrom(index: Index, outer: string, inner: string, typ: JobType) returns (index': Index)
      ensures index' == Deleted(index, outer, inner, typ)
    {
      index' := index;
      if outer in index {
        var track := index[outer].Del(inner, typ);
        if track.Empty() {
          index' := index - {outer};
        } else {
          index' := index[outer := track];
        }
      }
    }

    method RemoveTrack(uid: string, pid: string, typ: JobType)
      requires Valid()
      modifies this`trackUsers, this`trackPkgs
      ensures Valid() && Model() == old(Model()).(tracks := old(Model()).tracks - {JobKey(uid, pid, typ)})
    {
      hide Mirrored, TrackedBy, RecordedBy, JobManager.CacheFits, JobManager.TablesFit, Job.Matches;
      DeletedMirrored(trackUsers, trackPkgs, JobKey(uid, pid, typ));
      var pkgs := DelFrom(trackPkgs, pid, uid, typ);
      var users := DelFrom(trackUsers, uid, pid, typ);
      trackPkgs, trackUsers := pkgs, users;
    }

    /** Is the job finished, by its counter or else by its rows? */
    method IsJobFinished(j: Job) returns (finished: bool)
      requires Valid() && Represents(j, j.key)
      ensures finished <==> LooksFinished(Model(), j.key)
    {
      if !j.isCached {
        JobCounter.CountZero(db.details[j.key]);
        return CountUnfinished(db.details[j.key]) == 0;
      }
      return j.numUnfinished <= 0;
    }

    /** Stops tracking an upload unless it is unfinished. */
    method VisitUploader(pid: string, uid: string) returns (stop: bool)
      requires Valid()
      modifies this`jobs, this`counters, this`repr, this`trackUsers, this`trackPkgs
      ensures Valid() && fresh(repr - old(repr)) && old(repr) <= repr
      ensures var u, s := JobKey(uid, pid, Upload), old(Model());
        && (stop <==> u in s.db.jobs && !LooksFinished(Load(s, u), u))
        && Model() == if stop then Load(s, u) else Load(s, u).(tracks := s.tracks - {u})
    {
      hide Mirrored, TrackedBy, RecordedBy, JobManager.CacheFits, JobManager.TablesFit, Job.Matches;
      var j := GetJob(JobKey(uid, pid, Upload));
      if j != null {
        var finished := IsJobFinished(j);
        if !finished {
          return true;
        }
      }
      RemoveTrack(uid, pid, Upload);
      return false;
    }

    /** The uploaders of a package nobody downloads any more, in some order, up to the first
        whose upload is unfinished. */
    method CascadeTracks(pid: string) returns (ghost order: seq<string>)
      requires Valid()
      modifies this`jobs, this`counters, this`repr, this`trackUsers, this`trackPkgs
      ensures Valid() && fresh(repr - old(repr)) && old(repr) <= repr
      ensures Enumerates(order, TrackedUsers(old(Model()).tracks, pid, Upload))
      ensures Model() == Cascade(old(Model()), pid, order)
    {
      hide Mirrored, TrackedBy, RecordedBy, JobManager.CacheFits, JobManager.TablesFit, Job.Matches;
      order := [];
      var left := if pid in trackPkgs then trackPkgs[pid].uploads else {};
      UploadersOf(trackPkgs, pid);
      ghost var start := Model();
      ghost var visited := {};
      CascadeStart(start, pid);
      while left != {}
        invariant Valid() && fresh(repr - old(repr)) && old(repr) <= repr
        invariant left !! visited && left + visited == TrackedUsers(start.tracks, pid, Upload)
        invariant Visiting(start, Model(), pid, order, visited)
        decreases left
      {
        var uid :| uid in left;
        ghost var before := Model();
        var stop := VisitUploader(pid, uid);
        left := left - {uid};
        if stop {
          assert visited + {uid} + left == TrackedUsers(start.tracks, pid, Upload);
          order := CascadeStops(start, before, pid, order, visited, uid, left);
          return;
        }
        CascadeGoesOn(start, before, pid, order, visited, uid);
        visited := visited + {uid};
        order := order + [uid];
      }
      CascadeEnds(start, Model(), pid, order, visited);
    }

    /** Stops tracking a job; an upload only if nobody downloads its package. When the last
        download goes, so do the finished uploads. */
    method DelTrack(uid: string, pid: string, typ: JobType) returns (ghost order: seq<string>)
      requires Valid()
      modifies this`jobs, this`counters, this`repr, this`trackUsers, this`trackPkgs
      ensures Valid() && fresh(repr - old(repr)) && old(repr) <= repr
      ensures OrderFits(old(Model()), JobKey(uid, pid, typ), order)
      ensures Model() == Jobs.DelTrack(old(Model()), JobKey(uid, pid, typ), order)
    {
      hide Mirrored, TrackedBy, RecordedBy, JobManager.CacheFits, JobManager.TablesFit, Job.Matches;
      ghost var start := Model();
      order := SomeOrder(TrackedUsers(start.tracks - {JobKey(uid, pid, typ)}, pid, Upload));
      DownloadersOf(trackPkgs, pid);
      if typ.Upload? {
        if pid in trackPkgs {
          if trackPkgs[pid].downloads != {} {
            return;
          }
        }
      }
      RemoveTrack(uid, pid, typ);
      DownloadersOf(trackPkgs, pid);
      UploadersOf(trackPkgs, pid);
      if pid in trackPkgs {
        if trackPkgs[pid].downloads == {} {
          order := CascadeTracks(pid);
        }
      } else {
        order := [];
      }
    }

    // ---------------------------------------------------------------- finishing a job

    /** The cache without `j` fits the database in which `j`'s row has changed. */
    lemma DroppedFits(j: Job, row: JobRow)
      requires CacheFits(jobs, counters, repr, db) && TablesFit(db) && Represents(j, j.key)
      ensures TablesFit(SaveRow(db, j.key, row))
      ensures CacheFits(jobs - {j.key}, counters - {j.key}, repr - {j}, SaveRow(db, j.key, row))
    {
    }

    /** Counts a job as finished, in its object and its row. */
    method SaveFinish(j: Job)
      requires j.key in db.jobs && j.finishedTimes == db.jobs[j.key].finishedTimes
      modifies this`db, j
      ensures db == SaveRow(old(db), j.key, FinishedRow(old(db).jobs[j.key]))
      ensures j.finishedTimes == db.jobs[j.key].finishedTimes
    {
      j.finishedTimes := j.finishedTimes + 1;
      j.state := Done;
      db := db.(jobs := db.jobs[j.key := db.jobs[j.key].(finishedTimes := j.finishedTimes, state := j.state)]);
    }

    /** Counts a job as finished and drops it from the cache. */
    method RetireJob(j: Job)
      requires Valid() && Represents(j, j.key)
      modifies this`db, this`jobs, this`counters, this`repr, j
      ensures Valid() && Model() == Retired(old(Model()), j.key) && repr <= old(repr)
      ensures j.finishedTimes == db.jobs[j.key].finishedTimes
    {
      hide Mirrored, TrackedBy, RecordedBy, JobManager.CacheFits, JobManager.TablesFit, Job.Matches;
      DroppedFits(j, FinishedRow(db.jobs[j.key]));
      SaveFinish(j);
      jobs, counters, repr := jobs - {j.key}, counters - {j.key}, repr - {j};
    }

    /** Counts a job as finished, stops tracking it, and announces it. */
    method FinishJob(j: Job) returns (ghost order: seq<string>)
      requires Valid() && Represents(j, j.key)
      modifies this`db, this`jobs, this`counters, this`repr, this`trackUsers, this`trackPkgs, notices`queue, j
      ensures Valid() && fresh(repr - old(repr))
      ensures OrderFits(old(Model()), j.key, order)
      ensures Model() == Finished(old(Model()), j.key, order)
    {
      hide Mirrored, TrackedBy, RecordedBy, JobManager.CacheFits, JobManager.TablesFit, Job.Matches;
      RetireJob(j);
      order := DelTrack(j.key.uid, j.key.pid, j.key.typ);
      notices.OnJobFinish(j.key, j.id, j.finishedTimes);
    }

    /** Finishes a job whose details are all DONE, as far as its counter tells. */
    method ProcessJob(key: JobKey) returns (ghost order: seq<string>)
      requires Valid()
      modifies this`db, this`jobs, this`counters, this`repr, this`trackUsers, this`trackPkgs, notices`queue, repr
      ensures Valid() && fresh(repr - old(repr))
      ensures OrderFits(old(Model()), key, order)
      ensures Model() == Jobs.ProcessJob(old(Model()), key, order)
    {
      hide Mirrored, TrackedBy, RecordedBy, JobManager.CacheFits, JobManager.TablesFit, Job.Matches;
      order := SomeOrder(TrackedUsers(Model().tracks - {key}, key.pid, Upload));
      var j := GetJob(key);
      if j != null {
        var finished := IsJobFinished(j);
        if finished {
          order := FinishJob(j);
        }
      }
    }

    // ---------------------------------------------------------------- tasks and reports

    /** A job object that fits its rows again joins the rest of the cache. */
    lemma JobRejoins(j: Job)
      requires j.key in jobs && jobs[j.key] == j && j.key in counters && counters[j.key] == j.numUnfinished
      requires j.key in db.jobs && j.key in db.details && j.Matches(db.jobs[j.key], db.details[j.key])
      requires j in repr && j.footprint <= repr
      requires CacheFits(jobs - {j.key}, counters - {j.key}, repr - {j}, db)
      ensures CacheFits(jobs, counters, repr, db)
    {
      assert counters.Keys == (counters - {j.key}).Keys + {j.key};
      assert jobs.Keys == (jobs - {j.key}).Keys + {j.key};
    }

    /** The rest of the cache. */
    lemma JobLeaves(j: Job)
      requires CacheFits(jobs, counters, repr, db) && Represents(j, j.key)
      ensures CacheFits(jobs - {j.key}, counters - {j.key}, repr - {j}, db)
      ensures j.key in jobs ==>
        && j.footprint <= repr && j.key in db.details && j.Matches(db.jobs[j.key], db.details[j.key])
        && j.key in counters && counters[j.key] == j.numUnfinished
    {
    }

    method SetUnfinished(j: Job, n: int, ghost row: JobRow, ghost ds: map<string, Detail>)
      modifies j`numUnfinished
      ensures j.numUnfinished == n
      ensures old(j.Matches(row, ds)) ==> j.Matches(row, ds)
    {
      j.numUnfinished := n;
    }

    /** Moves the counter of a cached job down, in its object and in the cache. */
    method LowerCounter(j: Job)
      requires CacheFits(jobs, counters, repr, db) && Represents(j, j.key) && j.key in jobs && this !in repr
      modifies this`counters, j`numUnfinished
      ensures CacheFits(jobs, counters, repr, db)
      ensures counters == old(counters)[j.key := old(j.numUnfinished) - 1]
    {
      hide JobManager.CacheFits, Job.Matches;
      JobLeaves(j);
      counters := counters[j.key := j.numUnfinished - 1];
      assert counters - {j.key} == old(counters) - {j.key};
      SetUnfinished(j, j.numUnfinished - 1, db.jobs[j.key], db.details[j.key]);
      JobRejoins(j);
    }

    /** Moves the counter of a job that is not cached down. */
    method LowerUncached(j: Job)
      requires Valid() && Represents(j, j.key) && j.key !in jobs
      modifies j`numUnfinished
      ensures Valid() && Represents(j, j.key)
    {
      hide Mirrored, TrackedBy, RecordedBy, JobManager.CacheFits, JobManager.TablesFit, Job.Matches;
      j.numUnfinished := j.numUnfinished - 1;
    }

    lemma CounterOf(j: Job)
      requires CacheFits(jobs, counters, repr, db) && Represents(j, j.key)
      ensures j.key in jobs <==> j.key in counters
      ensures j.key in jobs ==> counters[j.key] == j.numUnfinished
    {
    }

    /** One detail less to finish. */
    method CountDown(j: Job)
      requires Valid() && Represents(j, j.key)
      modifies this`counters, j`numUnfinished
      ensures Valid() && Model() == Decremented(old(Model()), j.key) && Represents(j, j.key)
    {
      hide Mirrored, TrackedBy, RecordedBy, JobManager.CacheFits, JobManager.TablesFit, Job.Matches;
      CounterOf(j);
      if j.key in jobs {
        LowerCounter(j);
      } else {
        LowerUncached(j);
      }
    }

    /** Stores a new state of the job, in its object and its row. */
    method SetState(j: Job, state: TransferState, ghost ds: map<string, Detail>)
      requires j.key in db.jobs
      modifies this`db, j`state
      ensures db == SaveRow(old(db), j.key, old(db).jobs[j.key].(state := state)) && j.state == state
      ensures old(j.Matches(db.jobs[j.key], ds)) ==> j.Matches(db.jobs[j.key], ds)
    {
      j.state := state;
      db := SaveRow(db, j.key, db.jobs[j.key].(state := j.state));
    }

    /** Stores a new state of the job. */
    method SaveState(j: Job, state: TransferState)
      requires Valid() && Represents(j, j.key)
      modifies this`db, j`state
      ensures Valid() && Represents(j, j.key)
      ensures db == SaveRow(old(db), j.key, old(db).jobs[j.key].(state := state))
    {
      hide Mirrored, TrackedBy, RecordedBy, JobManager.CacheFits, JobManager.TablesFit, Job.Matches;
      JobLeaves(j);
      DroppedFits(j, db.jobs[j.key].(state := state));
      CounterOf(j);
      assert j.key !in jobs ==> jobs - {j.key} == jobs && counters - {j.key} == counters && repr - {j} == repr;
      SetState(j, state, db.details[j.key]);
      if j.key in jobs {
        JobRejoins(j);
      }
    }

    /** Task observer: a task with `numSegs` segments of a file was dispatched. */
    method AddTask(key: JobKey, fid: string, numSegs: nat)
      requires Valid()
      modifies this`db, this`jobs, this`counters, this`repr, notices`queue, repr
      ensures Valid() && fresh(repr - old(repr))
      ensures Model() == Jobs.AddTask(old(Model()), key, fid, numSegs)
    {
      hide Mirrored, TrackedBy, RecordedBy, JobManager.CacheFits, JobManager.TablesFit, JobManager.FitsBut, Job.Matches;
      var j := GetJob(key);
      if j == null {
        return;
      }
      var jd := GetJobDetail(key, fid);
      if jd == null {
        return;
      }
      StartDetail(jd, numSegs);
      if j.state.Idle? {
        SaveState(j, Doing);
        notices.OnJobStart(key, j.id);
      }
    }

    method StartDetail(jd: JobDetail, numSegs: nat)
      requires Valid() && Current(jd)
      modifies this`db, jd
      ensures Valid()
      ensures db == SaveDetail(old(db), jd.key, jd.fid,
        TaskedDetail(old(db).details[jd.key][jd.fid], old(db).files[jd.fid], numSegs))
    {
      hide Mirrored, TrackedBy, RecordedBy, JobManager.CacheFits, JobManager.TablesFit, JobManager.FitsBut, Job.Matches;
      CurrentFitsBut(jd);
      var save := jd.Start(db.files[jd.fid], numSegs);
      StoreDetail(jd);
    }

    /** Task observer: a task went away in state `t`. */
    method DelTask(key: JobKey, fid: string, t: TransferState)
      requires Valid()
      modifies this`db, this`jobs, this`counters, this`repr, repr
      ensures Valid() && fresh(repr - old(repr))
      ensures Model() == Jobs.DelTask(old(Model()), key, fid, t)
    {
      hide Mirrored, TrackedBy, RecordedBy, JobManager.CacheFits, JobManager.TablesFit, JobManager.FitsBut, Job.Matches;
      var jd := GetJobDetail(key, fid);
      if jd == null {
        return;
      }
      SavedSame(db, key, fid);
      if jd.state == t || jd.state.Done? {
        return;
      }
      if t.Pause? {
        PauseDetail(jd);
      }
    }

    method PauseDetail(jd: JobDetail)
      requires Valid() && Current(jd)
      modifies this`db, jd
      ensures Valid()
      ensures db == SaveDetail(old(db), jd.key, jd.fid, old(db).details[jd.key][jd.fid].(state := Pause))
    {
      hide Mirrored, TrackedBy, RecordedBy, JobManager.CacheFits, JobManager.TablesFit, JobManager.FitsBut, Job.Matches;
      CurrentFitsBut(jd);
      jd.state := Pause;
      StoreDetail(jd);
    }

    /** A receiver tells how far it is. */
    method UpdateJobDetailProcess(key: JobKey, fid: string, size: nat, n: int)
      requires Valid()
      modifies this`db, this`jobs, this`counters, this`repr, repr
      ensures Valid() && fresh(repr - old(repr))
      ensures Model() == Progress(old(Model()), key, fid, size, n)
    {
      hide Mirrored, TrackedBy, RecordedBy, JobManager.CacheFits, JobManager.TablesFit, JobManager.FitsBut, Job.Matches;
      var jd := GetJobDetail(key, fid);
      if jd != null {
        SetProgress(jd, size, n);
      }
    }

    method SetProgress(jd: JobDetail, size: nat, n: int)
      requires Valid() && Current(jd)
      modifies this`db, jd
      ensures Valid()
      ensures db == SaveDetail(old(db), jd.key, jd.fid,
        old(db).details[jd.key][jd.fid].(finishedSize := size, numFinishedSegs := n))
    {
      hide Mirrored, TrackedBy, RecordedBy, JobManager.CacheFits, JobManager.TablesFit, JobManager.FitsBut, Job.Matches;
      CurrentFitsBut(jd);
      jd.finishedSize := size;
      jd.numFinishedSegs := n;
      StoreDetail(jd);
    }

    /** Task observer: a node reports on segment `sid` of a file. */
    method TaskStateNotify(key: JobKey, fid: string, sid: string, segState: TransferState, totalBytes: nat, bitrate: nat)
      returns (ghost order: seq<string>)
      requires Valid()
      modifies this`db, this`jobs, this`counters, this`repr, this`trackUsers, this`trackPkgs, notices`queue, repr
      ensures Valid() && fresh(repr - old(repr))
      ensures OrderFits(old(Model()), key, order)
      ensures Model() == Notify(old(Model()), key, fid, sid, segState, totalBytes, order)
    {
      hide Mirrored, TrackedBy, RecordedBy, JobManager.CacheFits, JobManager.TablesFit, JobManager.FitsBut, Job.Matches;
      hide Reporting, Jobs.ProcessJob;
      order := SomeOrder(TrackedUsers(Model().tracks - {key}, key.pid, Upload));
      if sid == "" {
        return;
      }
      var j := GetJob(key);
      if j == null {
        return;
      }
      var jd := GetJobDetail(key, fid);
      if jd == null {
        return;
      }
      ReportingLoaded(old(Model()), key, fid, sid, segState, totalBytes);
      RecordReport(j, jd, sid, segState, totalBytes, bitrate);
      order := ProcessJob(key);
    }

    method RecordReport(j: Job, jd: JobDetail, sid: string, segState: TransferState, totalBytes: nat, bitrate: nat)
      requires Valid() && Current(jd) && Represents(j, jd.key) && Load(Model(), j.key) == Model()
      modifies this`db, this`counters, j, jd
      ensures Valid() && Model() == Reporting(old(Model()), jd.key, jd.fid, sid, segState, totalBytes)
    {
      hide Mirrored, TrackedBy, RecordedBy, JobManager.CacheFits, JobManager.TablesFit, JobManager.FitsBut, Job.Matches;
      ReportDetail(jd, sid, segState, totalBytes, bitrate);
      if jd.state.Done? {
        CountDown(j);
      }
      SaveSegState(jd.key, sid, segState);
    }

    method ReportDetail(jd: JobDetail, sid: string, segState: TransferState, totalBytes: nat, bitrate: nat)
      requires Valid() && Current(jd)
      modifies this`db, jd
      ensures Valid()
      ensures db == SaveDetail(old(db), jd.key, jd.fid,
        Reported(old(db).details[jd.key][jd.fid], old(db).files[jd.fid], segState, SegBytes(old(db), sid, totalBytes)))
      ensures jd.Row() == db.details[jd.key][jd.fid]
    {
      hide Mirrored, TrackedBy, RecordedBy, JobManager.CacheFits, JobManager.TablesFit, JobManager.FitsBut, Job.Matches;
      CurrentFitsBut(jd);
      var bytes := totalBytes;
      if sid in db.segs {
        bytes := db.segs[sid].size;
      }
      var save := jd.Update(db.files[jd.fid], segState, bytes, totalBytes, bitrate);
      StoreDetail(jd);
    }

    /** The state of an uploaded segment is stored with it. */
    method SaveSegState(key: JobKey, sid: string, segState: TransferState)
      requires Valid()
      modifies this`db
      ensures Valid() && db == SaveSeg(old(db), key, sid, segState)
    {
      if key.typ.Upload? && sid in db.segs {
        db := db.(segs := db.segs[sid := db.segs[sid].(state := segState)]);
      }
    }

    /** A receiver asks for no segments of a file: it has the file already. */
    method ClaimFile(key: JobKey, fid: string) returns (ghost order: seq<string>)
      requires Valid()
      modifies this`db, this`jobs, this`counters, this`repr, this`trackUsers, this`trackPkgs, notices`queue, repr
      ensures Valid() && fresh(repr - old(repr))
      ensures OrderFits(old(Model()), key, order)
      ensures Model() == EmptySegs(old(Model()), key, fid, order)
    {
      hide Claiming, Jobs.ProcessJob, Mirrored, TrackedBy, RecordedBy, JobManager.CacheFits, JobManager.TablesFit, JobManager.FitsBut, Job.Matches;
      ClaimingLoaded(Model(), key, fid);
      var j := GetJob(key);
      var jd := GetJobDetail(key, fid);
      RecordClaim(j, jd, key, fid);
      order := ProcessJob(key);
    }

    method RecordClaim(j: Job?, jd: JobDetail?, key: JobKey, fid: string)
      requires Valid() && Load(Model(), key) == Model()
      requires j == null <==> key !in db.jobs
      requires j != null ==> Represents(j, key)
      requires jd == null <==> !HasDetail(db, key, fid)
      requires jd != null ==> Current(jd) && jd.key == key && jd.fid == fid
      modifies this`db, this`counters, if j == null then {} else {j}, if jd == null then {} else {jd}
      ensures Valid() && Model() == Claiming(old(Model()), key, fid)
    {
      hide Mirrored, TrackedBy, RecordedBy, JobManager.CacheFits, JobManager.TablesFit, JobManager.FitsBut, Job.Matches, Load, Claiming, CountUnfinished, JobDetail.Row;
      CountersCached(key);
      ClaimingSteps(Model(), key, fid);
      if jd != null {
        FillDetail(jd);
      }
      if j != null {
        CountDownCached(j);
      }
    }

    lemma CountersCached(key: JobKey)
      requires CacheFits(jobs, counters, repr, db)
      ensures key in counters ==> key in db.jobs
    {
    }

    method CountDownCached(j: Job)
      requires Valid() && Represents(j, j.key)
      modifies this`counters, j`numUnfinished
      ensures Valid() && Model() == Decremented(old(Model()), j.key)
    {
      hide Mirrored, TrackedBy, RecordedBy, JobManager.CacheFits, JobManager.TablesFit, JobManager.FitsBut, Job.Matches;
      CounterOf(j);
      if j.isCached {
        CountDown(j);
      }
    }

    method FillDetail(jd: JobDetail)
      requires Valid() && Current(jd)
      modifies this`db, jd
      ensures Valid()
      ensures db == SaveDetail(old(db), jd.key, jd.fid,
        Detail(Done, true, old(db).files[jd.fid].size, old(db).files[jd.fid].numSegs))
    {
      hide Mirrored, TrackedBy, RecordedBy, JobManager.CacheFits, JobManager.TablesFit, JobManager.FitsBut, Job.Matches;
      CurrentFitsBut(jd);
      jd.Fill(db.files[jd.fid]);
      StoreDetail(jd);
    }

    // ---------------------------------------------------------------- deleting jobs

    method AddTrackOfDelete(uid: string, pid: string, typ: JobType)
      requires Valid()
      modifies this`trackDeletes
      ensures Valid() && Model() == old(Model()).(deletes := old(Model()).deletes + {JobKey(uid, pid, typ)})
    {
      AddedRecords(trackDeletes, JobKey(uid, pid, typ));
      var track := NewTrack;
      if uid in trackDeletes {
        track := trackDeletes[uid];
      }
      trackDeletes := trackDeletes[uid := track.Add(pid, typ)];
    }

    /** Deletes the rows of a job, and its object. */
    method DropJob(key: JobKey)
      requires Valid() && key in db.jobs
      modifies this`db, this`jobs, this`counters
      ensures Valid()
      ensures db == old(db).(jobs := old(db).jobs - {key}, details := old(db).details - {key})
      ensures counters == old(counters) - {key}
    {
      hide Mirrored, TrackedBy, RecordedBy, JobManager.CacheFits, JobManager.TablesFit, Job.Matches;
      RemovedFits(key);
      db, jobs, counters :=
        db.(jobs := db.jobs - {key}, details := db.details - {key}), jobs - {key}, counters - {key};
    }

    lemma RemovedFits(key: JobKey)
      requires CacheFits(jobs, counters, repr, db) && TablesFit(db)
      ensures var db' := db.(jobs := db.jobs - {key}, details := db.details - {key});
        TablesFit(db') && CacheFits(jobs - {key}, counters - {key}, repr, db')
    {
    }

    method DeleteJob(key: JobKey) returns (ghost order: seq<string>)
      requires Valid()
      modifies this`db, this`jobs, this`counters, this`repr, this`trackUsers, this`trackPkgs, this`trackDeletes
      ensures Valid() && fresh(repr - old(repr)) && old(repr) <= repr
      ensures OrderFits(old(Model()), key, order)
      ensures Model() == Jobs.DeleteJob(old(Model()), key, order)
    {
      hide Mirrored, TrackedBy, RecordedBy, JobManager.CacheFits, JobManager.TablesFit, JobManager.FitsBut, Job.Matches, Jobs.DelTrack;
      ghost var s := Model();
      order := SomeOrder(TrackedUsers(s.tracks - {key}, key.pid, Upload));
      if key !in db.jobs {
        return;
      }
      DropJob(key);
      ghost var s1 := s.(db := db);
      assert Model() == s1.(cache := s1.cache - {key});
      order := DelTrack(key.uid, key.pid, key.typ);
      JobIndex.DelTrackIgnores(s1, key, order);
      AddTrackOfDelete(key.uid, key.pid, key.typ);
    }

    /** Deletes the downloads of a package, in some order. */
    method DeleteAllDownloads(pid: string) returns (ghost plan: seq<Deletion>)
      requires Valid()
      modifies this`db, this`jobs, this`counters, this`repr, this`trackUsers, this`trackPkgs, this`trackDeletes
      ensures Valid() && fresh(repr - old(repr))
      ensures forall u :: Planned(plan, u) <==> LiveDownload(old(db), pid, u)
      ensures PlanFits(old(Model()), pid, plan) && Model() == DeleteDownloads(old(Model()), pid, plan)
    {
      hide Mirrored, TrackedBy, RecordedBy, JobManager.CacheFits, JobManager.TablesFit, JobManager.FitsBut, Job.Matches, Jobs.DeleteJob, PlanFits, DeleteDownloads, Planned, LiveDownload;
      var left := set k | k in db.jobs && k.typ.Download? && k.pid == pid && !db.jobs[k].softDel :: k.uid;
      DownloadUids(db, pid, left);
      ghost var s, all := Model(), left;
      plan := [];
      PlanStart(s, pid);
      while left != {}
        invariant Valid() && fresh(repr - old(repr)) && old(repr) <= repr
        invariant left <= all && forall u :: Planned(plan, u) <==> u in all && u !in left
        invariant PlanFits(s, pid, plan) && Model() == DeleteDownloads(s, pid, plan)
        decreases left
      {
        var uid :| uid in left;
        ghost var order := DeleteJob(JobKey(uid, pid, Download));
        PlanSnoc(s, pid, plan, Deletion(uid, order));
        PlannedSnoc(plan, Deletion(uid, order));
        plan := plan + [Deletion(uid, order)];
        left := left - {uid};
      }
    }

    /** Deletes a package: marks its upload, deletes its downloads, stops tracking it. */
    method DeletePkg(key: JobKey) returns (ghost plan: seq<Deletion>, ghost order: seq<string>)
      requires Valid() && key in db.jobs && key.typ.Upload?
      modifies this`db, this`jobs, this`counters, this`repr, this`trackUsers, this`trackPkgs, this`trackDeletes
      ensures Valid() && fresh(repr - old(repr))
      ensures Possible(old(Model()), DeletePkgE(key, plan, order))
      ensures Model() == Jobs.DeletePkg(old(Model()), key, plan, order)
    {
      hide Mirrored, TrackedBy, RecordedBy, JobManager.CacheFits, JobManager.TablesFit, JobManager.FitsBut, Job.Matches, Jobs.DelTrack, Jobs.DeleteJob, PlanFits, DeleteDownloads, Planned;
      SoftDelete(key);
      plan := DeleteAllDownloads(key.pid);
      order := DelTrack(key.uid, key.pid, key.typ);
    }

    method SoftDelete(key: JobKey)
      requires Valid() && key in db.jobs
      modifies this`db
      ensures Valid() && Model() == SoftDeleted(old(Model()), key)
    {
      hide Mirrored, TrackedBy, RecordedBy;
      db := db.(jobs := db.jobs[key := db.jobs[key].(softDel := true)]);
    }

    // ---------------------------------------------------------------- creating jobs

    /** Creates a job, or starts an existing one again. */
    method CreateJob(key: JobKey)
      requires Valid() && forall f :: key.pid in db.pkgs && f in db.pkgs[key.pid] ==> f in db.files
      modifies this`db, this`jobs, this`counters, this`trackUsers, this`trackPkgs, notices`queue
      ensures Valid() && Model() == Jobs.CreateJob(old(Model()), key)
    {
      if key in db.jobs {
        hide Mirrored, TrackedBy, RecordedBy, JobManager.CacheFits, Job.Matches;
        ResetJob(key);
        TrackCreated(key);
        notices.OnJobCreate(key, db.jobs[key].id);
      } else if key.pid in db.pkgs {
        hide Mirrored, TrackedBy, RecordedBy, JobManager.CacheFits, Job.Matches;
        var id := db.nextId;
        InsertJob(key);
        TrackCreated(key);
        notices.OnJobCreate(key, id);
      }
    }

    /** Resets the stored details of a job that is not cached. */
    method ResetDetails(key: JobKey)
      requires TablesFit(db) && CacheFits(jobs, counters, repr, db) && this !in repr && key !in jobs && key in db.details
      modifies this`db
      ensures TablesFit(db) && CacheFits(jobs, counters, repr, db)
      ensures db == RecreatedDb(old(db), key)
    {
      ghost var db0 := db;
      var left := db.details[key].Keys;
      NoneReset(db0, key);
      while left != {}
        invariant left <= db0.details[key].Keys && TablesFit(db) && CacheFits(jobs, counters, repr, db)
        invariant db == PartlyReset(db0, key, left)
        decreases left
      {
        var f :| f in left;
        OneMoreReset(db0, key, left, f);
        ResetDetail(key, f);
        left := left - {f};
      }
      AllReset(db0, key);
    }

    /** Resets the stored details of a job and drops its object. */
    method ResetJob(key: JobKey)
      requires Valid() && key in db.jobs
      modifies this`db, this`jobs, this`counters
      ensures Valid() && db == RecreatedDb(old(db), key) && counters == old(counters) - {key}
    {
      hide Mirrored, JobManager.CacheFits, JobManager.TablesFit, RecreatedDb;
      DroppedKeyFits(key);
      jobs, counters := jobs - {key}, counters - {key};
      ResetDetails(key);
    }

    lemma DroppedKeyFits(key: JobKey)
      requires TablesFit(db) && CacheFits(jobs, counters, repr, db) && key in db.jobs
      ensures key in db.details
      ensures CacheFits(jobs - {key}, counters - {key}, repr, db)
    {
    }

    lemma SavedElsewhereFits(key: JobKey, f: string, d: Detail)
      requires TablesFit(db) && CacheFits(jobs, counters, repr, db)
      requires key !in jobs && key in db.details && f in db.details[key]
      ensures TablesFit(SaveDetail(db, key, f, d)) && CacheFits(jobs, counters, repr, SaveDetail(db, key, f, d))
    {
    }

    /** Resets one stored detail of a job that is not cached. */
    method ResetDetail(key: JobKey, f: string)
      requires TablesFit(db) && CacheFits(jobs, counters, repr, db) && this !in repr
      requires key !in jobs && key in db.details && f in db.details[key] && f in db.files
      modifies this`db
      ensures TablesFit(db) && CacheFits(jobs, counters, repr, db)
      ensures db == SaveDetail(old(db), key, f, RecreatedDetail(old(db).details[key][f], old(db).files[f]))
    {
      hide JobManager.CacheFits, JobManager.TablesFit, RecreatedDetail;
      SavedElsewhereFits(key, f, RecreatedDetail(db.details[key][f], db.files[f]));
      var jd := new JobDetail(key, f, db.details[key][f]);
      jd.Recreate(db.files[f]);
      db := SaveDetail(db, key, f, jd.Row());
    }

    /** The row of a new job and one detail row for each file of its package, inserted in one
        transaction. */
    method InsertJob(key: JobKey)
      requires Valid() && key !in db.jobs && key.pid in db.pkgs
      requires forall f :: f in db.pkgs[key.pid] ==> f in db.files
      modifies this`db
      ensures Valid() && db == CreatedDb(old(db), key)
    {
      var fids := db.pkgs[key.pid];
      var rows: map<string, Detail> := map[];
      for i := 0 to |fids|
        invariant rows == map f | f in fids[..i] :: NewDetail(db.files[f])
      {
        var row := Detail(Idle, false, 0, 0);
        if db.files[fids[i]].size == 0 {
          row := row.(started := true, state := Done);
        }
        rows := rows[fids[i] := row];
      }
      assert fids[..|fids|] == fids;
      CreatedFits(key, rows);
      db := db.(jobs := db.jobs[key := JobRow(db.nextId, false, 0, Idle)],
                details := db.details[key := rows],
                nextId := db.nextId + 1);
    }

    lemma CreatedFits(key: JobKey, rows: map<string, Detail>)
      requires TablesFit(db) && CacheFits(jobs, counters, repr, db) && key !in db.jobs && key.pid in db.pkgs
      requires forall f :: f in db.pkgs[key.pid] ==> f in db.files
      requires rows == map f | f in db.pkgs[key.pid] :: NewDetail(db.files[f])
      ensures CreatedDb(db, key).details[key] == rows
      ensures TablesFit(CreatedDb(db, key)) && CacheFits(jobs, counters, repr, CreatedDb(db, key))
    {
    }

    /** Tracks a job; a download brings the live uploads of its package. */
    method TrackCreated(key: JobKey)
      requires Valid()
      modifies this`trackUsers, this`trackPkgs
      ensures Valid() && Model() == old(Model()).(tracks := WithTrack(db, old(Model()).tracks, key))
    {
      hide Mirrored, TrackedBy, RecordedBy, JobManager.CacheFits, JobManager.TablesFit, JobManager.FitsBut, Job.Matches;
      ghost var tracks := Model().tracks;
      AddTrack(key.uid, key.pid, key.typ);
      if key.typ.Download? {
        var left := set u | u in db.jobs && LiveUpload(db, u) && u.pid == key.pid;
        ghost var all := left;
        while left != {}
          invariant Valid() && left <= all
          invariant Model() == old(Model()).(tracks := tracks + {key} + (all - left))
          decreases left
        {
          var u :| u in left;
          AddTrack(u.uid, u.pid, u.typ);
          left := left - {u};
          assert tracks + {key} + (all - (left + {u})) + {u} == tracks + {key} + (all - left);
        }
        assert all - left == all;
      }
    }

    method ClearTracks()
      requires Valid()
      modifies this`trackUsers, this`trackPkgs, this`trackDeletes
      ensures Valid() && Model() == old(Model()).(tracks := {}, deletes := {})
    {
      trackUsers, trackPkgs, trackDeletes := map[], map[], map[];
      assert TrackedBy(trackPkgs) == {} && RecordedBy(trackUsers) == {} && RecordedBy(trackDeletes) == {};
    }

    /** Tracks the given jobs one by one. */
    method TrackAll(ks: set<JobKey>)
      requires Valid() && Model().tracks == {}
      modifies this`trackUsers, this`trackPkgs
      ensures Valid() && Model() == old(Model()).(tracks := TracksOf(db, ks))
    {
      hide Mirrored, TrackedBy, RecordedBy, JobManager.CacheFits, JobManager.TablesFit, JobManager.FitsBut, Job.Matches, TracksOf, WithTrack;
      TracksOfNone(db);
      var left := ks;
      ghost var done := {};
      while left != {}
        invariant Valid() && left + done == ks
        invariant Model() == old(Model()).(tracks := TracksOf(db, done))
        decreases left
      {
        var k :| k in left;
        TracksOfMore(db, done, k);
        TrackCreated(k);
        left := left - {k};
        done := done + {k};
      }
      assert done == ks;
    }

    /** Tracks what the database says, and nothing else. */
    method LoadTracks()
      requires Valid()
      modifies this`trackUsers, this`trackPkgs, this`trackDeletes
      ensures Valid() && Model() == old(Model()).(tracks := Recomputed(db), deletes := {})
    {
      hide Mirrored, TrackedBy, RecordedBy, JobManager.CacheFits, JobManager.TablesFit, JobManager.FitsBut, Job.Matches, TracksOf, Recomputed;
      var jobs := set k | k in db.jobs && k in db.details && !db.jobs[k].softDel && UnfinishedFids(db.details[k]) != {};
      UnfinishedKeys(db, jobs);
      TracksOfAll(db, jobs);
      ClearTracks();
      TrackAll(jobs);
    }

    // ---------------------------------------------------------------- new packages

    static method SumSizes(files: map<string, File>, fids: seq<string>) returns (size: nat)
      requires forall f :: f in fids ==> f in files
      ensures size == SizeOf(files, fids) % U64
    {
      size := 0;
      for i := 0 to |fids|
        invariant size == SizeOf(files, fids[..i]) % U64
      {
        WrappedSum(files, fids, i);
        size := (size + files[fids[i]].size) % U64;
      }
      assert fids[..|fids|] == fids;
    }

    static method InsertFiles(rows: map<string, File>, files: map<string, File>, fids: seq<string>)
      returns (all: map<string, File>)
      requires forall f :: f in fids <==> f in files
      ensures all == rows + files
    {
      all := rows;
      for i := 0 to |fids|
        invariant all == rows + map f | f in fids[..i] :: files[f]
      {
        all := all[fids[i] := files[fids[i]]];
      }
      assert fids[..|fids|] == fids;
      assert (map f | f in fids :: files[f]) == files;
    }

    /** Stores a new package with its files and segments; the package's size is summed in 64 bits. */
    method CreatePkg(pid: string, fids: seq<string>, files: map<string, File>, segs: map<string, Seg>)
      requires Valid() && forall f :: f in fids <==> f in files
      modifies this`db
      ensures Valid() && Model() == Jobs.NewPkg(old(Model()), pid, fids, files, segs)
    {
      hide Mirrored, TrackedBy, RecordedBy, JobManager.CacheFits, JobManager.TablesFit, Job.Matches, SizeOf;
      var size := SumSizes(files, fids);
      var rows := InsertFiles(db.files, files, fids);
      GrownFits(Jobs.NewPkg(Model(), pid, fids, files, segs).db);
      db := db.(pkgs := db.pkgs[pid := fids], sizes := db.sizes[pid := size], files := rows, segs := db.segs + segs);
    }

    lemma GrownFits(grown: Database)
      requires TablesFit(db) && CacheFits(jobs, counters, repr, db)
      requires grown.jobs == db.jobs && grown.details == db.details && db.files.Keys <= grown.files.Keys
      ensures TablesFit(grown) && CacheFits(jobs, counters, repr, grown)
    {
    }

    // ---------------------------------------------------------------- queries

    /** The numbers of tracked uploads and downloads. */
    method GetUnFinishedJobCount() returns (upload: nat, download: nat)
      requires Valid()
      ensures upload == |OfType(Model().tracks, Upload)| && download == |OfType(Model().tracks, Download)|
    {
      upload, download := 0, 0;
      var pkgs := trackPkgs;
      var left := pkgs.Keys;
      NoPkgs(pkgs);
      while left != {}
        invariant left <= pkgs.Keys
        invariant upload == CountIn(pkgs, left, Upload) && download == CountIn(pkgs, left, Download)
        decreases left
      {
        var pid :| pid in left;
        OneMorePkg(pkgs, left, pid, Upload);
        OneMorePkg(pkgs, left, pid, Download);
        upload := upload + |pkgs[pid].uploads|;
        download := download + |pkgs[pid].downloads|;
        left := left - {pid};
      }
      AllPkgs(pkgs, Upload);
      AllPkgs(pkgs, Download);
    }

    /** The packages a user saw deleted, each once; with `remove`, they are not told again. */
    method GetTrackOfDelete(uid: string, typ: JobType, remove: bool) returns (pids: seq<string>)
      requires Valid()
      modifies this`trackDeletes
      ensures Valid()
      ensures Enumerates(pids, set k | k in old(Model()).deletes && k.uid == uid && k.typ == typ :: k.pid)
      ensures Model() == if remove then DeletesTold(old(Model()), uid, typ) else old(Model())
    {
      hide Mirrored, TrackedBy, RecordedBy, JobManager.CacheFits, JobManager.TablesFit, Job.Matches;
      pids := [];
      DeletesOf(trackDeletes, uid, typ);
      if uid !in trackDeletes {
        DeletesNone(trackDeletes, uid, typ);
        return;
      }
      ghost var before := trackDeletes;
      var track := trackDeletes[uid];
      var left := track.Of(typ);
      while left != {}
        invariant trackDeletes == before
        invariant left <= before[uid].Of(typ) && Enumerates(pids, before[uid].Of(typ) - left)
        invariant track == if remove then Kept(before[uid], typ, left) else before[uid]
        decreases left
      {
        var pid :| pid in left;
        EnumeratesSnoc(pids, before[uid].Of(typ) - left, pid);
        assert before[uid].Of(typ) - left + {pid} == before[uid].Of(typ) - (left - {pid});
        pids := pids + [pid];
        if remove {
          track := track.Del(pid, typ);
        }
        left := left - {pid};
      }
      assert before[uid].Of(typ) - left == before[uid].Of(typ);
      if track.Empty() {
        trackDeletes := trackDeletes - {uid};
      } else {
        trackDeletes := trackDeletes[uid := track];
      }
      DeletesKept(before, uid, typ, track, remove);
    }

    /** How much of a package a job has transferred, in 64-bit arithmetic. */
    method GetTransferedSize(key: JobKey) returns (total: nat)
      requires Valid() && key in db.jobs && key.pid in db.pkgs
      ensures total == JobSizes.TransferredOf(db, key, db.pkgs[key.pid]) % U64
    {
      total := 0;
      var fids := db.pkgs[key.pid];
      for i := 0 to |fids|
        invariant total == JobSizes.TransferredOf(db, key, fids[..i]) % U64
      {
        assert fids[..i + 1][..i] == fids[..i];
        if fids[i] in db.details[key] && db.details[key][fids[i]].state.Done? {
          total := (total + db.details[key][fids[i]].finishedSize) % U64;
        }
      }
      assert fids[..|fids|] == fids;
    }
  }

  lemma WrappedSum(files: map<string, File>, fids: seq<string>, i: nat)
    requires i < |fids| && fids[i] in files
    ensures SizeOf(files, fids[..i + 1]) % U64 == (SizeOf(files, fids[..i]) % U64 + files[fids[i]].size) % U64
  {
    assert fids[..i + 1][..i] == fids[..i];
    SumMod(SizeOf(files, fids[..i]), files[fids[i]].size);
  }

  lemma SumMod(a: nat, b: nat)
    ensures (a + b) % U64 == (a % U64 + b) % U64
  {
  }

  // ---------------------------------------------------------------- plans

  lemma PlanStart(s: State, pid: string)
    ensures PlanFits(s, pid, []) && DeleteDownloads(s, pid, []) == s && forall u :: !Planned([], u)
  {
  }

  lemma DownloadUids(db: Database, pid: string, uids: set<string>)
    requires uids == set k | k in db.jobs && k.typ.Download? && k.pid == pid && !db.jobs[k].softDel :: k.uid
    ensures forall u :: u in uids <==> LiveDownload(db, pid, u)
  {
    forall u | LiveDownload(db, pid, u)
      ensures u in uids
    {
      assert JobKey(u, pid, Download).uid == u;
    }
  }

  lemma {:induction false} PlanSnoc(s: State, pid: string, plan: seq<Deletion>, d: Deletion)
    requires PlanFits(s, pid, plan)
    requires OrderFits(DeleteDownloads(s, pid, plan), JobKey(d.uid, pid, Download), d.order)
    ensures PlanFits(s, pid, plan + [d])
    ensures DeleteDownloads(s, pid, plan + [d])
         == Jobs.DeleteJob(DeleteDownloads(s, pid, plan), JobKey(d.uid, pid, Download), d.order)
    decreases |plan|
  {
    if plan == [] {
      assert [] + [d] == [d] && [d][1..] == [];
    } else {
      var s1 := Jobs.DeleteJob(s, JobKey(plan[0].uid, pid, Download), plan[0].order);
      PlanSnoc(s1, pid, plan[1..], d);
      assert (plan + [d])[1..] == plan[1..] + [d];
    }
  }

  lemma PlannedSnoc(plan: seq<Deletion>, d: Deletion)
    ensures forall u :: Planned(plan + [d], u) <==> Planned(plan, u) || d.uid == u
  {
    forall u
      ensures Planned(plan + [d], u) <==> Planned(plan, u) || d.uid == u
    {
      if i :| 0 <= i < |plan| && plan[i].uid == u {
        assert (plan + [d])[i].uid == u;
      }
      assert (plan + [d])[|plan|].uid == d.uid;
    }
  }

  // ---------------------------------------------------------------- resets and reloads

  /** The database when all details of a job but those in `left` are reset. */
  ghost function PartlyReset(db: Database, key: JobKey, left: set<string>): Database
    requires key in db.details
  {
    db.(details := db.details[key :=
      map f | f in db.details[key] ::
        if f in left || f !in db.files then db.details[key][f] else RecreatedDetail(db.details[key][f], db.files[f])])
  }

  lemma NoneReset(db: Database, key: JobKey)
    requires key in db.details
    ensures PartlyReset(db, key, db.details[key].Keys) == db
  {
    var left := db.details[key].Keys;
    assert PartlyReset(db, key, left).details[key] == db.details[key];
    assert PartlyReset(db, key, left).details == db.details;
  }

  lemma OneMoreReset(db: Database, key: JobKey, left: set<string>, f: string)
    requires key in db.details && f in left && f in db.details[key] && f in db.files
    ensures var r := PartlyReset(db, key, left);
      && r.files == db.files && key in r.details && f in r.details[key]
      && SaveDetail(r, key, f, RecreatedDetail(r.details[key][f], r.files[f])) == PartlyReset(db, key, left - {f})
  {
    var r, r' := PartlyReset(db, key, left), PartlyReset(db, key, left - {f});
    var saved := SaveDetail(r, key, f, RecreatedDetail(r.details[key][f], r.files[f]));
    assert saved.details[key] == r'.details[key];
    assert saved.details == r'.details;
  }

  lemma AllReset(db: Database, key: JobKey)
    requires key in db.details
    ensures PartlyReset(db, key, {}) == RecreatedDb(db, key)
  {
    assert PartlyReset(db, key, {}).details[key] == RecreatedDb(db, key).details[key];
  }

  /** What tracking the jobs `ks` one by one tracks. */
  ghost function TracksOf(db: Database, ks: set<JobKey>): set<JobKey> {
    ks + set u | u in db.jobs && LiveUpload(db, u) && exists k :: k in ks && k.typ.Download? && k.pid == u.pid
  }

  lemma TracksOfNone(db: Database)
    ensures TracksOf(db, {}) == {}
  {
  }

  lemma TracksOfMore(db: Database, ks: set<JobKey>, k: JobKey)
    ensures WithTrack(db, TracksOf(db, ks), k) == TracksOf(db, ks + {k})
  {
  }

  lemma UnfinishedKeys(db: Database, ks: set<JobKey>)
    requires ks == set k | k in db.jobs && k in db.details && !db.jobs[k].softDel && UnfinishedFids(db.details[k]) != {}
    ensures forall k :: k in ks <==> UnfinishedJob(db, k)
  {
    forall k | k in db.details
      ensures UnfinishedFids(db.details[k]) != {} <==> !AllDone(db.details[k])
    {
      JobCounter.CountZero(db.details[k]);
    }
  }

  lemma TracksOfAll(db: Database, ks: set<JobKey>)
    requires forall k :: k in ks <==> UnfinishedJob(db, k)
    ensures TracksOf(db, ks) == Recomputed(db)
  {
    forall u
      ensures u in TracksOf(db, ks) <==> u in Recomputed(db)
    {
      if k :| k in ks && k.typ.Download? && k.pid == u.pid {
        assert UnfinishedJob(db, JobKey(k.uid, u.pid, Download));
      }
      if HasUnfinishedDownload(db, u.pid) {
        var uid :| UnfinishedJob(db, JobKey(uid, u.pid, Download));
        assert JobKey(uid, u.pid, Download) in ks;
      }
    }
  }

  // ---------------------------------------------------------------- counts and deletions

  /** The recorded jobs of a type in the packages not in `left`. */
  ghost function CountIn(pkgs: Index, left: set<string>, typ: JobType): nat {
    |set k | k in OfType(TrackedBy(pkgs), typ) && k.pid !in left|
  }

  lemma NoPkgs(pkgs: Index)
    ensures forall typ :: CountIn(pkgs, pkgs.Keys, typ) == 0
  {
    forall typ
      ensures CountIn(pkgs, pkgs.Keys, typ) == 0
    {
      assert (set k | k in OfType(TrackedBy(pkgs), typ) && k.pid !in pkgs.Keys) == {};
    }
  }

  /** The jobs in `all` of packages outside `left`, once package `pid` is taken out of `left`. */
  lemma SplitOff(all: set<JobKey>, left: set<string>, pid: string)
    requires pid in left
    ensures |set k | k in all && k.pid !in left - {pid}|
         == |set k | k in all && k.pid !in left| + |set k | k in all && k.pid == pid|
  {
    var rest, these := set k | k in all && k.pid !in left, set k | k in all && k.pid == pid;
    assert (set k | k in all && k.pid !in left - {pid}) == rest + these;
  }

  lemma PkgJobs(pkgs: Index, pid: string, typ: JobType)
    requires pid in pkgs
    ensures |set k | k in OfType(TrackedBy(pkgs), typ) && k.pid == pid| == |pkgs[pid].Of(typ)|
  {
    RenamedCount(pid, typ, pkgs[pid].Of(typ));
    forall k
      ensures k in (set uid | uid in pkgs[pid].Of(typ) :: JobKey(uid, pid, typ))
         <==> k in OfType(TrackedBy(pkgs), typ) && k.pid == pid
    {
      TrackedByHolds(pkgs, k);
    }
    assert (set k | k in OfType(TrackedBy(pkgs), typ) && k.pid == pid)
        == (set uid | uid in pkgs[pid].Of(typ) :: JobKey(uid, pid, typ));
  }

  lemma OneMorePkg(pkgs: Index, left: set<string>, pid: string, typ: JobType)
    requires pid in pkgs && pid in left
    ensures CountIn(pkgs, left - {pid}, typ) == CountIn(pkgs, left, typ) + |pkgs[pid].Of(typ)|
  {
    hide TrackedBy, OfType;
    SplitOff(OfType(TrackedBy(pkgs), typ), left, pid);
    PkgJobs(pkgs, pid, typ);
  }

  lemma AllPkgs(pkgs: Index, typ: JobType)
    ensures CountIn(pkgs, {}, typ) == |OfType(TrackedBy(pkgs), typ)|
  {
    var none: set<string> := {};
    assert (set k | k in OfType(TrackedBy(pkgs), typ) && k.pid !in none) == OfType(TrackedBy(pkgs), typ);
  }

  /** A track from which all names of one type but those in `left` were taken. */
  function Kept(track: Track, typ: JobType, left: set<string>): Track {
    if typ.Upload? then track.(uploads := left) else track.(downloads := left)
  }

  lemma DeletesOf(deletes: Index, uid: string, typ: JobType)
    ensures (set k | k in RecordedBy(deletes) && k.uid == uid && k.typ == typ :: k.pid)
         == if uid in deletes then deletes[uid].Of(typ) else {}
  {
    forall pid
      ensures pid in (set k | k in RecordedBy(deletes) && k.uid == uid && k.typ == typ :: k.pid)
         <==> uid in deletes && pid in deletes[uid].Of(typ)
    {
      RecordedByHolds(deletes, JobKey(uid, pid, typ));
    }
  }

  lemma DeletesNone(deletes: Index, uid: string, typ: JobType)
    requires uid !in deletes
    ensures (set k | k in RecordedBy(deletes) && !(k.uid == uid && k.typ == typ)) == RecordedBy(deletes)
  {
  }

  lemma DeletesKept(deletes: Index, uid: string, typ: JobType, track: Track, remove: bool)
    requires uid in deletes && track == if remove then Kept(deletes[uid], typ, {}) else deletes[uid]
    ensures var after := if track.Empty() then deletes - {uid} else deletes[uid := track];
      RecordedBy(after) == if remove
        then set k | k in RecordedBy(deletes) && !(k.uid == uid && k.typ == typ)
        else RecordedBy(deletes)
  {
    var after := if track.Empty() then deletes - {uid} else deletes[uid := track];
    forall k
      ensures k in RecordedBy(after) <==> k in RecordedBy(deletes) && !(remove && k.uid == uid && k.typ == typ)
    {
      RecordedByHolds(after, k);
      RecordedByHolds(deletes, k);
    }
  }

  lemma ReportingLoaded(s: State, k: JobKey, fid: string, sid: string, segState: TransferState, reported: nat)
    requires HasDetail(s.db, k, fid)
    ensures Reporting(Load(s, k), k, fid, sid, segState, reported) == Reporting(s, k, fid, sid, segState, reported)
  {
    JobCounter.CountZero(s.db.details[k]);
  }

  lemma ClaimingSteps(s: State, k: JobKey, fid: string)
    requires Load(s, k) == s && (k in s.cache ==> k in s.db.jobs)
    ensures Claiming(s, k, fid) == Decremented(
      if HasDetail(s.db, k, fid)
      then s.(db := SaveDetail(s.db, k, fid, Detail(Done, true, s.db.files[fid].size, s.db.files[fid].numSegs)))
      else s, k)
    ensures k !in s.db.jobs ==> Claiming(s, k, fid) == s
  {
  }

  lemma ClaimingLoaded(s: State, k: JobKey, fid: string)
    ensures Claiming(Load(s, k), k, fid) == Claiming(s, k, fid)
  {
    if k in s.db.details { JobCounter.CountZero(s.db.details[k]); }
  }

  lemma SavedSame(db: Database, k: JobKey, fid: string)
    requires k in db.details && fid in db.details[k]
    ensures SaveDetail(db, k, fid, db.details[k][fid]) == db
  {
    assert db.details[k][fid := db.details[k][fid]] == db.details[k];
    assert db.details[k := db.details[k]] == db.details;
  }

  lemma DownloadersOf(pkgs: Index, pid: string)
    ensures TrackedUsers(TrackedBy(pkgs), pid, Download) == if pid in pkgs then pkgs[pid].downloads else {}
  {
    forall uid
      ensures uid in TrackedUsers(TrackedBy(pkgs), pid, Download) <==> pid in pkgs && uid in pkgs[pid].downloads
    {
      TrackedByHolds(pkgs, JobKey(uid, pid, Download));
      assert uid in TrackedUsers(TrackedBy(pkgs), pid, Download) <==> JobKey(uid, pid, Download) in TrackedBy(pkgs);
    }
  }

  // ---------------------------------------------------------------- orders and cascades

  lemma UploadersOf(pkgs: Index, pid: string)
    ensures TrackedUsers(TrackedBy(pkgs), pid, Upload) == if pid in pkgs then pkgs[pid].uploads else {}
  {
    forall uid
      ensures uid in TrackedUsers(TrackedBy(pkgs), pid, Upload) <==> pid in pkgs && uid in pkgs[pid].uploads
    {
      TrackedByHolds(pkgs, JobKey(uid, pid, Upload));
      assert uid in TrackedUsers(TrackedBy(pkgs), pid, Upload) <==> JobKey(uid, pid, Upload) in TrackedBy(pkgs);
    }
  }

  lemma EnumeratesSnoc(order: seq<string>, users: set<string>, u: string)
    requires Enumerates(order, users) && u !in users
    ensures Enumerates(order + [u], users + {u})
  {
  }

  /** Any set can be listed. */
  lemma SomeOrder(users: set<string>) returns (order: seq<string>)
    ensures Enumerates(order, users)
  {
    if users == {} {
      order := [];
    } else {
      var u :| u in users;
      order := SomeOrder(users - {u});
      EnumeratesSnoc(order, users - {u}, u);
      assert users - {u} + {u} == users;
      order := order + [u];
    }
  }

  lemma EnumeratesBoth(order: seq<string>, users: set<string>, rest: seq<string>, others: set<string>)
    requires Enumerates(order, users) && Enumerates(rest, others) && users !! others
    ensures Enumerates(order + rest, users + others)
  {
    var all := order + rest;
    forall i, j | 0 <= i < j < |all|
      ensures all[i] != all[j]
    {
      if i < |order| <= j {
        assert all[i] == order[i] && order[i] in users;
        assert all[j] == rest[j - |order|] && rest[j - |order|] in others;
      }
    }
  }

  /** Having visited the users in `visited` from `s0`, in the order `order`, the cascade goes
      on from `s`. */
  ghost predicate Visiting(s0: State, s: State, pid: string, order: seq<string>, visited: set<string>) {
    Enumerates(order, visited) && forall rest :: Cascade(s0, pid, order + rest) == Cascade(s, pid, rest)
  }

  lemma CascadeStart(s: State, pid: string)
    ensures Visiting(s, s, pid, [], {})
  {
    hide Cascade;
    forall rest
      ensures Cascade(s, pid, [] + rest) == Cascade(s, pid, rest)
    {
      assert [] + rest == rest;
    }
  }

  lemma CascadeGoesOn(s0: State, s: State, pid: string, order: seq<string>, visited: set<string>, uid: string)
    requires Visiting(s0, s, pid, order, visited) && uid !in visited
    requires var u := JobKey(uid, pid, Upload); u !in s.db.jobs || LooksFinished(Load(s, u), u)
    ensures var u := JobKey(uid, pid, Upload);
      Visiting(s0, Load(s, u).(tracks := s.tracks - {u}), pid, order + [uid], visited + {uid})
  {
    var s1 := Load(s, JobKey(uid, pid, Upload));
    EnumeratesSnoc(order, visited, uid);
    forall rest
      ensures Cascade(s0, pid, order + [uid] + rest)
           == Cascade(s1.(tracks := s1.tracks - {JobKey(uid, pid, Upload)}), pid, rest)
    {
      assert order + [uid] + rest == order + ([uid] + rest);
      assert ([uid] + rest)[1..] == rest;
    }
  }

  /** The cascade stops at `uid`; any order of the users left completes the list. */
  lemma CascadeStops(s0: State, s: State, pid: string, order: seq<string>, visited: set<string>, uid: string,
                     left: set<string>) returns (whole: seq<string>)
    requires Visiting(s0, s, pid, order, visited) && uid !in visited && left !! visited + {uid}
    requires var u := JobKey(uid, pid, Upload); u in s.db.jobs && !LooksFinished(Load(s, u), u)
    ensures Enumerates(whole, visited + {uid} + left)
    ensures Cascade(s0, pid, whole) == Load(s, JobKey(uid, pid, Upload))
  {
    var rest := SomeOrder(left);
    whole := order + [uid] + rest;
    EnumeratesSnoc(order, visited, uid);
    EnumeratesBoth(order + [uid], visited + {uid}, rest, left);
    assert whole == order + ([uid] + rest);
  }

  lemma CascadeEnds(s0: State, s: State, pid: string, order: seq<string>, visited: set<string>)
    requires Visiting(s0, s, pid, order, visited)
    ensures Cascade(s0, pid, order) == s && Enumerates(order, visited)
  {
    assert order + [] == order;
  }
}
