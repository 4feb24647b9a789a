/** How much of a package was uploaded is never more than the package holds, so the size
    left to upload is a true difference. */
module JobSizes {
  import opened Jobs
  import opened JobTables

  /** The recorded progress of an upload is within its file. */
  ghost predicate Within(db: Database, k: JobKey, f: string) {
    k in db.jobs && k.typ.Upload? && k in db.details && f in db.details[k] && f in db.files ==>
      && db.details[k][f].finishedSize <= db.files[f].size
      && 0 <= db.details[k][f].numFinishedSegs <= db.files[f].numSegs
      && db.files[f].size < U64 && db.files[f].numSegs < MAX_INT64
  }

  ghost predicate AllWithin(db: Database) {
    && (forall k, f :: Within(db, k, f))
    && (forall f :: f in db.files ==> db.files[f].size < U64 && db.files[f].numSegs < MAX_INT64)
  }

  lemma ReportedWithin(d: Detail, file: File, t: TransferState, bytes: nat)
    requires d.finishedSize <= file.size && 0 <= d.numFinishedSegs <= file.numSegs < MAX_INT64
    ensures var r := Reported(d, file, t, bytes);
      r.finishedSize <= file.size && 0 <= r.numFinishedSegs <= file.numSegs
  {
  }

  /** Only detail `fid` of job `k` changed, and stayed within its file if `k` is an upload. */
  lemma OneDetailWithin(db: Database, db': Database, k: JobKey, fid: string, d: Detail)
    requires AllWithin(db) && HasDetail(db, k, fid)
    requires db'.files == db.files && db'.jobs.Keys == db.jobs.Keys
    requires db'.details == db.details[k := db.details[k][fid := d]]
    requires k.typ.Upload? ==> d.finishedSize <= db.files[fid].size && 0 <= d.numFinishedSegs <= db.files[fid].numSegs
    ensures AllWithin(db')
  {
    forall j, f
      ensures Within(db', j, f)
    {
      assert Within(db, j, f);
    }
  }

  lemma NotifyWithin(s: State, k: JobKey, fid: string, sid: string, t: TransferState, reported: nat, order: seq<string>)
    requires AllWithin(s.db)
    ensures AllWithin(Notify(s, k, fid, sid, t, reported, order).db)
  {
    if sid != "" && HasDetail(s.db, k, fid) {
      var d := Reported(s.db.details[k][fid], s.db.files[fid], t, SegBytes(s.db, sid, reported));
      assert Within(s.db, k, fid);
      if k.typ.Upload? { ReportedWithin(s.db.details[k][fid], s.db.files[fid], t, SegBytes(s.db, sid, reported)); }
      var r := Reporting(s, k, fid, sid, t, reported);
      OneDetailWithin(s.db, r.db, k, fid, d);
      ProcessWithin(r, k, order);
    }
  }

  lemma ProcessWithin(s: State, k: JobKey, order: seq<string>)
    requires AllWithin(s.db)
    ensures AllWithin(ProcessJob(s, k, order).db)
  {
    var r := ProcessJob(s, k, order);
    forall j, f
      ensures Within(r.db, j, f)
    {
      assert Within(s.db, j, f);
    }
  }

  lemma EmptySegsWithin(s: State, k: JobKey, fid: string, order: seq<string>)
    requires AllWithin(s.db) && k.typ.Download?
    ensures AllWithin(EmptySegs(s, k, fid, order).db)
  {
    if HasDetail(s.db, k, fid) {
      OneDetailWithin(s.db, Claiming(s, k, fid).db, k, fid,
        Detail(Done, true, s.db.files[fid].size, s.db.files[fid].numSegs));
    }
    ProcessWithin(Claiming(s, k, fid), k, order);
  }

  lemma AddTaskWithin(s: State, k: JobKey, fid: string, numSegs: nat)
    requires AllWithin(s.db)
    ensures AllWithin(AddTask(s, k, fid, numSegs).db)
  {
    if HasDetail(s.db, k, fid) {
      assert Within(s.db, k, fid);
      OneDetailWithin(s.db, AddTask(s, k, fid, numSegs).db, k, fid,
        TaskedDetail(s.db.details[k][fid], s.db.files[fid], numSegs));
    }
  }

  lemma DelTaskWithin(s: State, k: JobKey, fid: string, t: TransferState)
    requires AllWithin(s.db)
    ensures AllWithin(DelTask(s, k, fid, t).db)
  {
    if HasDetail(s.db, k, fid) {
      assert Within(s.db, k, fid);
      OneDetailWithin(s.db, DelTask(s, k, fid, t).db, k, fid, UntaskedDetail(s.db.details[k][fid], t));
    }
  }

  lemma ProgressWithin(s: State, k: JobKey, fid: string, size: nat, n: int)
    requires AllWithin(s.db) && k.typ.Download?
    ensures AllWithin(Progress(s, k, fid, size, n).db)
  {
    if HasDetail(s.db, k, fid) {
      OneDetailWithin(s.db, Progress(s, k, fid, size, n).db, k, fid,
        s.db.details[k][fid].(finishedSize := size, numFinishedSegs := n));
    }
  }

  lemma CreateWithin(s: State, k: JobKey)
    requires AllWithin(s.db)
    ensures AllWithin(CreateJob(s, k).db)
  {
    forall j, f
      ensures Within(CreateJob(s, k).db, j, f)
    {
      assert Within(s.db, j, f);
    }
  }

  lemma NewPkgWithin(s: State, e: Event)
    requires AllWithin(s.db) && WellFormed(s.db) && e.NewPkgE? && Possible(s, e)
    ensures AllWithin(Step(s, e).db)
  {
    forall j, f
      ensures Within(Step(s, e).db, j, f)
    {
      assert Within(s.db, j, f);
      if j in s.db.jobs {
        assert JobFits(s.db, j) && PkgFits(s.db, j.pid);
      }
    }
  }

  lemma FewerWithin(db: Database, db': Database)
    requires AllWithin(db) && db'.files == db.files
    requires db'.jobs.Keys <= db.jobs.Keys && db'.details.Keys <= db.details.Keys
    requires forall k :: k in db'.details ==> db'.details[k] == db.details[k]
    ensures AllWithin(db')
  {
    forall j, f
      ensures Within(db', j, f)
    {
      assert Within(db, j, f);
    }
  }

  lemma RestartWithin(s: State)
    requires AllWithin(s.db)
    ensures AllWithin(Restart(s).db)
  {
    forall j, f
      ensures Within(Restart(s).db, j, f)
    {
      assert Within(s.db, j, f);
    }
  }

  lemma StepWithin(s: State, e: Event)
    requires AllWithin(s.db) && WellFormed(s.db) && Possible(s, e)
    ensures AllWithin(Step(s, e).db)
  {
    match e
    case NotifyE(k, fid, sid, t, reported, order) => NotifyWithin(s, k, fid, sid, t, reported, order);
    case EmptySegsE(k, fid, order) => EmptySegsWithin(s, k, fid, order);
    case AddTaskE(k, fid, numSegs) => AddTaskWithin(s, k, fid, numSegs);
    case DelTaskE(k, fid, t) => DelTaskWithin(s, k, fid, t);
    case ProgressE(k, fid, size, n) => ProgressWithin(s, k, fid, size, n);
    case CreateE(k) => CreateWithin(s, k);
    case NewPkgE(_, _, _, _) => NewPkgWithin(s, e);
    case DeleteE(k, order) => FewerWithin(s.db, Step(s, e).db);
    case DeletePkgE(k, plan, order) =>
      KeysMatch(s.db);
      DeleteDownloadsTables(SoftDeleted(s, k), k.pid, plan);
      FewerWithin(s.db, Step(s, e).db);
    case RestartE => RestartWithin(s);
    case GetJobE(_) =>
    case EnableE(_) =>
    case FetchDeletesE(_, _, _) =>
  }

  lemma {:induction false} RunWithin(es: seq<Event>)
    requires PossibleRun(es)
    ensures AllWithin(Run(es).db)
  {
    if es != [] {
      RunWithin(es[..|es| - 1]);
      RunKeepsTables(es[..|es| - 1]);
      StepWithin(Run(es[..|es| - 1]), es[|es| - 1]);
    }
  }

  // ---------------------------------------------------------------- sums

  /** What of the given files job `k` has transferred: the DONE ones count. */
  ghost function TransferredOf(db: Database, k: JobKey, fids: seq<string>): nat
    requires k in db.details
  {
    if fids == [] then 0
    else TransferredOf(db, k, fids[..|fids| - 1]) +
         (var f := fids[|fids| - 1];
          if f in db.details[k] && db.details[k][f].state.Done? then db.details[k][f].finishedSize else 0)
  }

  /** What of the given files job `k` has not finished. */
  ghost function OpenOf(db: Database, k: JobKey, fids: seq<string>): nat
    requires k in db.details
  {
    if fids == [] then 0
    else OpenOf(db, k, fids[..|fids| - 1]) +
         (var f := fids[|fids| - 1];
          if f in db.details[k] && !db.details[k][f].state.Done? && f in db.files then db.files[f].size else 0)
  }

  lemma {:induction false} SumsWithin(db: Database, k: JobKey, fids: seq<string>)
    requires AllWithin(db) && k in db.jobs && k.typ.Upload? && k in db.details
    requires forall f :: f in fids ==> f in db.details[k] && f in db.files
    ensures TransferredOf(db, k, fids) + OpenOf(db, k, fids) <= SizeOf(db.files, fids)
  {
    if fids != [] {
      var f := fids[|fids| - 1];
      assert f in fids;
      assert Within(db, k, f);
      SumsWithin(db, k, fids[..|fids| - 1]);
    }
  }

  /** In every reachable state, what an upload has transferred and what it has still open fit
      into the files of its package together. */
  lemma TransferredFits(es: seq<Event>, k: JobKey)
    requires PossibleRun(es) && k in Run(es).db.jobs && k.typ.Upload?
    ensures var db := Run(es).db;
      && k.pid in db.pkgs && k in db.details
      && TransferredOf(db, k, db.pkgs[k.pid]) + OpenOf(db, k, db.pkgs[k.pid]) <= SizeOf(db.files, db.pkgs[k.pid])
  {
    var db := Run(es).db;
    RunWithin(es);
    RunKeepsTables(es);
    assert JobFits(db, k) && PkgFits(db, k.pid);
    SumsWithin(db, k, db.pkgs[k.pid]);
  }

  // ---------------------------------------------------------------- the stored size

  /** The size stored with each package is that of its files, in 64 bits. */
  ghost predicate SizesStored(db: Database) {
    forall pid :: pid in db.pkgs ==> pid in db.sizes && db.sizes[pid] == SizeOf(db.files, db.pkgs[pid]) % U64
  }

  lemma {:induction false} SameSizeOf(files: map<string, File>, files': map<string, File>, fids: seq<string>)
    requires forall f :: f in fids ==> f in files && f in files' && files[f].size == files'[f].size
    ensures SizeOf(files, fids) == SizeOf(files', fids)
  {
    if fids != [] {
      assert fids[|fids| - 1] in fids;
      SameSizeOf(files, files', fids[..|fids| - 1]);
    }
  }

  lemma NewPkgStored(s: State, e: Event)
    requires SizesStored(s.db) && WellFormed(s.db) && e.NewPkgE? && Possible(s, e)
    ensures SizesStored(Step(s, e).db)
  {
    var db := Step(s, e).db;
    forall pid | pid in db.pkgs
      ensures pid in db.sizes && db.sizes[pid] == SizeOf(db.files, db.pkgs[pid]) % U64
    {
      if pid == e.pid {
        SameSizeOf(e.files, db.files, e.fids);
      } else {
        assert PkgFits(s.db, pid);
        SameSizeOf(s.db.files, db.files, s.db.pkgs[pid]);
      }
    }
  }

  lemma {:induction false} RunStored(es: seq<Event>)
    requires PossibleRun(es)
    ensures SizesStored(Run(es).db)
  {
    if es != [] {
      var before, e := Run(es[..|es| - 1]), es[|es| - 1];
      RunStored(es[..|es| - 1]);
      RunKeepsTables(es[..|es| - 1]);
      KeysMatch(before.db);
      if e.NewPkgE? {
        NewPkgStored(before, e);
      } else {
        StepPkgs(before, e);
      }
    }
  }

  /** The size left of a package, as an upload request computes it: the difference of the stored
      size and of what was transferred, all in 64 bits. */
  ghost function LeftSize(db: Database, k: JobKey): nat
    requires k in db.details && k.pid in db.pkgs && k.pid in db.sizes
  {
    (db.sizes[k.pid] - TransferredOf(db, k, db.pkgs[k.pid]) % U64) % U64
  }

  lemma WrappedDifference(a: nat, b: nat)
    requires b <= a
    ensures (a % U64 - b % U64) % U64 == (a - b) % U64
  {
    var q, r := a / U64, b / U64;
    assert a % U64 - b % U64 == (a - b) - U64 * (q - r);
    ModPlus(a - b, r - q);
  }

  lemma ModPlus(x: int, m: int)
    ensures (x + U64 * m) % U64 == x % U64
  {
  }

  /** In every reachable state the size left that an upload request computes is the true one, and
      covers everything still open, if and only if less than 2^64 bytes are left. */
  lemma LeftSizeExactly(es: seq<Event>, k: JobKey)
    requires PossibleRun(es) && k in Run(es).db.jobs && k.typ.Upload?
    ensures var db := Run(es).db;
      && k.pid in db.pkgs && k in db.details && k.pid in db.sizes
      && var left := SizeOf(db.files, db.pkgs[k.pid]) - TransferredOf(db, k, db.pkgs[k.pid]);
         && OpenOf(db, k, db.pkgs[k.pid]) <= left
         && (LeftSize(db, k) == left <==> left < U64)
  {
    TransferredFits(es, k);
    RunStored(es);
    hide TransferredOf, OpenOf, SizeOf, LeftSize, Run;
    var db := Run(es).db;
    assert k.pid in db.sizes && db.sizes[k.pid] == SizeOf(db.files, db.pkgs[k.pid]) % U64;
    LeftOf(db, k, SizeOf(db.files, db.pkgs[k.pid]), TransferredOf(db, k, db.pkgs[k.pid]));
  }

  lemma LeftOf(db: Database, k: JobKey, size: nat, transferred: nat)
    requires k in db.details && k.pid in db.pkgs && k.pid in db.sizes
    requires db.sizes[k.pid] == size % U64 && transferred == TransferredOf(db, k, db.pkgs[k.pid]) <= size
    ensures LeftSize(db, k) == size - transferred <==> size - transferred < U64
  {
    hide TransferredOf;
    WrappedDifference(size, transferred);
    SmallMod(size - transferred);
  }

  lemma SmallMod(x: nat)
    ensures x % U64 == x <==> x < U64
  {
  }
}
