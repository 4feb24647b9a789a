/** The running counter of a cached job against the true number of its unfinished
    details: the counter is never too high, and it is too low by exactly the number of
    events that hit a detail already DONE. */
module JobCounter {
  import opened Jobs

  /** Does the event write to a detail of the unfinished job `k` that is already DONE (or,
      for a request without segments, to no detail at all)? */
  ghost predicate Hit(s: State, e: Event, k: JobKey) {
    && k in s.db.jobs && k in s.db.details && !AllDone(s.db.details[k])
    && match e
       case NotifyE(k', fid, sid, _, _, _) =>
         k' == k && sid != "" && HasDetail(s.db, k, fid) && s.db.details[k][fid].state.Done?
       case EmptySegsE(k', fid, _) =>
         k' == k && (HasDetail(s.db, k, fid) ==> s.db.details[k][fid].state.Done?)
       case AddTaskE(k', fid, numSegs) =>
         && k' == k && HasDetail(s.db, k, fid) && s.db.details[k][fid].state.Done?
         && s.db.files[fid].size > 0 && Restarts(s.db.details[k][fid], s.db.files[fid], numSegs)
       case _ => false
  }

  /** The hits on job `k` since it was last taken into the cache. */
  ghost function Hits(es: seq<Event>, k: JobKey): nat {
    if es == [] then 0 else
    var before, e := es[..|es| - 1], es[|es| - 1];
    (if k in Run(before).cache then Hits(before, k) else 0) + (if Hit(Run(before), e, k) then 1 else 0)
  }

  // ---------------------------------------------------------------- counting

  lemma CountZero(ds: map<string, Detail>)
    ensures CountUnfinished(ds) == 0 <==> AllDone(ds)
  {
    if AllDone(ds) {
      assert UnfinishedFids(ds) == {};
    } else {
      var f :| f in ds && !ds[f].state.Done?;
      assert f in UnfinishedFids(ds);
    }
  }

  lemma CountSave(ds: map<string, Detail>, f: string, d: Detail)
    requires f in ds
    ensures CountUnfinished(ds[f := d])
         == CountUnfinished(ds) - (if ds[f].state.Done? then 0 else 1) + (if d.state.Done? then 0 else 1)
  {
    var others := UnfinishedFids(ds) - {f};
    assert UnfinishedFids(ds) == others + (if ds[f].state.Done? then {} else {f});
    assert UnfinishedFids(ds[f := d]) == others + (if d.state.Done? then {} else {f});
  }

  // ---------------------------------------------------------------- one event, one job

  /** True count minus counter; 0 for a job that is not cached. */
  ghost function Drift(s: State, j: JobKey): int {
    if j in s.cache && j in s.db.details then CountUnfinished(s.db.details[j]) - s.cache[j] else 0
  }

  /** A cached job exists; its counter is positive, and not above the true count. */
  ghost predicate Counted(s: State, j: JobKey) {
    j in s.cache ==>
      j in s.db.jobs && j in s.db.details && 1 <= s.cache[j] <= CountUnfinished(s.db.details[j])
  }

  /** What a step from `s` to `r` does to job `j` when it adds `hits` to the drift. */
  ghost predicate Drifts(s: State, r: State, j: JobKey, hits: nat) {
    Counted(r, j) && (j in r.cache ==> Drift(r, j) == Drift(s, j) + hits)
  }

  lemma LoadDrifts(s: State, k: JobKey, j: JobKey)
    requires Counted(s, j)
    ensures Drifts(s, Load(s, k), j, 0)
    ensures j in s.cache ==> j in Load(s, k).cache
  {
    if k in s.db.details { CountZero(s.db.details[k]); }
  }

  lemma {:induction false} CascadeDrifts(s: State, pid: string, order: seq<string>, j: JobKey)
    requires Counted(s, j)
    ensures var r := Cascade(s, pid, order);
      && Drifts(s, r, j, 0)
      && (j in s.cache ==> j in r.cache)
      && (j in r.cache && j !in s.cache ==> j.typ.Upload? && j.pid == pid && j.uid in order)
    decreases |order|
  {
    if order != [] {
      var u := JobKey(order[0], pid, Upload);
      var s1 := Load(s, u);
      LoadDrifts(s, u, j);
      if !(u in s.db.jobs && !LooksFinished(s1, u)) {
        CascadeDrifts(s1.(tracks := s1.tracks - {u}), pid, order[1..], j);
      }
    }
  }

  lemma DelTrackDrifts(s: State, k: JobKey, order: seq<string>, j: JobKey)
    requires Counted(s, j) && OrderFits(s, k, order)
    ensures var r := DelTrack(s, k, order);
      && Drifts(s, r, j, 0)
      && (j in s.cache ==> j in r.cache)
      && (j in r.cache && j !in s.cache ==> j != k && j.typ.Upload?)
  {
    CascadeDrifts(s.(tracks := s.tracks - {k}), k.pid, order, j);
  }

  lemma ProcessDrifts(s: State, k: JobKey, order: seq<string>, j: JobKey)
    requires OrderFits(s, k, order)
    requires j in s.cache ==>
      && j in s.db.jobs && j in s.db.details && s.cache[j] <= CountUnfinished(s.db.details[j])
      && (j != k ==> s.cache[j] >= 1)
    ensures Drifts(s, ProcessJob(s, k, order), j, 0)
  {
    var s1 := Load(s, k);
    if k in s.db.details { CountZero(s.db.details[k]); }
    if k in s1.db.jobs && LooksFinished(s1, k) {
      DelTrackDrifts(Retired(s1, k), k, order, j);
    }
  }

  lemma DeleteDrifts(s: State, k: JobKey, order: seq<string>, j: JobKey)
    requires Counted(s, j) && OrderFits(s, k, order)
    ensures var r := DeleteJob(s, k, order);
      && Drifts(s, r, j, 0)
      && (j in s.cache && j !in r.cache ==> j == k)
      && (j in r.cache && j !in s.cache ==> j.typ.Upload?)
  {
    if k in s.db.jobs {
      var s1 := s.(db := s.db.(jobs := s.db.jobs - {k}, details := s.db.details - {k}));
      if j != k {
        DelTrackDrifts(s1, k, order, j);
      }
    }
  }

  lemma {:induction false} DeleteDownloadsDrifts(s: State, pid: string, plan: seq<Deletion>, j: JobKey)
    requires Counted(s, j) && PlanFits(s, pid, plan)
    ensures var r := DeleteDownloads(s, pid, plan);
      && Drifts(s, r, j, 0)
      && (j in s.cache && j !in r.cache ==> j.typ.Download?)
      && (j in r.cache && j !in s.cache ==> j.typ.Upload?)
    decreases |plan|
  {
    if plan != [] {
      var k := JobKey(plan[0].uid, pid, Download);
      DeleteDrifts(s, k, plan[0].order, j);
      DeleteDownloadsDrifts(DeleteJob(s, k, plan[0].order), pid, plan[1..], j);
    }
  }

  lemma DeletePkgDrifts(s: State, k: JobKey, plan: seq<Deletion>, order: seq<string>, j: JobKey)
    requires Counted(s, j) && Possible(s, DeletePkgE(k, plan, order))
    ensures Drifts(s, DeletePkg(s, k, plan, order), j, 0)
  {
    var s1 := SoftDeleted(s, k);
    DeleteDownloadsDrifts(s1, k.pid, plan, j);
    DelTrackDrifts(DeleteDownloads(s1, k.pid, plan), k, order, j);
  }

  /** The loaded state after detail `fid` of job `k` was stored as `d`, and counted if it
      is DONE; the rest of the database may differ in what drifts do not depend on. */
  ghost predicate Written(s: State, r: State, k: JobKey, fid: string, d: Detail) {
    && k in s.db.jobs && k in s.db.details && fid in s.db.details[k]
    && r.db.jobs == s.db.jobs && r.db.details == s.db.details[k := s.db.details[k][fid := d]]
    && r.tracks == s.tracks
    && r.cache == (if d.state.Done? then Decremented(s, k).cache else s.cache)
  }

  lemma WrittenDrifts(s: State, r: State, k: JobKey, fid: string, d: Detail, order: seq<string>, j: JobKey)
    requires Counted(s, j) && Counted(s, k) && OrderFits(s, k, order)
    requires Written(Load(s, k), r, k, fid, d)
    ensures Drifts(s, ProcessJob(r, k, order), j,
              if j == k && !AllDone(s.db.details[k]) && s.db.details[k][fid].state.Done? then 1 else 0)
  {
    LoadDrifts(s, k, j);
    LoadDrifts(s, k, k);
    CountZero(s.db.details[k]);
    CountSave(s.db.details[k], fid, d);
    ProcessDrifts(r, k, order, j);
  }

  lemma ReportingWrites(s: State, k: JobKey, fid: string, sid: string, t: TransferState, reported: nat)
    requires HasDetail(s.db, k, fid)
    ensures var d := Reported(s.db.details[k][fid], s.db.files[fid], t, SegBytes(s.db, sid, reported));
      Written(Load(s, k), Reporting(s, k, fid, sid, t, reported), k, fid, d)
  {
  }

  lemma NotifyDrifts(s: State, k: JobKey, fid: string, sid: string, t: TransferState, reported: nat,
                     order: seq<string>, j: JobKey)
    requires Counted(s, j) && Counted(s, k) && OrderFits(s, k, order)
    ensures Drifts(s, Notify(s, k, fid, sid, t, reported, order), j,
              if Hit(s, NotifyE(k, fid, sid, t, reported, order), j) then 1 else 0)
  {
    hide Reporting, Reported, ProcessJob;
    LoadDrifts(s, k, j);
    if sid != "" && HasDetail(s.db, k, fid) {
      var d := Reported(s.db.details[k][fid], s.db.files[fid], t, SegBytes(s.db, sid, reported));
      ReportingWrites(s, k, fid, sid, t, reported);
      WrittenDrifts(s, Reporting(s, k, fid, sid, t, reported), k, fid, d, order, j);
    }
  }

  lemma EmptySegsDrifts(s: State, k: JobKey, fid: string, order: seq<string>, j: JobKey)
    requires Counted(s, j) && Counted(s, k) && OrderFits(s, k, order)
    ensures Drifts(s, EmptySegs(s, k, fid, order), j, if Hit(s, EmptySegsE(k, fid, order), j) then 1 else 0)
  {
    if HasDetail(s.db, k, fid) {
      var d := Detail(Done, true, s.db.files[fid].size, s.db.files[fid].numSegs);
      WrittenDrifts(s, Claiming(s, k, fid), k, fid, d, order, j);
    } else {
      LoadDrifts(s, k, j);
      LoadDrifts(s, k, k);
      if k in s.db.details { CountZero(s.db.details[k]); }
      ProcessDrifts(Claiming(s, k, fid), k, order, j);
    }
  }

  /** Storing one detail that does not become DONE. */
  lemma SaveDrifts(s: State, k: JobKey, fid: string, d: Detail, j: JobKey)
    requires Counted(s, j) && k in s.db.details && fid in s.db.details[k]
    requires s.db.details[k][fid].state.Done? || !d.state.Done?
    ensures Drifts(s, s.(db := SaveDetail(s.db, k, fid, d)), j,
              if j == k && s.db.details[k][fid].state.Done? && !d.state.Done? then 1 else 0)
  {
    CountSave(s.db.details[k], fid, d);
  }

  lemma AddTaskDrifts(s: State, k: JobKey, fid: string, numSegs: nat, j: JobKey)
    requires Counted(s, j)
    ensures Drifts(s, AddTask(s, k, fid, numSegs), j, if Hit(s, AddTaskE(k, fid, numSegs), j) then 1 else 0)
  {
    LoadDrifts(s, k, j);
    var s1 := Load(s, k);
    if HasDetail(s1.db, k, fid) {
      if j == k { CountZero(s.db.details[k]); }
      SaveDrifts(s1, k, fid, TaskedDetail(s1.db.details[k][fid], s1.db.files[fid], numSegs), j);
    }
  }

  lemma DelTaskDrifts(s: State, k: JobKey, fid: string, t: TransferState, j: JobKey)
    requires Counted(s, j)
    ensures Drifts(s, DelTask(s, k, fid, t), j, 0)
  {
    LoadDrifts(s, k, j);
    var s1 := Load(s, k);
    if HasDetail(s1.db, k, fid) {
      SaveDrifts(s1, k, fid, UntaskedDetail(s1.db.details[k][fid], t), j);
    }
  }

  lemma ProgressDrifts(s: State, k: JobKey, fid: string, size: nat, n: int, j: JobKey)
    requires Counted(s, j)
    ensures Drifts(s, Progress(s, k, fid, size, n), j, 0)
  {
    LoadDrifts(s, k, j);
    var s1 := Load(s, k);
    if HasDetail(s1.db, k, fid) {
      SaveDrifts(s1, k, fid, s1.db.details[k][fid].(finishedSize := size, numFinishedSegs := n), j);
    }
  }

  lemma StepDrifts(s: State, e: Event, j: JobKey)
    requires Counted(s, j) && (e.NotifyE? || e.EmptySegsE? ==> Counted(s, e.key)) && Possible(s, e)
    ensures Drifts(s, Step(s, e), j, if Hit(s, e, j) then 1 else 0)
  {
    match e
    case NotifyE(k, fid, sid, t, reported, order) => NotifyDrifts(s, k, fid, sid, t, reported, order, j);
    case EmptySegsE(k, fid, order) => EmptySegsDrifts(s, k, fid, order, j);
    case DeleteE(k, order) => DeleteDrifts(s, k, order, j);
    case DeletePkgE(k, plan, order) => DeletePkgDrifts(s, k, plan, order, j);
    case AddTaskE(k, fid, numSegs) => AddTaskDrifts(s, k, fid, numSegs, j);
    case DelTaskE(k, fid, t) => DelTaskDrifts(s, k, fid, t, j);
    case ProgressE(k, fid, size, n) => ProgressDrifts(s, k, fid, size, n, j);
    case GetJobE(k) => LoadDrifts(s, k, j);
    case CreateE(_) =>
    case NewPkgE(_, _, _, _) =>
    case RestartE =>
    case EnableE(_) =>
    case FetchDeletesE(_, _, _) =>
  }

  // ---------------------------------------------------------------- all runs

  /** In every reachable state, the counter of a cached job plus the hits since it was
      cached is the true number of its unfinished details: the counter is exact if and
      only if there was no hit, and it is never too high. It is positive, so a job whose
      details are all DONE is not left waiting in the cache. */
  lemma {:induction false} CounterDrift(es: seq<Event>, k: JobKey)
    requires PossibleRun(es)
    ensures var s := Run(es); k in s.cache ==>
      && k in s.db.jobs && k in s.db.details && 1 <= s.cache[k]
      && s.cache[k] + Hits(es, k) == CountUnfinished(s.db.details[k])
    decreases |es|
  {
    if es != [] {
      var before, e := es[..|es| - 1], es[|es| - 1];
      CounterDrift(before, k);
      if e.NotifyE? || e.EmptySegsE? { CounterDrift(before, e.key); }
      StepDrifts(Run(before), e, k);
    }
  }

  /** Did the step count the job as finished? */
  ghost predicate Finishes(s: State, r: State, k: JobKey) {
    k in s.db.jobs && k in r.db.jobs && r.db.jobs[k].finishedTimes > s.db.jobs[k].finishedTimes
  }

  lemma WrittenFinishes(s: State, r: State, k: JobKey, fid: string, d: Detail, order: seq<string>)
    requires Counted(s, k) && Written(Load(s, k), r, k, fid, d) && !AllDone(s.db.details[k])
    ensures var hit := if s.db.details[k][fid].state.Done? then 1 else 0;
      var ds := ProcessJob(r, k, order).db.details;
      && k in ds
      && (Finishes(s, ProcessJob(r, k, order), k) <==> CountUnfinished(ds[k]) <= Drift(s, k) + hit)
  {
    CountSave(s.db.details[k], fid, d);
  }

  /** A request for a file that the job does not have is counted, though it stores nothing. */
  lemma MissingFinishes(s: State, k: JobKey, fid: string, order: seq<string>)
    requires Counted(s, k) && k in s.db.jobs && k in s.db.details && !AllDone(s.db.details[k])
    requires !HasDetail(s.db, k, fid)
    ensures var ds := EmptySegs(s, k, fid, order).db.details;
      && k in ds
      && (Finishes(s, EmptySegs(s, k, fid, order), k) <==> CountUnfinished(ds[k]) <= Drift(s, k) + 1)
  {
    CountZero(s.db.details[k]);
  }

  /** A report on a detail, or a request without segments, about an unfinished job. */
  ghost predicate Counting(s: State, e: Event) {
    && ((e.NotifyE? && e.sid != "" && HasDetail(s.db, e.key, e.fid)) || e.EmptySegsE?)
    && e.key in s.db.jobs && e.key in s.db.details && !AllDone(s.db.details[e.key])
  }

  lemma CountedFinishes(s: State, e: Event)
    requires Counting(s, e) && Counted(s, e.key)
    ensures e.key in Step(s, e).db.details
    ensures Finishes(s, Step(s, e), e.key) <==>
      CountUnfinished(Step(s, e).db.details[e.key]) <= Drift(s, e.key) + if Hit(s, e, e.key) then 1 else 0
  {
    var k := e.key;
    if !HasDetail(s.db, k, e.fid) {
      MissingFinishes(s, k, e.fid, e.order);
    } else if e.NotifyE? {
      var d := Reported(s.db.details[k][e.fid], s.db.files[e.fid], e.state, SegBytes(s.db, e.sid, e.reported));
      WrittenFinishes(s, Reporting(s, k, e.fid, e.sid, e.state, e.reported), k, e.fid, d, e.order);
    } else {
      var d := Detail(Done, true, s.db.files[e.fid].size, s.db.files[e.fid].numSegs);
      WrittenFinishes(s, Claiming(s, k, e.fid), k, e.fid, d, e.order);
    }
  }

  /** An unfinished job is finished by a report or a request on it if and only if the hits
      so far reach the number of its details still not DONE. Without hits that says: as
      soon as, and only when, all of them are DONE. */
  lemma FinishedWhenCountedDown(es: seq<Event>, e: Event)
    requires PossibleRun(es) && Possible(Run(es), e) && Counting(Run(es), e)
    ensures e.key in Step(Run(es), e).db.details
    ensures Finishes(Run(es), Step(Run(es), e), e.key) <==>
      CountUnfinished(Step(Run(es), e).db.details[e.key]) <= Hits(es + [e], e.key)
  {
    CounterDrift(es, e.key);
    CountedFinishes(Run(es), e);
    HitsNext(es, e, e.key);
    hide Step, Finishes, Hit, Hits, Run;
  }

  lemma HitsNext(es: seq<Event>, e: Event, k: JobKey)
    ensures Hits(es + [e], k) == (if k in Run(es).cache then Hits(es, k) else 0) + (if Hit(Run(es), e, k) then 1 else 0)
  {
    assert (es + [e])[..|es|] == es;
  }
}
