/** The rows of jobs and segments, the recorded deletions and the notifications, told by the events
    of the run. */
module JobRows {
  import opened Jobs
  import opened JobTables
  import opened JobCounter
  import opened JobNotices

  // ---------------------------------------------------------------- the row of a job

  /** A report on a detail of the job, or a request without segments for it. */
  predicate Touches(s: State, e: Event, k: JobKey) {
    || (e.NotifyE? && e.key == k && e.sid != "" && HasDetail(s.db, k, e.fid))
    || (e.EmptySegsE? && e.key == k && k in s.db.jobs)
  }

  /** A task of one of its files. */
  predicate TakesUp(s: State, e: Event, k: JobKey) {
    e.AddTaskE? && e.key == k && HasDetail(s.db, k, e.fid)
  }

  /** Does the event count the job as finished, given the hits on it so far? When it is touched, exactly
      if the details then open are no more than the hits; and when the process starts again, if it is
      DONE and was never counted. */
  ghost predicate Counts(s: State, e: Event, k: JobKey, hits: int)
    requires k in s.db.jobs
  {
    || (Touches(s, e, k) && k in Step(s, e).db.details && CountUnfinished(Step(s, e).db.details[k]) <= hits)
    || (e == RestartE && k in s.db.details && AllDone(s.db.details[k]) && s.db.jobs[k].finishedTimes == 0
        && !s.db.jobs[k].softDel)
  }

  /** What the event does to the row of a job: nothing but this. */
  ghost predicate RowBecomes(s: State, e: Event, k: JobKey, hits: int) {
    var jobs := Step(s, e).db.jobs;
    k in jobs ==>
      if k in s.db.jobs then
        var row := s.db.jobs[k];
        && jobs[k].id == row.id
        && (jobs[k].softDel <==> row.softDel || (e.DeletePkgE? && e.key == k))
        && jobs[k].finishedTimes == row.finishedTimes + (if Counts(s, e, k, hits) then 1 else 0)
        && jobs[k].state == if Counts(s, e, k, hits) then Done else if row.state == Idle && TakesUp(s, e, k) then Doing else row.state
      else
        e == CreateE(k) && jobs[k] == JobRow(s.db.nextId, false, 0, Idle)
  }

  ghost function HitsNow(s: State, e: Event, k: JobKey): int {
    Drift(s, k) + if Hit(s, e, k) then 1 else 0
  }

  lemma ProcessRow(s: State, k: JobKey, order: seq<string>)
    ensures ProcessJob(s, k, order).db.jobs
         == if k in s.db.jobs && LooksFinished(Load(s, k), k) then s.db.jobs[k := FinishedRow(s.db.jobs[k])] else s.db.jobs
  {
  }

  /** A job all of whose details are DONE is counted again by a write that leaves them so. */
  lemma DoneAgain(s: State, r: State, k: JobKey, fid: string, d: Detail, order: seq<string>)
    requires Counted(s, k) && Written(Load(s, k), r, k, fid, d) && AllDone(s.db.details[k])
    ensures var q := ProcessJob(r, k, order);
      && k in q.db.details && k in q.db.jobs
      && (Finishes(s, q, k) <==> CountUnfinished(q.db.details[k]) <= 0)
  {
    var q := ProcessJob(r, k, order);
    CountZero(s.db.details[k]);
    CountZero(q.db.details[k]);
    assert k !in r.cache;
    assert r.db.details[k] == s.db.details[k][fid := d];
  }

  lemma ReportCounts(s: State, e: Event)
    requires e.NotifyE? && Touches(s, e, e.key) && Counted(s, e.key)
    ensures e.key in Step(s, e).db.details
    ensures Finishes(s, Step(s, e), e.key) <==>
      CountUnfinished(Step(s, e).db.details[e.key]) <= HitsNow(s, e, e.key)
  {
    var k := e.key;
    if AllDone(s.db.details[k]) {
      CountZero(s.db.details[k]);
      ReportingWrites(s, k, e.fid, e.sid, e.state, e.reported);
      var d := Reported(s.db.details[k][e.fid], s.db.files[e.fid], e.state, SegBytes(s.db, e.sid, e.reported));
      DoneAgain(s, Reporting(s, k, e.fid, e.sid, e.state, e.reported), k, e.fid, d, e.order);
    } else {
      CountedFinishes(s, e);
    }
  }

  lemma ClaimCounts(s: State, e: Event)
    requires e.EmptySegsE? && Touches(s, e, e.key) && Counted(s, e.key) && e.key in s.db.details
    ensures e.key in Step(s, e).db.details
    ensures Finishes(s, Step(s, e), e.key) <==>
      CountUnfinished(Step(s, e).db.details[e.key]) <= HitsNow(s, e, e.key)
  {
    var k := e.key;
    if AllDone(s.db.details[k]) {
      CountZero(s.db.details[k]);
      if HasDetail(s.db, k, e.fid) {
        var d := Detail(Done, true, s.db.files[e.fid].size, s.db.files[e.fid].numSegs);
        DoneAgain(s, Claiming(s, k, e.fid), k, e.fid, d, e.order);
      }
    } else {
      CountedFinishes(s, e);
    }
  }

  lemma ReportRow(s: State, e: Event, k: JobKey)
    requires e.NotifyE? && Counted(s, k) && s.db.jobs.Keys == s.db.details.Keys
    ensures RowBecomes(s, e, k, HitsNow(s, e, k))
  {
    if Touches(s, e, e.key) {
      ProcessRow(Reporting(s, e.key, e.fid, e.sid, e.state, e.reported), e.key, e.order);
      if e.key == k { ReportCounts(s, e); }
    }
    hide ProcessJob, CountUnfinished, HitsNow, Reported, Load;
  }

  lemma ClaimRow(s: State, e: Event, k: JobKey)
    requires e.EmptySegsE? && Counted(s, k) && s.db.jobs.Keys == s.db.details.Keys
    ensures RowBecomes(s, e, k, HitsNow(s, e, k))
  {
    var r := Claiming(s, e.key, e.fid);
    assert r.db.jobs == s.db.jobs && Step(s, e) == ProcessJob(r, e.key, e.order);
    if e.key == k && k in s.db.jobs { ClaimCounts(s, e); }
    hide Claiming, Step, CountUnfinished, HitsNow, Load;
    ProcessRow(r, e.key, e.order);
    hide ProcessJob;
  }

  lemma TaskedRow(s: State, e: Event, k: JobKey, hits: int)
    requires e.AddTaskE?
    ensures RowBecomes(s, e, k, hits)
  {
    AddTaskRow(s, e.key, e.fid, e.numSegs);
    hide AddTask;
  }

  lemma PkgDeletedRow(s: State, e: Event, k: JobKey, hits: int)
    requires e.DeletePkgE? && e.key in s.db.jobs && s.db.jobs.Keys == s.db.details.Keys
    ensures RowBecomes(s, e, k, hits)
  {
    hide DeletePkg;
    DeletePkgKeeps(s, e.key, e.plan, e.order);
    hide PlannedKeys;
  }

  lemma CreatedRow(s: State, e: Event, k: JobKey, hits: int)
    requires e.CreateE? && s.db.jobs.Keys == s.db.details.Keys
    ensures RowBecomes(s, e, k, hits)
  {
    NotCounted(s, e, k, hits);
    hide WithTrack, RecreatedDetail, NewDetail, Counts;
  }

  lemma NotCounted(s: State, e: Event, k: JobKey, hits: int)
    requires !e.NotifyE? && !e.EmptySegsE? && !e.RestartE?
    ensures k in s.db.jobs ==> !Counts(s, e, k, hits)
  {
    hide Step;
  }

  lemma DeletedRow(s: State, e: Event, k: JobKey, hits: int)
    requires e.DeleteE?
    ensures RowBecomes(s, e, k, hits)
  {
    NotCounted(s, e, k, hits);
    hide DelTrack, Counts;
  }

  /** The rows stay as they are. */
  lemma QuietRow(s: State, e: Event, k: JobKey, hits: int)
    requires e.NewPkgE? || e.DelTaskE? || e.ProgressE? || e.GetJobE? || e.FetchDeletesE? || e.EnableE?
    ensures RowBecomes(s, e, k, hits)
  {
    NotCounted(s, e, k, hits);
    assert Step(s, e).db.jobs == s.db.jobs;
    hide Step, Counts;
  }

  lemma RestartRow(s: State, k: JobKey, hits: int)
    requires s.db.jobs.Keys == s.db.details.Keys
    ensures RowBecomes(s, RestartE, k, hits)
  {
    hide Recomputed, SyncedDetail;
  }

  lemma StepRow(s: State, e: Event, k: JobKey)
    requires s.db.jobs.Keys == s.db.details.Keys && Counted(s, k) && Possible(s, e)
    ensures RowBecomes(s, e, k, HitsNow(s, e, k))
  {
    var hits := HitsNow(s, e, k);
    hide RowBecomes, HitsNow, Step;
    match e
    case NotifyE(_, _, _, _, _, _) => ReportRow(s, e, k);
    case EmptySegsE(_, _, _) => ClaimRow(s, e, k);
    case CreateE(_) => CreatedRow(s, e, k, hits);
    case DeleteE(_, _) => DeletedRow(s, e, k, hits);
    case AddTaskE(_, _, _) => TaskedRow(s, e, k, hits);
    case DeletePkgE(_, _, _) => PkgDeletedRow(s, e, k, hits);
    case RestartE => RestartRow(s, k, hits);
    case _ => QuietRow(s, e, k, hits);
  }

  /** In every reachable state an event does to the row of a job exactly this: its id stays; deleting its
      package marks it; it is counted as finished, and DONE, exactly when touched with no more details
      open than hits on it since it was cached, or at a restart; and the first task of an idle job makes
      it DOING. */
  lemma RowFollowsEvents(es: seq<Event>, e: Event, k: JobKey)
    requires PossibleRun(es) && Possible(Run(es), e)
    ensures RowBecomes(Run(es), e, k, Hits(es + [e], k))
  {
    var s := Run(es);
    RunKeepsTables(es);
    KeysMatch(s.db);
    CounterDrift(es, k);
    HitsNext(es, e, k);
    StepRow(s, e, k);
  }

  /** A job is DONE if and only if it was ever counted as finished. */
  lemma {:induction false} DoneExactly(es: seq<Event>, k: JobKey)
    requires PossibleRun(es) && k in Run(es).db.jobs
    ensures Run(es).db.jobs[k].state.Done? <==> Run(es).db.jobs[k].finishedTimes > 0
    decreases |es|
  {
    assert es != [];
    var before, e := es[..|es| - 1], es[|es| - 1];
    RowFollowsEvents(before, e, k);
    hide Step, Possible, Counts, TakesUp, Hits;
    if k in Run(before).db.jobs { DoneExactly(before, k); }
  }

  /** A task of the job came at step `i`, and its row was there all the time after that. */
  ghost predicate TakenUpAt(es: seq<Event>, i: nat, k: JobKey) {
    && i < |es| && TakesUp(Run(es[..i]), es[i], k)
    && forall j: nat :: i < j < |es| ==> k in Run(es[..j]).db.jobs
  }

  lemma Shorter(es: seq<Event>, j: nat)
    requires es != [] && j < |es|
    ensures es[..j] == es[..|es| - 1][..j] && (j < |es| - 1 ==> es[j] == es[..|es| - 1][j])
  {
  }

  lemma TakenUpShorter(es: seq<Event>, i: nat, k: JobKey)
    requires es != [] && i < |es| - 1 && k in Run(es[..|es| - 1]).db.jobs
    ensures TakenUpAt(es, i, k) <==> TakenUpAt(es[..|es| - 1], i, k)
  {
    hide Run, TakesUp;
    var before := es[..|es| - 1];
    forall j: nat | j < |es|
      ensures es[..j] == before[..j] && (j < |before| ==> es[j] == before[j])
    {
      Shorter(es, j);
    }
    assert before[..|before|] == before;
  }

  lemma TakenUpCases(es: seq<Event>, i: nat, k: JobKey)
    requires es != []
    ensures var before, e := es[..|es| - 1], es[|es| - 1];
      TakenUpAt(es, i, k) <==>
        if i == |before| then TakesUp(Run(before), e, k) else k in Run(before).db.jobs && TakenUpAt(before, i, k)
  {
    hide Run, TakesUp;
    var before := es[..|es| - 1];
    assert es[..|before|] == before;
    if i < |before| && k in Run(before).db.jobs { TakenUpShorter(es, i, k); }
  }

  lemma TakenUpNext(es: seq<Event>, k: JobKey)
    requires es != []
    ensures var before, e := es[..|es| - 1], es[|es| - 1];
      (exists i: nat :: TakenUpAt(es, i, k)) <==>
      TakesUp(Run(before), e, k) || (k in Run(before).db.jobs && exists i: nat :: TakenUpAt(before, i, k))
  {
    var before := es[..|es| - 1];
    forall i: nat
      ensures TakenUpAt(es, i, k) <==>
        if i == |before| then TakesUp(Run(before), es[|es| - 1], k)
        else k in Run(before).db.jobs && TakenUpAt(before, i, k)
    {
      TakenUpCases(es, i, k);
    }
    assert !TakenUpAt(before, |before|, k);
    hide Run, TakesUp, TakenUpAt;
    if TakesUp(Run(before), es[|es| - 1], k) { assert TakenUpAt(es, |before|, k); }
  }

  /** A job is idle if and only if it was not counted as finished and no task of it came since it was
      created. */
  lemma {:induction false} IdleExactly(es: seq<Event>, k: JobKey)
    requires PossibleRun(es) && k in Run(es).db.jobs
    ensures Run(es).db.jobs[k].state.Idle? <==>
      Run(es).db.jobs[k].finishedTimes == 0 && !exists i: nat :: TakenUpAt(es, i, k)
    decreases |es|
  {
    assert es != [];
    var before, e := es[..|es| - 1], es[|es| - 1];
    RowFollowsEvents(before, e, k);
    TakenUpNext(es, k);
    if k in Run(before).db.jobs {
      IdleExactly(before, k);
      DoneExactly(before, k);
    }
    hide Step, Possible, Counts, Hits, TakenUpAt;
  }

  // ---------------------------------------------------------------- marked as deleted

  /** The package of upload `k` was deleted at step `i`, and `k` was not deleted itself after that. */
  predicate MarkedAt(es: seq<Event>, i: nat, k: JobKey) {
    && i < |es| && es[i].DeletePkgE? && es[i].key == k
    && forall j: nat :: i < j < |es| ==> !(es[j].DeleteE? && es[j].key == k)
  }

  lemma MarkedNext(es: seq<Event>, k: JobKey)
    requires es != []
    ensures var before, e := es[..|es| - 1], es[|es| - 1];
      (exists i: nat :: MarkedAt(es, i, k)) <==>
      (e.DeletePkgE? && e.key == k) || (!(e.DeleteE? && e.key == k) && exists i: nat :: MarkedAt(before, i, k))
  {
    var before, e := es[..|es| - 1], es[|es| - 1];
    if e.DeletePkgE? && e.key == k { assert MarkedAt(es, |es| - 1, k); }
    if i: nat :| MarkedAt(before, i, k) {
      if !(e.DeleteE? && e.key == k) { assert MarkedAt(es, i, k); }
    }
    if i: nat :| MarkedAt(es, i, k) {
      if i < |before| { assert MarkedAt(before, i, k); }
    }
  }

  lemma DeletePkgStays(s: State, e: Event, k: JobKey)
    requires e.DeletePkgE? && s.db.jobs.Keys == s.db.details.Keys && k.typ.Upload? && k in s.db.jobs
    ensures k in Step(s, e).db.jobs
  {
    hide DeletePkg;
    DeletePkgKeeps(s, e.key, e.plan, e.order);
  }

  lemma CreateStays(s: State, e: Event, k: JobKey)
    requires e.CreateE? && k in s.db.jobs
    ensures k in Step(s, e).db.jobs
  {
    hide WithTrack, RecreatedDetail, NewDetail;
  }

  lemma DeleteStays(s: State, e: Event, k: JobKey)
    requires e.DeleteE? && k in s.db.jobs
    ensures k in Step(s, e).db.jobs <==> e.key != k
  {
    hide DelTrack;
  }

  lemma UploadStays(s: State, e: Event, k: JobKey)
    requires s.db.jobs.Keys == s.db.details.Keys && k.typ.Upload? && k in s.db.jobs
    ensures k in Step(s, e).db.jobs <==> !(e.DeleteE? && e.key == k)
  {
    hide Notify, EmptySegs, AddTask, DelTask, Progress, DeletePkg, DeleteJob, CreateJob, Recomputed, SyncedRow, SyncedDetail;
    match e
    case NotifyE(j, fid, sid, t, reported, order) => NotifyRecords(s, j, fid, sid, t, reported, order);
    case EmptySegsE(j, fid, order) => EmptySegsRecords(s, j, fid, order);
    case AddTaskE(j, fid, n) => AddTaskRecords(s, j, fid, n);
    case DelTaskE(j, fid, t) => DelTaskRecords(s, j, fid, t);
    case ProgressE(j, fid, size, n) => ProgressRecords(s, j, fid, size, n);
    case DeletePkgE(_, _, _) => DeletePkgStays(s, e, k);
    case CreateE(_) => CreateStays(s, e, k);
    case DeleteE(_, _) => DeleteStays(s, e, k);
    case _ =>
  }

  /** An upload is marked as deleted if and only if its package was deleted, and the upload itself was
      not after that. */
  lemma {:induction false} MarkedExactly(es: seq<Event>, k: JobKey)
    requires PossibleRun(es) && k.typ.Upload? && k in Run(es).db.jobs
    ensures Run(es).db.jobs[k].softDel <==> exists i: nat :: MarkedAt(es, i, k)
    decreases |es|
  {
    assert es != [];
    var before, e := es[..|es| - 1], es[|es| - 1];
    RunKeepsTables(before);
    KeysMatch(Run(before).db);
    RowFollowsEvents(before, e, k);
    MarkedNext(es, k);
    if k in Run(before).db.jobs {
      MarkedExactly(before, k);
      UploadStays(Run(before), e, k);
    } else {
      NeverMarked(before, k);
    }
    hide Step, Counts, TakesUp, Hits, MarkedAt;
  }

  /** While an upload is not there, no deletion of its package has been without one of itself after it. */
  lemma {:induction false} NeverMarked(es: seq<Event>, k: JobKey)
    requires PossibleRun(es) && k.typ.Upload? && k !in Run(es).db.jobs
    ensures !exists i: nat :: MarkedAt(es, i, k)
    decreases |es|
  {
    if es != [] {
      var before, e := es[..|es| - 1], es[|es| - 1];
      RunKeepsTables(before);
      KeysMatch(Run(before).db);
      MarkedNext(es, k);
      if k in Run(before).db.jobs { UploadStays(Run(before), e, k); } else { NeverMarked(before, k); }
      hide Step, MarkedAt;
    }
  }

  // ---------------------------------------------------------------- recorded deletions

  /** Does the event delete job `k`: itself, or as a download of its package? */
  predicate Deletes(s: State, e: Event, k: JobKey) {
    || (e.DeleteE? && e.key == k && k in s.db.jobs)
    || (e.DeletePkgE? && k.typ.Download? && k.pid == e.key.pid && Planned(e.plan, k.uid))
  }

  /** Does it end what is recorded of it: because the user is told for the last time, or the process
      starts again? */
  predicate Forgets(e: Event, k: JobKey) {
    e == FetchDeletesE(k.uid, k.typ, true) || e == RestartE
  }

  lemma {:induction false} DeleteDownloadsDeletes(s: State, pid: string, plan: seq<Deletion>, k: JobKey)
    ensures k in DeleteDownloads(s, pid, plan).deletes <==>
      k in s.deletes || (k in s.db.jobs && k.typ.Download? && k.pid == pid && Planned(plan, k.uid))
    decreases |plan|
  {
    if plan != [] {
      var j := JobKey(plan[0].uid, pid, Download);
      var s1 := DeleteJob(s, j, plan[0].order);
      DeleteDownloadsDeletes(s1, pid, plan[1..], k);
      assert Planned(plan, k.uid) <==> plan[0].uid == k.uid || Planned(plan[1..], k.uid) by {
        if i :| 0 <= i < |plan| && plan[i].uid == k.uid {
          if i > 0 { assert plan[1..][i - 1].uid == k.uid; }
        }
      }
      hide DelTrack, Planned;
    }
  }

  lemma PkgDeletes(s: State, e: Event, k: JobKey)
    requires Possible(s, e) && e.DeletePkgE?
    ensures k in Step(s, e).deletes <==> Deletes(s, e, k) || k in s.deletes
  {
    DeleteDownloadsDeletes(SoftDeleted(s, e.key), e.key.pid, e.plan, k);
    hide DeleteDownloads, DelTrack, Planned, PlanFits, OrderFits;
  }

  lemma StepDeletes(s: State, e: Event, k: JobKey)
    requires Possible(s, e)
    ensures k in Step(s, e).deletes <==> Deletes(s, e, k) || (k in s.deletes && !Forgets(e, k))
  {
    hide DeletePkg, Possible, DelTrack, Notify, Load, WithTrack, Recomputed;
    match e
    case DeletePkgE(_, _, _) => PkgDeletes(s, e, k);
    case NotifyE(j, fid, sid, t, reported, order) => NotifyDeletes(s, j, fid, sid, t, reported, order);
    case _ =>
  }

  lemma NotifyDeletes(s: State, k: JobKey, fid: string, sid: string, t: TransferState, reported: nat, order: seq<string>)
    ensures Notify(s, k, fid, sid, t, reported, order).deletes == s.deletes
  {
  }

  /** The deletion of `k` is recorded if and only if it was deleted and nothing has ended that since. */
  lemma {:induction false} DeletesExactly(es: seq<Event>, k: JobKey)
    requires PossibleRun(es)
    ensures k in Run(es).deletes <==>
      exists i: nat :: DeletedAt(es, i, k)
  {
    if es != [] {
      var before, e := es[..|es| - 1], es[|es| - 1];
      DeletesExactly(before, k);
      StepDeletes(Run(before), e, k);
      DeletedNext(es, k);
      hide Step, Possible, Deletes, Forgets, DeletedAt;
    }
  }

  ghost predicate DeletedAt(es: seq<Event>, i: nat, k: JobKey) {
    && i < |es| && Deletes(Run(es[..i]), es[i], k)
    && forall j: nat :: i < j < |es| ==> !Forgets(es[j], k)
  }

  lemma DeletedNext(es: seq<Event>, k: JobKey)
    requires es != []
    ensures var before, e := es[..|es| - 1], es[|es| - 1];
      (exists i: nat :: DeletedAt(es, i, k)) <==>
      Deletes(Run(before), e, k) || (!Forgets(e, k) && exists i: nat :: DeletedAt(before, i, k))
  {
    hide Run, Deletes, Forgets;
    var before, e := es[..|es| - 1], es[|es| - 1];
    assert es[..|before|] == before;
    forall j: nat | j < |before|
      ensures es[..j] == before[..j] && es[j] == before[j]
    {
      Shorter(es, j);
    }
    if Deletes(Run(before), e, k) { assert DeletedAt(es, |es| - 1, k); }
    if i: nat :| DeletedAt(before, i, k) {
      if !Forgets(e, k) { assert DeletedAt(es, i, k); }
    }
    if i: nat :| DeletedAt(es, i, k) {
      if i < |before| { assert DeletedAt(before, i, k); }
    }
  }
}
