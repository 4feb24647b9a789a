/** Each job record causes its start notification, and each of its finish notifications,
    at most once. */
module JobNotices {
  import opened Jobs
  import opened JobTables

  ghost function Times(s: State, n: Notice): nat {
    multiset(s.queue)[n]
  }

  predicate Once(n: Notice) {
    !n.kind.NewPkgToReceiver?
  }

  /** Is the row past the point where the notification is caused? */
  predicate Past(row: JobRow, kind: NoticeKind) {
    match kind
    case NewPkgToReceiver => true
    case DownloadStartToSender => !row.state.Idle?
    case _ => row.finishedTimes > 0
  }

  ghost predicate RowTold(s: State, k: JobKey) {
    k in s.db.jobs ==>
      && s.db.jobs[k].id < s.db.nextId
      && forall n :: Once(n) && n.id == s.db.jobs[k].id && Times(s, n) > 0 ==> Past(s.db.jobs[k], n.kind)
  }

  ghost predicate Told(s: State) {
    && (forall k :: RowTold(s, k))
    && (forall j, k :: j in s.db.jobs && k in s.db.jobs && s.db.jobs[j].id == s.db.jobs[k].id ==> j == k)
    && (forall n :: Once(n) ==> Times(s, n) <= 1 && (Times(s, n) > 0 ==> n.id < s.db.nextId))
  }

  // ---------------------------------------------------------------- what a step may do

  /** A row is a new one, or the old one no earlier in its life. */
  ghost predicate RowGrows(s: State, r: State, k: JobKey) {
    k in r.db.jobs ==>
      if k in s.db.jobs then
        && r.db.jobs[k].id == s.db.jobs[k].id
        && r.db.jobs[k].finishedTimes >= s.db.jobs[k].finishedTimes
        && (r.db.jobs[k].state.Idle? ==> s.db.jobs[k].state.Idle?)
      else
        r.db.jobs[k].id == s.db.nextId < r.db.nextId
  }

  ghost predicate OneNew(s: State, r: State) {
    && s.db.nextId <= r.db.nextId
    && (forall k :: RowGrows(s, r, k))
    && (forall j, k :: j in r.db.jobs && k in r.db.jobs && j !in s.db.jobs && k !in s.db.jobs ==> j == k)
  }

  /** Only a row that passes the point in this step may cause the notification, once. */
  ghost predicate Permits(s: State, r: State, n: Notice) {
    exists k :: k in s.db.jobs && k in r.db.jobs && s.db.jobs[k].id == n.id
      && !Past(s.db.jobs[k], n.kind) && Past(r.db.jobs[k], n.kind)
  }

  ghost predicate Tells(s: State, r: State, n: Notice) {
    Once(n) ==> Times(r, n) <= Times(s, n) + (if Permits(s, r, n) then 1 else 0)
  }

  lemma StepTold(s: State, r: State)
    requires Told(s) && OneNew(s, r) && forall n :: Tells(s, r, n)
    ensures Told(r)
  {
    forall n
      ensures Once(n) ==> Times(r, n) <= 1 && (Times(r, n) > 0 ==> n.id < r.db.nextId)
    {
      assert Tells(s, r, n);
      if Permits(s, r, n) {
        var k :| k in s.db.jobs && k in r.db.jobs && s.db.jobs[k].id == n.id && !Past(s.db.jobs[k], n.kind);
        assert RowTold(s, k);
      }
    }
    forall k
      ensures RowTold(r, k)
    {
      RowStaysTold(s, r, k);
    }
    forall j, k | j in r.db.jobs && k in r.db.jobs && r.db.jobs[j].id == r.db.jobs[k].id
      ensures j == k
    {
      assert RowGrows(s, r, j) && RowGrows(s, r, k) && RowTold(s, j) && RowTold(s, k);
    }
  }

  lemma RowStaysTold(s: State, r: State, k: JobKey)
    requires Told(s) && OneNew(s, r) && forall n :: Tells(s, r, n)
    ensures RowTold(r, k)
  {
    assert RowGrows(s, r, k) && RowTold(s, k);
    if k in r.db.jobs {
      forall n | Once(n) && n.id == r.db.jobs[k].id && Times(r, n) > 0
        ensures Past(r.db.jobs[k], n.kind)
      {
        assert Tells(s, r, n);
        if Permits(s, r, n) {
          var j :| j in s.db.jobs && j in r.db.jobs && s.db.jobs[j].id == n.id
                   && !Past(s.db.jobs[j], n.kind) && Past(r.db.jobs[j], n.kind);
          assert RowTold(s, j);
        } else {
          assert Times(s, n) > 0;
        }
      }
    }
  }

  ghost predicate Effect(s: State, r: State) {
    OneNew(s, r) && forall n :: Tells(s, r, n)
  }

  // ---------------------------------------------------------------- the steps

  /** Job `k`'s row becomes `row`, and `notes` are queued. */
  lemma RowEffect(s: State, r: State, k: JobKey, row: JobRow, notes: seq<Notice>)
    requires k in s.db.jobs && r.db.jobs == s.db.jobs[k := row] && r.db.nextId == s.db.nextId
    requires row.id == s.db.jobs[k].id && row.finishedTimes >= s.db.jobs[k].finishedTimes
    requires row.state.Idle? ==> s.db.jobs[k].state.Idle?
    requires r.queue == s.queue + notes
    requires forall n :: Once(n) ==>
      multiset(notes)[n] <= if n.id == row.id && !Past(s.db.jobs[k], n.kind) && Past(row, n.kind) then 1 else 0
    ensures Effect(s, r)
  {
    forall n
      ensures Tells(s, r, n)
    {
      assert Times(r, n) == Times(s, n) + multiset(notes)[n];
      if Once(n) && multiset(notes)[n] > 0 { assert Permits(s, r, n); }
    }
  }

  /** Nothing is queued that may be queued only once. */
  lemma QuietEffect(s: State, r: State)
    requires OneNew(s, r) && forall n :: Once(n) ==> Times(r, n) == Times(s, n)
    ensures Effect(s, r)
  {
  }

  lemma ProcessEffect(s: State, k: JobKey, order: seq<string>)
    ensures Effect(s, ProcessJob(s, k, order))
  {
    var r := ProcessJob(s, k, order);
    if k in s.db.jobs && LooksFinished(Load(s, k), k) {
      var row := FinishedRow(s.db.jobs[k]);
      var notes := FinishNotes(s.enabled, k, row);
      RowEffect(s, r, k, row, notes);
    }
  }

  function FinishNotes(enabled: bool, k: JobKey, row: JobRow): seq<Notice> {
    if enabled then FinishNotices(k, row.id, row.finishedTimes) else []
  }

  /** Only job rows, the id counter and the queue matter here. */
  lemma EffectFrom(s: State, s': State, r: State)
    requires s'.db.jobs == s.db.jobs && s'.db.nextId == s.db.nextId && s'.queue == s.queue
    requires Effect(s', r)
    ensures Effect(s, r)
  {
    forall n
      ensures Tells(s, r, n)
    {
      assert Tells(s', r, n);
      if Permits(s', r, n) {
        var k :| k in s'.db.jobs && k in r.db.jobs && s'.db.jobs[k].id == n.id
                 && !Past(s'.db.jobs[k], n.kind) && Past(r.db.jobs[k], n.kind);
        assert Permits(s, r, n);
      }
    }
    forall k
      ensures RowGrows(s, r, k)
    {
      assert RowGrows(s', r, k);
    }
  }

  lemma NotifyEffect(s: State, k: JobKey, fid: string, sid: string, t: TransferState, reported: nat, order: seq<string>)
    ensures Effect(s, Notify(s, k, fid, sid, t, reported, order))
  {
    if sid != "" && HasDetail(s.db, k, fid) {
      var r := Reporting(s, k, fid, sid, t, reported);
      ProcessEffect(r, k, order);
      EffectFrom(s, r, ProcessJob(r, k, order));
    }
  }

  lemma EmptySegsEffect(s: State, k: JobKey, fid: string, order: seq<string>)
    ensures Effect(s, EmptySegs(s, k, fid, order))
  {
    ProcessEffect(Claiming(s, k, fid), k, order);
    EffectFrom(s, Claiming(s, k, fid), EmptySegs(s, k, fid, order));
  }

  function TaskNotes(s: State, k: JobKey): seq<Notice>
    requires k in s.db.jobs
  {
    if s.enabled && k.typ.Download? then [Notice(DownloadStartToSender, s.db.jobs[k].id)] else []
  }

  /** The row and the queue after a task was dispatched. */
  lemma AddTaskRow(s: State, k: JobKey, fid: string, numSegs: nat)
    ensures var r := AddTask(s, k, fid, numSegs);
      && r.db.nextId == s.db.nextId
      && if HasDetail(s.db, k, fid) && s.db.jobs[k].state.Idle?
         then r.db.jobs == s.db.jobs[k := s.db.jobs[k].(state := Doing)] && r.queue == s.queue + TaskNotes(s, k)
         else r.db.jobs == s.db.jobs && r.queue == s.queue
  {
    hide TaskedDetail, Load;
  }

  lemma AddTaskEffect(s: State, k: JobKey, fid: string, numSegs: nat)
    ensures Effect(s, AddTask(s, k, fid, numSegs))
  {
    AddTaskRow(s, k, fid, numSegs);
    hide AddTask;
    var r := AddTask(s, k, fid, numSegs);
    if HasDetail(s.db, k, fid) && s.db.jobs[k].state.Idle? {
      RowEffect(s, r, k, s.db.jobs[k].(state := Doing), TaskNotes(s, k));
    } else {
      QuietEffect(s, r);
    }
  }

  lemma CreateEffect(s: State, k: JobKey)
    requires s.db.jobs.Keys == s.db.details.Keys
    ensures Effect(s, CreateJob(s, k))
  {
    var r := CreateJob(s, k);
    var id := if k in s.db.jobs then s.db.jobs[k].id else s.db.nextId;
    assert k in s.db.jobs <==> k in s.db.details;
    if r.queue != s.queue {
      assert r.queue == s.queue + [Notice(NewPkgToReceiver, id)];
    }
    QuietEffect(s, r);
  }

  lemma DeletePkgKeeps(s: State, k: JobKey, plan: seq<Deletion>, order: seq<string>)
    requires s.db.jobs.Keys == s.db.details.Keys
    ensures var r := DeletePkg(s, k, plan, order);
      r.db == Without(SoftDeleted(s, k).db, k.pid, plan) && r.queue == s.queue && r.enabled == s.enabled
  {
    hide DeleteDownloads, Without;
    DeleteDownloadsTables(SoftDeleted(s, k), k.pid, plan);
    DeleteDownloadsQuiet(SoftDeleted(s, k), k.pid, plan);
    DeleteDownloadsEnabled(SoftDeleted(s, k), k.pid, plan);
  }

  lemma DeletePkgEffect(s: State, k: JobKey, plan: seq<Deletion>, order: seq<string>)
    requires s.db.jobs.Keys == s.db.details.Keys
    ensures Effect(s, DeletePkg(s, k, plan, order))
  {
    hide DeletePkg, PlannedKeys;
    DeletePkgKeeps(s, k, plan, order);
    QuietEffect(s, DeletePkg(s, k, plan, order));
  }

  lemma {:induction false} DeleteDownloadsQuiet(s: State, pid: string, plan: seq<Deletion>)
    ensures DeleteDownloads(s, pid, plan).queue == s.queue
    decreases |plan|
  {
    if plan != [] {
      DeleteDownloadsQuiet(DeleteJob(s, JobKey(plan[0].uid, pid, Download), plan[0].order), pid, plan[1..]);
    }
  }

  lemma StepEffect(s: State, e: Event)
    requires s.db.jobs.Keys == s.db.details.Keys
    ensures Effect(s, Step(s, e))
  {
    hide Effect, Notify, EmptySegs, AddTask, CreateJob, DeletePkg;
    match e
    case NotifyE(k, fid, sid, t, reported, order) => NotifyEffect(s, k, fid, sid, t, reported, order);
    case EmptySegsE(k, fid, order) => EmptySegsEffect(s, k, fid, order);
    case AddTaskE(k, fid, numSegs) => AddTaskEffect(s, k, fid, numSegs);
    case CreateE(k) => CreateEffect(s, k);
    case DeletePkgE(k, plan, order) => DeletePkgEffect(s, k, plan, order);
    case _ => QuietStepEffect(s, e);
  }

  lemma QuietStepEffect(s: State, e: Event)
    requires e.DeleteE? || e.NewPkgE? || e.DelTaskE? || e.ProgressE? || e.GetJobE? || e.RestartE? || e.EnableE?
      || e.FetchDeletesE?
    ensures Effect(s, Step(s, e))
  {
    hide Effect, Load, Recomputed, SyncedDetail, UntaskedDetail, SizeOf;
    QuietEffect(s, Step(s, e));
  }

  /** After any run, a record has caused its start notification at most once, and each of its
      finish notifications at most once; and none before its job was started, or finished. */
  lemma {:induction false} NotifiedAtMostOnce(es: seq<Event>)
    requires PossibleRun(es)
    ensures Told(Run(es))
    ensures forall n :: Once(n) ==> Times(Run(es), n) <= 1
  {
    if es != [] {
      var before := es[..|es| - 1];
      NotifiedAtMostOnce(before);
      RunKeepsTables(before);
      KeysMatch(Run(before).db);
      StepEffect(Run(before), es[|es| - 1]);
      StepTold(Run(before), Run(es));
    }
  }

  // ---------------------------------------------------------------- exactly once

  ghost predicate FinishTold(s: State, k: JobKey) {
    k in s.db.jobs && s.db.jobs[k].finishedTimes > 0 ==>
      forall n :: n in FinishNotes(true, k, s.db.jobs[k].(finishedTimes := 1)) ==> Times(s, n) >= 1
  }

  /** A record that was finished before stays told; one that is finished now is told now. */
  ghost predicate Carries(s: State, r: State, k: JobKey) {
    && s.queue <= r.queue
    && (k in r.db.jobs && r.db.jobs[k].finishedTimes > 0 ==>
          || (k in s.db.jobs && s.db.jobs[k].finishedTimes > 0 && s.db.jobs[k].id == r.db.jobs[k].id)
          || forall n :: n in FinishNotes(true, k, r.db.jobs[k].(finishedTimes := 1)) ==> Times(r, n) >= 1)
  }

  lemma CarriesTold(s: State, r: State, k: JobKey)
    requires FinishTold(s, k) && Carries(s, r, k)
    ensures FinishTold(r, k)
  {
    assert r.queue == s.queue + r.queue[|s.queue|..];
    assert forall n :: Times(s, n) <= Times(r, n);
  }

  lemma RowCarries(s: State, r: State, k: JobKey, row: JobRow, notes: seq<Notice>, j: JobKey)
    requires k in s.db.jobs && r.db.jobs == s.db.jobs[k := row] && r.queue == s.queue + notes
    requires row.id == s.db.jobs[k].id
    requires row.finishedTimes > 0 && s.db.jobs[k].finishedTimes == 0 ==>
      notes == FinishNotes(true, k, row.(finishedTimes := 1))
    ensures Carries(s, r, j)
  {
    if j == k && row.finishedTimes > 0 && s.db.jobs[k].finishedTimes == 0 {
      forall n | n in notes
        ensures Times(r, n) >= 1
      {
        assert n in r.queue;
      }
    }
  }

  lemma ProcessCarries(s: State, k: JobKey, order: seq<string>, j: JobKey)
    requires s.enabled
    ensures Carries(s, ProcessJob(s, k, order), j)
  {
    var r := ProcessJob(s, k, order);
    if k in s.db.jobs && LooksFinished(Load(s, k), k) {
      var row := FinishedRow(s.db.jobs[k]);
      RowCarries(s, r, k, row, FinishNotes(true, k, row), j);
    }
  }

  lemma AddTaskCarries(s: State, k: JobKey, fid: string, numSegs: nat, j: JobKey)
    ensures Carries(s, AddTask(s, k, fid, numSegs), j)
  {
    AddTaskRow(s, k, fid, numSegs);
    hide AddTask;
    if HasDetail(s.db, k, fid) && s.db.jobs[k].state.Idle? {
      RowCarries(s, AddTask(s, k, fid, numSegs), k, s.db.jobs[k].(state := Doing), TaskNotes(s, k), j);
    }
  }

  lemma CreateCarries(s: State, k: JobKey, j: JobKey)
    requires s.db.jobs.Keys == s.db.details.Keys
    ensures Carries(s, CreateJob(s, k), j)
  {
    assert k in s.db.jobs <==> k in s.db.details;
  }

  lemma DeletePkgCarries(s: State, k: JobKey, plan: seq<Deletion>, order: seq<string>, j: JobKey)
    requires s.db.jobs.Keys == s.db.details.Keys
    ensures Carries(s, DeletePkg(s, k, plan, order), j) && DeletePkg(s, k, plan, order).enabled == s.enabled
  {
    hide DeletePkg, PlannedKeys;
    DeletePkgKeeps(s, k, plan, order);
  }

  lemma CarriesFrom(s: State, s': State, r: State, j: JobKey)
    requires s'.db.jobs == s.db.jobs && s'.queue == s.queue && Carries(s', r, j)
    ensures Carries(s, r, j)
  {
  }

  lemma NotifyCarries(s: State, k: JobKey, fid: string, sid: string, t: TransferState, reported: nat,
                      order: seq<string>, j: JobKey)
    requires s.enabled
    ensures var r := Notify(s, k, fid, sid, t, reported, order); Carries(s, r, j) && r.enabled
  {
    if sid != "" && HasDetail(s.db, k, fid) {
      var r := Reporting(s, k, fid, sid, t, reported);
      ProcessCarries(r, k, order, j);
      CarriesFrom(s, r, ProcessJob(r, k, order), j);
    }
  }

  lemma EmptySegsCarries(s: State, k: JobKey, fid: string, order: seq<string>, j: JobKey)
    requires s.enabled
    ensures var r := EmptySegs(s, k, fid, order); Carries(s, r, j) && r.enabled
  {
    ProcessCarries(Claiming(s, k, fid), k, order, j);
    CarriesFrom(s, Claiming(s, k, fid), EmptySegs(s, k, fid, order), j);
  }

  lemma StepCarries(s: State, e: Event, j: JobKey)
    requires s.enabled && !e.RestartE? && !e.EnableE? && s.db.jobs.Keys == s.db.details.Keys
    ensures Carries(s, Step(s, e), j) && Step(s, e).enabled
  {
    match e
    case NotifyE(k, fid, sid, t, reported, order) => NotifyCarries(s, k, fid, sid, t, reported, order, j);
    case EmptySegsE(k, fid, order) => EmptySegsCarries(s, k, fid, order, j);
    case DeletePkgE(k, plan, order) => DeletePkgCarries(s, k, plan, order, j);
    case CreateE(k) => CreateCarries(s, k, j);
    case AddTaskE(k, fid, numSegs) => AddTaskCarries(s, k, fid, numSegs, j);
    case DeleteE(_, _) =>
    case NewPkgE(_, _, _, _) =>
    case DelTaskE(_, _, _) =>
    case ProgressE(_, _, _, _) =>
    case GetJobE(_) =>
    case FetchDeletesE(_, _, _) =>
  }

  lemma {:induction false} DeleteDownloadsEnabled(s: State, pid: string, plan: seq<Deletion>)
    ensures DeleteDownloads(s, pid, plan).enabled == s.enabled
    decreases |plan|
  {
    if plan != [] {
      DeleteDownloadsEnabled(DeleteJob(s, JobKey(plan[0].uid, pid, Download), plan[0].order), pid, plan[1..]);
    }
  }

  /** Notifications were enabled before the first job, and never since switched; the process
      was not restarted. */
  predicate AlwaysEnabled(es: seq<Event>) {
    && es != [] && es[0] == EnableE(true)
    && forall i :: 1 <= i < |es| ==> !es[i].EnableE? && !es[i].RestartE?
  }

  /** In such a run, every record that is counted as finished was announced as finished
      exactly once: to the sender, or to the receiver and the sender. */
  lemma {:induction false} FinishedExactlyOnce(es: seq<Event>, k: JobKey)
    requires PossibleRun(es) && AlwaysEnabled(es)
    ensures Run(es).enabled && FinishTold(Run(es), k)
    ensures var s := Run(es);
      k in s.db.jobs && s.db.jobs[k].finishedTimes > 0 ==>
        if k.typ.Upload? then Times(s, Notice(UploadFinishToSender, s.db.jobs[k].id)) == 1
        else && Times(s, Notice(DownloadFinishToReceiver, s.db.jobs[k].id)) == 1
             && Times(s, Notice(DownloadFinishToSender, s.db.jobs[k].id)) == 1
    decreases |es|
  {
    var before, e := es[..|es| - 1], es[|es| - 1];
    if before == [] {
      assert Run(before) == Initial;
    } else {
      FinishedExactlyOnce(before, k);
      RunKeepsTables(before);
      KeysMatch(Run(before).db);
      StepCarries(Run(before), e, k);
      CarriesTold(Run(before), Run(es), k);
    }
    NotifiedAtMostOnce(es);
    AnnouncedOnce(Run(es), k);
  }

  lemma AnnouncedOnce(s: State, k: JobKey)
    requires FinishTold(s, k) && forall n :: Once(n) ==> Times(s, n) <= 1
    ensures k in s.db.jobs && s.db.jobs[k].finishedTimes > 0 ==>
      forall n :: n in FinishNotes(true, k, s.db.jobs[k].(finishedTimes := 1)) ==> Times(s, n) == 1
  {
  }
}
