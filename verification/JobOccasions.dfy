/** Every notification has its occasion, and every occasion its notification; and what is stored of a
    segment, told by the reports. */
module JobOccasions {
  import opened Jobs
  import opened JobTables
  import opened JobNotices
  import opened JobRows

  // ---------------------------------------------------------------- notifications

  /** Is this the moment to queue the notification? The receiver hears of a download when it is created
      or created again; the sender when the first task of an idle download comes; and when a job is
      finished for the first time the sender, and for a download also the receiver. */
  ghost predicate Occasion(s: State, e: Event, n: Notice) {
    s.enabled &&
    match n.kind
    case NewPkgToReceiver =>
      && e.CreateE? && e.key.typ == Download
      && if e.key in s.db.jobs then s.db.jobs[e.key].id == n.id else e.key.pid in s.db.pkgs && s.db.nextId == n.id
    case DownloadStartToSender =>
      e.AddTaskE? && e.key.typ == Download && TakesUp(s, e, e.key) && s.db.jobs[e.key].state == Idle && s.db.jobs[e.key].id == n.id
    case UploadFinishToSender => FirstFinish(s, e, n.id) && e.key.typ == Upload
    case DownloadFinishToReceiver => FirstFinish(s, e, n.id) && e.key.typ == Download
    case DownloadFinishToSender => FirstFinish(s, e, n.id) && e.key.typ == Download
  }

  /** Does a report or request finish the job with this id for the first time? */
  ghost predicate FirstFinish(s: State, e: Event, id: nat) {
    && (e.NotifyE? || e.EmptySegsE?) && e.key in s.db.jobs && s.db.jobs[e.key].id == id
    && s.db.jobs[e.key].finishedTimes == 0
    && e.key in Step(s, e).db.jobs && Step(s, e).db.jobs[e.key].finishedTimes > 0
  }

  /** The occasions of the run. */
  ghost function Occasions(es: seq<Event>, n: Notice): nat {
    if es == [] then 0
    else
      Occasions(es[..|es| - 1], n) + if Occasion(Run(es[..|es| - 1]), es[|es| - 1], n) then 1 else 0
  }

  ghost predicate Queues(s: State, e: Event, n: Notice) {
    Times(Step(s, e), n) == Times(s, n) + if Occasion(s, e, n) then 1 else 0
  }

  lemma QueuedTimes(s: State, r: State, notes: seq<Notice>, n: Notice)
    requires r.queue == s.queue + notes
    ensures Times(r, n) == Times(s, n) + multiset(notes)[n]
  {
  }

  lemma ProcessQueue(s: State, k: JobKey, order: seq<string>)
    ensures ProcessJob(s, k, order).queue
         == s.queue + if k in s.db.jobs && LooksFinished(Load(s, k), k) then FinishNotes(s.enabled, k, FinishedRow(s.db.jobs[k])) else []
  {
  }

  predicate TellsFinish(k: JobKey, kind: NoticeKind) {
    if k.typ == Upload then kind == UploadFinishToSender else kind == DownloadFinishToReceiver || kind == DownloadFinishToSender
  }

  lemma FinishNotesTimes(enabled: bool, k: JobKey, row: JobRow, n: Notice)
    ensures multiset(FinishNotes(enabled, k, row))[n]
         == if enabled && row.finishedTimes <= 1 && n.id == row.id && TellsFinish(k, n.kind) then 1 else 0
  {
  }

  lemma FinishOccasion(s: State, e: Event, n: Notice)
    requires e.NotifyE? || e.EmptySegsE?
    ensures Occasion(s, e, n) <==> s.enabled && TellsFinish(e.key, n.kind) && FirstFinish(s, e, n.id)
  {
    hide Step, FirstFinish;
  }

  lemma FinishQueues(s: State, e: Event, r: State, n: Notice)
    requires (e.NotifyE? || e.EmptySegsE?) && Step(s, e) == ProcessJob(r, e.key, e.order)
    requires r.db.jobs == s.db.jobs && r.queue == s.queue && r.enabled == s.enabled
    ensures Queues(s, e, n)
  {
    hide Step, ProcessJob, Load, LooksFinished, FinishNotes, Occasion;
    ProcessQueue(r, e.key, e.order);
    ProcessRow(r, e.key, e.order);
    FinishOccasion(s, e, n);
    if e.key in s.db.jobs && LooksFinished(Load(r, e.key), e.key) {
      var notes := FinishNotes(s.enabled, e.key, FinishedRow(s.db.jobs[e.key]));
      QueuedTimes(s, Step(s, e), notes, n);
      FinishNotesTimes(s.enabled, e.key, FinishedRow(s.db.jobs[e.key]), n);
    }
  }

  lemma ReportQueues(s: State, e: Event, n: Notice)
    requires e.NotifyE?
    ensures Queues(s, e, n)
  {
    if e.sid != "" && HasDetail(s.db, e.key, e.fid) {
      FinishQueues(s, e, Reporting(s, e.key, e.fid, e.sid, e.state, e.reported), n);
    }
  }

  lemma ClaimQueues(s: State, e: Event, n: Notice)
    requires e.EmptySegsE?
    ensures Queues(s, e, n)
  {
    FinishQueues(s, e, Claiming(s, e.key, e.fid), n);
  }

  lemma TaskQueues(s: State, e: Event, n: Notice)
    requires e.AddTaskE?
    ensures Queues(s, e, n)
  {
    AddTaskRow(s, e.key, e.fid, e.numSegs);
    var r := AddTask(s, e.key, e.fid, e.numSegs);
    assert Step(s, e) == r;
    hide AddTask, Step, FirstFinish;
    if HasDetail(s.db, e.key, e.fid) && s.db.jobs[e.key].state.Idle? {
      QueuedTimes(s, r, TaskNotes(s, e.key), n);
    }
  }

  lemma CreateQueue(s: State, k: JobKey)
    requires s.db.jobs.Keys == s.db.details.Keys
    ensures CreateJob(s, k).queue == s.queue +
      if s.enabled && k.typ == Download && (k in s.db.jobs || k.pid in s.db.pkgs)
      then [Notice(NewPkgToReceiver, if k in s.db.jobs then s.db.jobs[k].id else s.db.nextId)] else []
  {
    assert k in s.db.jobs <==> k in s.db.details;
    hide WithTrack, RecreatedDb, CreatedDb;
  }

  lemma CreateQueues(s: State, e: Event, n: Notice)
    requires e.CreateE? && s.db.jobs.Keys == s.db.details.Keys
    ensures Queues(s, e, n)
  {
    CreateQueue(s, e.key);
    hide CreateJob;
  }

  lemma PkgQueues(s: State, e: Event, n: Notice)
    requires e.DeletePkgE? && s.db.jobs.Keys == s.db.details.Keys
    ensures Queues(s, e, n)
  {
    hide DeletePkg;
    DeletePkgKeeps(s, e.key, e.plan, e.order);
  }

  lemma StepQueues(s: State, e: Event, n: Notice)
    requires s.db.jobs.Keys == s.db.details.Keys
    ensures Queues(s, e, n)
  {
    match e
    case NotifyE(_, _, _, _, _, _) => hide *; ReportQueues(s, e, n);
    case EmptySegsE(_, _, _) => hide *; ClaimQueues(s, e, n);
    case AddTaskE(_, _, _) => hide *; TaskQueues(s, e, n);
    case CreateE(_) => hide *; CreateQueues(s, e, n);
    case DeletePkgE(_, _, _) => hide *; PkgQueues(s, e, n);
    case _ => hide DelTrack, Load, Recomputed, SyncedRow, SyncedDetail, UntaskedDetail, SizeOf;
  }

  /** A notification is in the queue as many times as there were occasions for it. */
  lemma {:induction false} QueuedOnOccasion(es: seq<Event>, n: Notice)
    requires PossibleRun(es)
    ensures Times(Run(es), n) == Occasions(es, n)
  {
    if es != [] {
      var before := es[..|es| - 1];
      QueuedOnOccasion(before, n);
      RunKeepsTables(before);
      KeysMatch(Run(before).db);
      StepQueues(Run(before), es[|es| - 1], n);
      hide Occasion, Step, Possible;
    }
  }

  /** Notifications are enabled if and only if they were switched last to be. */
  predicate SwitchedOn(es: seq<Event>) {
    exists i: nat :: i < |es| && es[i] == EnableE(true) && forall j: nat :: i < j < |es| ==> es[j] != EnableE(false)
  }

  lemma SwitchedNext(es: seq<Event>)
    requires es != []
    ensures SwitchedOn(es) <==>
      es[|es| - 1] == EnableE(true) || (es[|es| - 1] != EnableE(false) && SwitchedOn(es[..|es| - 1]))
  {
    var before, e := es[..|es| - 1], es[|es| - 1];
    if SwitchedOn(before) && e != EnableE(false) {
      var i: nat :| i < |before| && before[i] == EnableE(true) && forall j: nat :: i < j < |before| ==> before[j] != EnableE(false);
      assert es[i] == EnableE(true);
    }
    if SwitchedOn(es) {
      var i: nat :| i < |es| && es[i] == EnableE(true) && forall j: nat :: i < j < |es| ==> es[j] != EnableE(false);
      if i < |before| { assert before[i] == EnableE(true); }
    }
  }

  lemma StepEnabled(s: State, e: Event)
    requires s.db.jobs.Keys == s.db.details.Keys
    ensures Step(s, e).enabled <==> e == EnableE(true) || (e != EnableE(false) && s.enabled)
  {
    match e
    case DeletePkgE(k, plan, order) => hide DeletePkg; DeletePkgKeeps(s, k, plan, order);
    case NotifyE(_, _, _, _, _, _) => hide DelTrack, Load, Reported;
    case _ => hide DelTrack, Load, Recomputed, SyncedRow, SyncedDetail, UntaskedDetail, SizeOf;
  }

  lemma {:induction false} EnabledExactly(es: seq<Event>)
    requires PossibleRun(es)
    ensures Run(es).enabled <==> SwitchedOn(es)
  {
    if es != [] {
      var before := es[..|es| - 1];
      EnabledExactly(before);
      RunKeepsTables(before);
      KeysMatch(Run(before).db);
      StepEnabled(Run(before), es[|es| - 1]);
      SwitchedNext(es);
      hide Step, SwitchedOn, Possible;
    }
  }

  // ---------------------------------------------------------------- segments

  /** Does the event store a state with the segment? A report does only for an upload. */
  predicate Stores(s: State, e: Event, sid: string) {
    || (e.NotifyE? && e.sid == sid && sid != "" && e.key.typ == Upload && HasDetail(s.db, e.key, e.fid))
    || (e.NewPkgE? && sid in e.segs)
  }

  function StateStored(s: State, e: Event, sid: string): TransferState
    requires Stores(s, e, sid)
  {
    if e.NotifyE? then e.state else e.segs[sid].state
  }

  ghost predicate SegBecomes(s: State, e: Event, sid: string) {
    var segs := Step(s, e).db.segs;
    if sid in s.db.segs then
      && sid in segs && segs[sid].fid == s.db.segs[sid].fid && segs[sid].size == s.db.segs[sid].size
      && segs[sid].state == if Stores(s, e, sid) then StateStored(s, e, sid) else s.db.segs[sid].state
    else
      sid in segs ==> e.NewPkgE? && sid in e.segs && segs[sid] == e.segs[sid]
  }

  lemma {:induction false} DeleteDownloadsSegs(s: State, pid: string, plan: seq<Deletion>)
    ensures DeleteDownloads(s, pid, plan).db.segs == s.db.segs
    decreases |plan|
  {
    if plan != [] {
      DeleteDownloadsSegs(DeleteJob(s, JobKey(plan[0].uid, pid, Download), plan[0].order), pid, plan[1..]);
    }
  }

  lemma ProcessSegs(s: State, k: JobKey, order: seq<string>)
    ensures ProcessJob(s, k, order).db.segs == s.db.segs
  {
  }

  lemma ReportSeg(s: State, e: Event, sid: string)
    requires e.NotifyE?
    ensures SegBecomes(s, e, sid)
  {
    if e.sid != "" && HasDetail(s.db, e.key, e.fid) {
      ProcessSegs(Reporting(s, e.key, e.fid, e.sid, e.state, e.reported), e.key, e.order);
      hide ProcessJob, Reported;
    }
  }

  lemma QuietSeg(s: State, e: Event, sid: string)
    requires !e.NotifyE? && !e.NewPkgE? && Step(s, e).db.segs == s.db.segs
    ensures SegBecomes(s, e, sid)
  {
    hide Step;
  }

  lemma SegsStay(s: State, e: Event)
    requires !e.NotifyE? && !e.NewPkgE?
    ensures Step(s, e).db.segs == s.db.segs
  {
    match e
    case EmptySegsE(k, fid, order) => ProcessSegs(Claiming(s, k, fid), k, order); hide ProcessJob;
    case DeletePkgE(k, plan, order) => DeleteDownloadsSegs(SoftDeleted(s, k), k.pid, plan); hide DeleteDownloads;
    case _ => hide DelTrack, Load, Recomputed, SyncedRow, SyncedDetail, UntaskedDetail, TaskedDetail, WithTrack;
  }

  lemma StepSeg(s: State, e: Event, sid: string)
    requires Possible(s, e)
    ensures SegBecomes(s, e, sid)
  {
    if e.NotifyE? {
      ReportSeg(s, e, sid);
    } else if !e.NewPkgE? {
      SegsStay(s, e);
      QuietSeg(s, e, sid);
    }
  }

  /** Event `i` stores this state with the segment, and none after it stores one. */
  ghost predicate StoredAt(es: seq<Event>, i: nat, sid: string, state: TransferState) {
    && i < |es| && Stores(Run(es[..i]), es[i], sid) && StateStored(Run(es[..i]), es[i], sid) == state
    && forall j: nat :: i < j < |es| ==> !Stores(Run(es[..j]), es[j], sid)
  }

  lemma StoredStays(es: seq<Event>, i: nat, sid: string, state: TransferState)
    requires es != [] && StoredAt(es[..|es| - 1], i, sid, state)
    requires !Stores(Run(es[..|es| - 1]), es[|es| - 1], sid)
    ensures StoredAt(es, i, sid, state)
  {
    hide Run, Stores;
    var before := es[..|es| - 1];
    forall j: nat | j < |es|
      ensures es[..j] == before[..j] && (j < |before| ==> es[j] == before[j])
    {
      Shorter(es, j);
    }
    assert before[..|before|] == before;
  }

  /** The state stored with a segment is that of the latest report on it in an upload, or the one it was
      created with. */
  lemma {:induction false} SegFollowsReports(es: seq<Event>, sid: string)
    requires PossibleRun(es) && sid in Run(es).db.segs
    ensures exists i: nat :: StoredAt(es, i, sid, Run(es).db.segs[sid].state)
    decreases |es|
  {
    assert es != [];
    var before, e := es[..|es| - 1], es[|es| - 1];
    var state := Run(es).db.segs[sid].state;
    StepSeg(Run(before), e, sid);
    if Stores(Run(before), e, sid) {
      assert StoredAt(es, |es| - 1, sid, state);
    } else {
      SegFollowsReports(before, sid);
      hide Step, Stores, StoredAt;
      var i: nat :| StoredAt(before, i, sid, state);
      StoredStays(es, i, sid, state);
    }
  }
}
