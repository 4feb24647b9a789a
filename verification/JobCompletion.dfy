/** The completion of a file and of its job over whole runs of the manager, whatever other jobs and
    files do in between. */
module JobCompletion {
  import opened Jobs
  import opened JobTables
  import opened JobCounter
  import opened Segmentation
  import Names
  import C = Completion

  /** One file of one job: its segments, in order, with their sizes. */
  datatype Transfer = Transfer(k: JobKey, fid: string, file: File, sids: seq<string>, sizes: seq<nat>)

  ghost predicate TransferFits(t: Transfer) {
    && 0 < |t.sizes| == |t.sids| == t.file.numSegs < MAX_INT64
    && Sum(t.sizes) == t.file.size < Jobs.U64
    && (forall i :: 0 <= i < |t.sids| ==> t.sids[i] != "")
    && (forall i, j :: 0 <= i < j < |t.sids| ==> t.sids[i] != t.sids[j])
  }

  /** The transfer of a file that is cut into segments of `per` bytes. */
  function CutUp(k: JobKey, fid: string, file: File, per: nat): Transfer
    requires per > 0
  {
    var sizes := Sizes(file.size, per);
    Transfer(k, fid, file, seq(|sizes|, i requires 0 <= i < |sizes| => Names.Sid(fid, i)), sizes)
  }

  /** Every file that is cut, at whatever positive size, makes such a transfer. */
  lemma GeneratedFits(k: JobKey, fid: string, file: File, per: nat)
    requires 0 < file.size < Jobs.U64 && per > 0 && |Sizes(file.size, per)| == file.numSegs < MAX_INT64
    ensures TransferFits(CutUp(k, fid, file, per))
  {
    var sizes := Sizes(file.size, per);
    SizesSum(file.size, per);
    SizesShape(file.size, per);
    forall i, j | 0 <= i < j < |sizes|
      ensures Names.Sid(fid, i) != Names.Sid(fid, j)
    {
      if Names.Sid(fid, i) == Names.Sid(fid, j) { Names.SidsDistinct(fid, i, fid, j); }
    }
    forall i | 0 <= i < |sizes|
      ensures Names.Sid(fid, i) != ""
    {
      Names.LastDigit(i + Names.START_NO, 8);
    }
  }

  /** File and segments of the transfer are in the database. */
  ghost predicate Filed(db: Database, t: Transfer) {
    && t.fid in db.files && db.files[t.fid] == t.file
    && |t.sids| == |t.sizes|
    && forall i :: 0 <= i < |t.sids| ==> t.sids[i] in db.segs && db.segs[t.sids[i]].size == t.sizes[i]
  }

  /** All records of the transfer are. */
  ghost predicate Stored(db: Database, t: Transfer) {
    HasDetail(db, t.k, t.fid) && Filed(db, t)
  }

  /** Is the event a report on the transfer? */
  predicate Reports(e: Event, t: Transfer) {
    e.NotifyE? && e.key == t.k && e.fid == t.fid && e.sid != ""
  }

  predicate Ends(e: Event, t: Transfer) {
    Reports(e, t) && e.state.Done?
  }

  /** Reports on the transfer are about its segments, tasks of it carry a part of them, and its job
      is not created again, deleted, or written to by the receiver. All other jobs and files, the
      deletion of a package that is only uploaded here, and restarts are free. */
  predicate Steady(e: Event, t: Transfer) {
    match e
    case NotifyE(k, fid, sid, _, _, _) => k == t.k && fid == t.fid && sid != "" ==> sid in t.sids
    case AddTaskE(k, fid, numSegs) => k == t.k && fid == t.fid ==> numSegs != t.file.numSegs
    case EmptySegsE(k, fid, _) => k != t.k || fid != t.fid
    case ProgressE(k, fid, _, _) => k != t.k || fid != t.fid
    case CreateE(k) => k != t.k
    case DeleteE(k, _) => k != t.k
    case DeletePkgE(k, _, _) => t.k.typ.Upload? || k.pid != t.k.pid
    case _ => true
  }

  predicate SteadyRun(es: seq<Event>, t: Transfer) {
    forall i :: 0 <= i < |es| ==> Steady(es[i], t)
  }

  /** No segment ends twice. */
  predicate EndOnce(es: seq<Event>, t: Transfer) {
    forall i, j :: 0 <= i < j < |es| && Ends(es[i], t) && Ends(es[j], t) ==> es[i].sid != es[j].sid
  }

  /** The segments that have ended. */
  ghost function Ended(es: seq<Event>, t: Transfer): set<nat> {
    set i | 0 <= i < |t.sids| && exists j :: 0 <= j < |es| && Ends(es[j], t) && es[j].sid == t.sids[i]
  }

  /** The transfer is where the segments in `ended` put it. */
  ghost predicate Progressed(db: Database, t: Transfer, ended: set<nat>) {
    Stored(db, t) && C.At(db.details[t.k][t.fid], t.file, t.sizes, ended)
  }

  // ---------------------------------------------------------------- one event

  /** What one event does to the detail of the transfer. */
  function DetailAfter(d: Detail, t: Transfer, e: Event, bytes: nat): Detail {
    match e
    case NotifyE(_, _, _, state, _, _) => if Reports(e, t) then Reported(d, t.file, state, bytes) else d
    case AddTaskE(k, fid, numSegs) => if k == t.k && fid == t.fid then TaskedDetail(d, t.file, numSegs) else d
    case DelTaskE(k, fid, state) => if k == t.k && fid == t.fid then UntaskedDetail(d, state) else d
    case RestartE => SyncedDetail(d)
    case _ => d
  }

  function Bytes(db: Database, e: Event): nat {
    if e.NotifyE? then SegBytes(db, e.sid, e.reported) else 0
  }

  lemma NotifyKeeps(s: State, e: Event, t: Transfer)
    requires Stored(s.db, t) && e.NotifyE?
    ensures var db := Step(s, e).db;
      Stored(db, t) && db.details[t.k][t.fid] == DetailAfter(s.db.details[t.k][t.fid], t, e, Bytes(s.db, e))
  {
    if e.sid != "" && HasDetail(s.db, e.key, e.fid) {
      var r := Reporting(s, e.key, e.fid, e.sid, e.state, e.reported);
      C.ProcessKeepsDetails(r, e.key, e.order);
      ProcessRecords(r, e.key, e.order);
      ProcessKeepsSegs(r, e.key, e.order);
    }
  }

  lemma ProcessKeepsSegs(s: State, k: JobKey, order: seq<string>)
    ensures ProcessJob(s, k, order).db.segs == s.db.segs
  {
  }

  lemma ClaimKeeps(s: State, e: Event, t: Transfer)
    requires Stored(s.db, t) && e.EmptySegsE? && Steady(e, t)
    ensures var db := Step(s, e).db;
      Stored(db, t) && db.details[t.k][t.fid] == s.db.details[t.k][t.fid]
  {
    var r := Claiming(s, e.key, e.fid);
    C.ProcessKeepsDetails(r, e.key, e.order);
    ProcessRecords(r, e.key, e.order);
    ProcessKeepsSegs(r, e.key, e.order);
  }

  lemma PkgKeeps(s: State, e: Event, t: Transfer)
    requires Stored(s.db, t) && e.DeletePkgE? && Steady(e, t) && s.db.jobs.Keys == s.db.details.Keys
    ensures var db := Step(s, e).db;
      Stored(db, t) && db.details[t.k][t.fid] == s.db.details[t.k][t.fid]
  {
    DeleteDownloadsTables(SoftDeleted(s, e.key), e.key.pid, e.plan);
    assert t.k !in PlannedKeys(e.key.pid, e.plan);
  }

  lemma NewPkgKeeps(s: State, e: Event, t: Transfer)
    requires Stored(s.db, t) && e.NewPkgE? && Possible(s, e)
    ensures var db := Step(s, e).db;
      Stored(db, t) && db.details[t.k][t.fid] == s.db.details[t.k][t.fid]
  {
  }

  lemma CreateKeeps(s: State, e: Event, t: Transfer)
    requires Stored(s.db, t) && Steady(e, t) && e.CreateE?
    ensures var db := Step(s, e).db;
      Stored(db, t) && db.details[t.k][t.fid] == s.db.details[t.k][t.fid]
  {
    hide WithTrack, NewDetail, RecreatedDetail;
  }

  lemma DeleteKeeps(s: State, e: Event, t: Transfer)
    requires Stored(s.db, t) && Steady(e, t) && e.DeleteE?
    ensures var db := Step(s, e).db;
      Stored(db, t) && db.details[t.k][t.fid] == s.db.details[t.k][t.fid]
  {
    hide DelTrack;
  }

  lemma RestartKeeps(s: State, t: Transfer)
    requires Stored(s.db, t)
    ensures var db := Restart(s).db;
      Stored(db, t) && db.details[t.k][t.fid] == SyncedDetail(s.db.details[t.k][t.fid])
  {
    hide Recomputed, SyncedRow, SyncedDetail;
  }

  lemma AddTaskKeeps(s: State, e: Event, t: Transfer)
    requires Stored(s.db, t) && Steady(e, t) && e.AddTaskE?
    ensures var db := Step(s, e).db;
      Stored(db, t) && db.details[t.k][t.fid] == DetailAfter(s.db.details[t.k][t.fid], t, e, Bytes(s.db, e))
  {
    hide TaskedDetail;
    var s1 := Load(s, e.key);
    assert s1.db == s.db;
    hide Load;
  }

  lemma DelTaskKeeps(s: State, e: Event, t: Transfer)
    requires Stored(s.db, t) && Steady(e, t) && (e.DelTaskE? || e.ProgressE?)
    ensures var db := Step(s, e).db;
      Stored(db, t) && db.details[t.k][t.fid] == DetailAfter(s.db.details[t.k][t.fid], t, e, Bytes(s.db, e))
  {
    hide UntaskedDetail;
  }

  lemma StepKeeps(s: State, e: Event, t: Transfer)
    requires Stored(s.db, t) && Steady(e, t) && Possible(s, e) && s.db.jobs.Keys == s.db.details.Keys
    ensures var db := Step(s, e).db;
      Stored(db, t) && db.details[t.k][t.fid] == DetailAfter(s.db.details[t.k][t.fid], t, e, Bytes(s.db, e))
  {
    if e.GetJobE? || e.EnableE? || e.FetchDeletesE? {
      assert Step(s, e).db == s.db;
    } else if e.RestartE? {
      RestartKeeps(s, t);
    } else {
      hide Step, Possible, Stored;
      match e
      case NotifyE(_, _, _, _, _, _) => NotifyKeeps(s, e, t);
      case EmptySegsE(_, _, _) => ClaimKeeps(s, e, t);
      case DeletePkgE(_, _, _) => PkgKeeps(s, e, t);
      case NewPkgE(_, _, _, _) => NewPkgKeeps(s, e, t);
      case AddTaskE(_, _, _) => AddTaskKeeps(s, e, t);
      case DelTaskE(_, _, _) => DelTaskKeeps(s, e, t);
      case ProgressE(_, _, _, _) => DelTaskKeeps(s, e, t);
      case CreateE(_) => CreateKeeps(s, e, t);
      case DeleteE(_, _) => DeleteKeeps(s, e, t);
    }
  }

  /** The segment that the event ends. */
  ghost function EndedNow(e: Event, t: Transfer): set<nat> {
    if Ends(e, t) then set i | 0 <= i < |t.sids| && t.sids[i] == e.sid else {}
  }

  /** No event but an ending report moves the detail on. */
  lemma QuietAt(d: Detail, t: Transfer, e: Event, bytes: nat, ended: set<nat>)
    requires TransferFits(t) && C.At(d, t.file, t.sizes, ended) && Steady(e, t) && !Ends(e, t)
    ensures C.At(DetailAfter(d, t, e, bytes), t.file, t.sizes, ended)
  {
    hide C.SumOf, Sum;
  }

  lemma EndingAt(s: State, e: Event, t: Transfer, ended: set<nat>)
    requires TransferFits(t) && Progressed(s.db, t, ended) && Ends(e, t) && Steady(e, t)
    requires (forall i :: i in ended ==> i < |t.sids|) && EndedNow(e, t) !! ended
    ensures C.At(DetailAfter(s.db.details[t.k][t.fid], t, e, Bytes(s.db, e)), t.file, t.sizes, ended + EndedNow(e, t))
  {
    hide C.At, C.SumOf, Sum, Reported;
    var i :| 0 <= i < |t.sids| && t.sids[i] == e.sid;
    assert EndedNow(e, t) == {i};
    C.EndedAt(s.db.details[t.k][t.fid], t.file, t.sizes, ended, i);
  }

  /** One steady event moves the transfer on by the segment it ends, if any. */
  lemma StepProgresses(s: State, e: Event, t: Transfer, ended: set<nat>)
    requires TransferFits(t) && Progressed(s.db, t, ended) && Steady(e, t) && Possible(s, e)
    requires s.db.jobs.Keys == s.db.details.Keys
    requires (forall i :: i in ended ==> i < |t.sids|) && EndedNow(e, t) !! ended
    ensures Progressed(Step(s, e).db, t, ended + EndedNow(e, t))
  {
    hide Step, Possible, C.At, DetailAfter, Reported;
    StepKeeps(s, e, t);
    if Ends(e, t) {
      EndingAt(s, e, t, ended);
    } else {
      QuietAt(s.db.details[t.k][t.fid], t, e, Bytes(s.db, e), ended);
      assert ended + EndedNow(e, t) == ended;
    }
  }

  // ---------------------------------------------------------------- runs

  lemma EndedNext(es: seq<Event>, t: Transfer)
    requires es != [] && TransferFits(t) && SteadyRun(es, t) && EndOnce(es, t)
    ensures var before, e := es[..|es| - 1], es[|es| - 1];
      && SteadyRun(before, t) && EndOnce(before, t) && Steady(e, t)
      && Ended(es, t) == Ended(before, t) + EndedNow(e, t)
      && EndedNow(e, t) !! Ended(before, t)
  {
    var before, e := es[..|es| - 1], es[|es| - 1];
    assert forall i :: 0 <= i < |before| ==> before[i] == es[i];
    forall i | i in Ended(es, t)
      ensures i in Ended(before, t) || (Ends(e, t) && t.sids[i] == e.sid)
    {
      var j :| 0 <= j < |es| && Ends(es[j], t) && es[j].sid == t.sids[i];
      assert j < |before| ==> before[j] == es[j];
    }
    forall i | i in Ended(before, t)
      ensures i in Ended(es, t)
    {
      var j :| 0 <= j < |before| && Ends(before[j], t) && before[j].sid == t.sids[i];
      assert es[j] == before[j];
    }
    assert Ends(e, t) ==> es[|es| - 1] == e;
  }

  /** After any run `base` that leaves the transfer reset and started, and any possible events that
      are steady and end no segment twice, whatever else happens: the finished segments and bytes
      are those that have ended, and the detail is DONE exactly when all have. */
  lemma {:induction false} TransferFollowsReports(base: seq<Event>, es: seq<Event>, t: Transfer)
    requires PossibleRun(base + es) && TransferFits(t) && Stored(Run(base).db, t)
    requires Run(base).db.details[t.k][t.fid] == ResetDetail.(started := true)
    requires SteadyRun(es, t) && EndOnce(es, t)
    ensures Progressed(Run(base + es).db, t, Ended(es, t))
    decreases |es|
  {
    if es == [] {
      assert base + es == base;
      assert Ended(es, t) == {};
      C.SumOfAtMost(t.sizes, {});
      C.NoneEnded(t.sizes);
    } else {
      var before, e := es[..|es| - 1], es[|es| - 1];
      assert (base + es)[..|base + es| - 1] == base + before && (base + es)[|base + es| - 1] == e;
      EndedNext(es, t);
      TransferFollowsReports(base, before, t);
      RunKeepsTables(base + before);
      KeysMatch(Run(base + before).db);
      StepProgresses(Run(base + before), e, t, Ended(before, t));
    }
  }

  /** When all segments have ended, in whatever order and amid whatever else, the detail is DONE with
      the size of the file, and not before. */
  lemma TransferCompletes(base: seq<Event>, es: seq<Event>, t: Transfer)
    requires PossibleRun(base + es) && TransferFits(t) && Stored(Run(base).db, t)
    requires Run(base).db.details[t.k][t.fid] == ResetDetail.(started := true)
    requires SteadyRun(es, t) && EndOnce(es, t)
    ensures Stored(Run(base + es).db, t)
    ensures var d := Run(base + es).db.details[t.k][t.fid];
      && d.numFinishedSegs == |Ended(es, t)|
      && (d.state.Done? <==> forall i :: 0 <= i < |t.sids| ==> i in Ended(es, t))
      && (d.state.Done? ==> d.finishedSize == t.file.size)
  {
    hide Run, PossibleRun, SteadyRun, EndOnce, Sum;
    TransferFollowsReports(base, es, t);
    assert C.At(Run(base + es).db.details[t.k][t.fid], t.file, t.sizes, Ended(es, t));
    CompleteAt(Run(base + es).db.details[t.k][t.fid], t, Ended(es, t));
  }

  lemma CompleteAt(d: Detail, t: Transfer, ended: set<nat>)
    requires TransferFits(t) && C.At(d, t.file, t.sizes, ended) && forall i :: i in ended ==> i < |t.sids|
    ensures d.numFinishedSegs == |ended|
    ensures d.state.Done? <==> forall i :: 0 <= i < |t.sids| ==> i in ended
    ensures d.state.Done? ==> d.finishedSize == t.file.size
  {
    C.Below(ended, |t.sizes|);
    C.SumOfAtMost(t.sizes, ended);
    if forall i :: 0 <= i < |t.sids| ==> i in ended { AllEnded(ended, |t.sids|); }
  }

  lemma {:induction false} AllEnded(s: set<nat>, n: nat)
    requires (forall i :: 0 <= i < n ==> i in s) && forall i :: i in s ==> i < n
    ensures |s| == n
  {
    if n == 0 {
      assert s == {};
    } else {
      AllEnded(s - {n - 1}, n - 1);
    }
  }

  // ---------------------------------------------------------------- from the package on

  /** Does the event create the package of the transfer, with its file and segments? */
  predicate Brings(e: Event, t: Transfer) {
    && e.NewPkgE? && e.pid == t.k.pid && t.fid in e.files && e.files[t.fid] == t.file
    && |t.sids| == |t.sizes|
    && forall i :: 0 <= i < |t.sids| ==> t.sids[i] in e.segs && e.segs[t.sids[i]].size == t.sizes[i]
  }

  /** So is the package of the file. */
  ghost predicate Recorded(db: Database, t: Transfer) {
    t.k.pid in db.pkgs && t.fid in db.pkgs[t.k.pid] && Filed(db, t)
  }

  ghost predicate SameSizes(db: Database, db': Database) {
    db'.segs.Keys == db.segs.Keys && forall sid :: sid in db.segs ==> db'.segs[sid].size == db.segs[sid].size
  }

  lemma NotifySizes(s: State, k: JobKey, fid: string, sid: string, state: TransferState, reported: nat, order: seq<string>)
    ensures SameSizes(s.db, Notify(s, k, fid, sid, state, reported, order).db)
  {
    if sid != "" && HasDetail(s.db, k, fid) {
      ProcessKeepsSegs(Reporting(s, k, fid, sid, state, reported), k, order);
    }
  }

  lemma DeletePkgSizes(s: State, k: JobKey, plan: seq<Deletion>, order: seq<string>)
    ensures SameSizes(s.db, DeletePkg(s, k, plan, order).db)
  {
    DeleteDownloadsSizes(SoftDeleted(s, k), k.pid, plan);
  }

  lemma {:induction false} DeleteDownloadsSizes(s: State, pid: string, plan: seq<Deletion>)
    ensures SameSizes(s.db, DeleteDownloads(s, pid, plan).db)
    decreases |plan|
  {
    if plan != [] {
      DeleteDownloadsSizes(DeleteJob(s, JobKey(plan[0].uid, pid, Download), plan[0].order), pid, plan[1..]);
    }
  }

  lemma StepSizes(s: State, e: Event)
    requires !e.NewPkgE?
    ensures SameSizes(s.db, Step(s, e).db)
  {
    hide Notify, ProcessJob, DeletePkg, Load, WithTrack, TaskedDetail, UntaskedDetail, Recomputed, SyncedRow, SyncedDetail;
    match e
    case NotifyE(k, fid, sid, state, reported, order) => NotifySizes(s, k, fid, sid, state, reported, order);
    case EmptySegsE(k, fid, order) => ProcessKeepsSegs(Claiming(s, k, fid), k, order);
    case DeletePkgE(k, plan, order) => DeletePkgSizes(s, k, plan, order);
    case _ =>
  }

  lemma StepRecorded(s: State, e: Event, t: Transfer)
    requires Recorded(s.db, t) && Possible(s, e) && s.db.jobs.Keys == s.db.details.Keys
    ensures Recorded(Step(s, e).db, t)
  {
    if !e.NewPkgE? {
      hide Step, Possible;
      StepPkgs(s, e);
      StepSizes(s, e);
    }
  }

  /** Once its package is created the records of the transfer stay, whatever happens, and with its
      job the transfer can be taken up. */
  lemma {:induction false} CreatedStored(es: seq<Event>, i: nat, t: Transfer)
    requires PossibleRun(es) && i < |es| && Brings(es[i], t)
    ensures Recorded(Run(es).db, t)
    ensures t.k in Run(es).db.jobs ==> Stored(Run(es).db, t)
    decreases |es|
  {
    var front, e := es[..|es| - 1], es[|es| - 1];
    RunKeepsTables(front);
    KeysMatch(Run(front).db);
    if i < |front| {
      CreatedStored(front, i, t);
      StepRecorded(Run(front), e, t);
    }
    RunKeepsTables(es);
    if t.k in Run(es).db.jobs { assert JobFits(Run(es).db, t.k); }
  }

  lemma TakenUp(s: State, t: Transfer)
    requires Stored(s.db, t) && t.file.size > 0
    ensures var db := Step(s, AddTaskE(t.k, t.fid, t.file.numSegs)).db;
      Stored(db, t) && db.details[t.k][t.fid] == ResetDetail.(started := true)
  {
    hide Load;
  }

  /** From the package on: its file was cut as the unpacker does, a task with all its segments was
      dispatched, and then each segment is ended at most once, whatever else happens. The detail is
      DONE with the size of the file when all segments have ended, and not before. */
  lemma UploadedFileCompletes(base: seq<Event>, es: seq<Event>, i: nat, k: JobKey, fid: string, file: File, per: nat)
    requires per > 0 && file.size > 0 && |Sizes(file.size, per)| == file.numSegs
    requires var t := CutUp(k, fid, file, per);
      && i < |base| && Brings(base[i], t)
      && PossibleRun(base + [AddTaskE(k, fid, file.numSegs)] + es) && k in Run(base).db.jobs
      && SteadyRun(es, t) && EndOnce(es, t)
    ensures var t, db := CutUp(k, fid, file, per), Run(base + [AddTaskE(k, fid, file.numSegs)] + es).db;
      && HasDetail(db, k, fid)
      && db.details[k][fid].numFinishedSegs == |Ended(es, t)|
      && (db.details[k][fid].state.Done? <==> forall j :: 0 <= j < |t.sids| ==> j in Ended(es, t))
      && (db.details[k][fid].state.Done? ==> db.details[k][fid].finishedSize == file.size)
  {
    var t, start := CutUp(k, fid, file, per), AddTaskE(k, fid, file.numSegs);
    var all := base + [start];
    hide Run, PossibleRun, Possible, Step, Sizes, SteadyRun, EndOnce, Ended, Stored, TransferFits, Brings;
    PossiblePrefix(all, es);
    PossiblePrefix(base, [start]);
    BroughtFits(base, i, t);
    GeneratedFits(k, fid, file, per);
    CreatedStored(base, i, t);
    LastStep(base, start);
    TakenUp(Run(base), t);
    TransferCompletes(all, es, t);
  }

  lemma LastStep(es: seq<Event>, e: Event)
    ensures Run(es + [e]) == Step(Run(es), e)
  {
    assert (es + [e])[..|es + [e]| - 1] == es;
  }

  lemma {:induction false} PossiblePrefix(es: seq<Event>, more: seq<Event>)
    requires PossibleRun(es + more)
    ensures PossibleRun(es)
    decreases |more|
  {
    if more == [] {
      assert es + more == es;
    } else {
      assert (es + more)[..|es + more| - 1] == es + more[..|more| - 1];
      PossiblePrefix(es, more[..|more| - 1]);
    }
  }

  lemma {:induction false} BroughtFits(es: seq<Event>, i: nat, t: Transfer)
    requires PossibleRun(es) && i < |es| && Brings(es[i], t)
    ensures t.file.size < Jobs.U64 && t.file.numSegs < MAX_INT64
    decreases |es|
  {
    if i < |es| - 1 { BroughtFits(es[..|es| - 1], i, t); }
  }

  // ---------------------------------------------------------------- the job

  /** The job has no open detail but, perhaps, this one. */
  ghost predicate OthersDone(db: Database, t: Transfer)
    requires t.k in db.details
  {
    forall f :: f in db.details[t.k] && f != t.fid ==> db.details[t.k][f].state.Done?
  }

  /** The report that ends a further segment counts the job as finished if and only if it ends the
      last segment of the last open file, provided no DONE detail of the job was hit since the job
      was cached. */
  lemma JobFinishesWithLastSegment(base: seq<Event>, es: seq<Event>, e: Event, t: Transfer)
    requires PossibleRun(base + es + [e]) && TransferFits(t) && Stored(Run(base).db, t)
    requires Run(base).db.details[t.k][t.fid] == ResetDetail.(started := true)
    requires SteadyRun(es + [e], t) && EndOnce(es + [e], t) && Ends(e, t)
    requires Hits(base + es + [e], t.k) == 0
    ensures t.k in Run(base + es).db.details
    ensures Finishes(Run(base + es), Run(base + es + [e]), t.k) <==>
      OthersDone(Run(base + es).db, t) && forall i :: 0 <= i < |t.sids| ==> i in Ended(es + [e], t)
  {
    hide Run, PossibleRun, Possible, Hits, TransferFits, SteadyRun, EndOnce, Finishes, Step, Ends, Steady, Ended;
    Append(base, es, e);
    assert (es + [e])[..|es + [e]| - 1] == es && (es + [e])[|es + [e]| - 1] == e;
    EndedNext(es + [e], t);
    TransferCompletes(base, es, t);
    TransferCompletes(base, es + [e], t);
    StillOpen(es, e, t);
    LastSegment(base + es, e, t);
  }

  lemma Append(base: seq<Event>, es: seq<Event>, e: Event)
    requires PossibleRun(base + es + [e])
    ensures base + es + [e] == base + (es + [e])
    ensures PossibleRun(base + es) && Possible(Run(base + es), e)
    ensures Run(base + es + [e]) == Step(Run(base + es), e)
  {
    assert (base + es + [e])[..|base + es + [e]| - 1] == base + es;
  }

  lemma StillOpen(es: seq<Event>, e: Event, t: Transfer)
    requires Ends(e, t) && Steady(e, t) && EndedNow(e, t) !! Ended(es, t)
    ensures !forall i :: 0 <= i < |t.sids| ==> i in Ended(es, t)
  {
    var i :| 0 <= i < |t.sids| && t.sids[i] == e.sid;
    assert i in EndedNow(e, t);
  }

  lemma LastSegment(es: seq<Event>, e: Event, t: Transfer)
    requires PossibleRun(es) && Possible(Run(es), e) && Stored(Run(es).db, t) && Ends(e, t) && Steady(e, t)
    requires !Run(es).db.details[t.k][t.fid].state.Done? && Hits(es + [e], t.k) == 0
    ensures HasDetail(Step(Run(es), e).db, t.k, t.fid)
    ensures Finishes(Run(es), Step(Run(es), e), t.k) <==>
      OthersDone(Run(es).db, t) && Step(Run(es), e).db.details[t.k][t.fid].state.Done?
  {
    var s := Run(es);
    RunKeepsTables(es);
    KeysMatch(s.db);
    FinishedWhenCountedDown(es, e);
    NotifyKeeps(s, e, t);
    OnlyOneChanges(s, e, t);
    CountZero(Step(s, e).db.details[t.k]);
  }

  lemma OnlyOneChanges(s: State, e: Event, t: Transfer)
    requires Stored(s.db, t) && Ends(e, t)
    ensures var ds := Step(s, e).db.details;
      && t.k in ds && t.fid in ds[t.k]
      && (AllDone(ds[t.k]) <==> OthersDone(s.db, t) && ds[t.k][t.fid].state.Done?)
  {
    var r := Reporting(s, e.key, e.fid, e.sid, e.state, e.reported);
    C.ProcessKeepsDetails(r, e.key, e.order);
    var ds := Step(s, e).db.details[t.k];
    assert forall f :: f in s.db.details[t.k] && f != t.fid ==> f in ds && ds[f] == s.db.details[t.k][f];
    assert forall f :: f in ds ==> f in s.db.details[t.k];
  }
}
