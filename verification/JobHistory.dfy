/** The details of the job manager, told by the events of the run alone: each column holds what the
    latest event that sets it has set. */
module JobHistory {
  import opened Jobs
  import opened JobTables
  import opened JobNotices
  import C = Completion

  /** What an event does to a column: leave it, or set it. */
  datatype Setting<T> = Kept | Set(value: T)

  // ---------------------------------------------------------------- what an event sets

  /** A report on the file. */
  predicate ReportsOn(e: Event, k: JobKey, fid: string) {
    e.NotifyE? && e.key == k && e.fid == fid && e.sid != ""
  }

  predicate Tasks(e: Event, k: JobKey, fid: string) {
    e.AddTaskE? && e.key == k && e.fid == fid
  }

  /** A request without segments for the file. */
  predicate Claims(e: Event, k: JobKey, fid: string) {
    e.EmptySegsE? && e.key == k && e.fid == fid
  }

  /** Does the event make the detail, with its job? */
  predicate Makes(db: Database, e: Event, k: JobKey, fid: string) {
    e == CreateE(k) && k !in db.jobs && k.pid in db.pkgs && fid in db.pkgs[k.pid] && fid in db.files
  }

  /** Does the event start a non-empty file from scratch: by creating its job again, or by a task that
      is the first one or carries all segments? */
  predicate Clears(db: Database, e: Event, k: JobKey, fid: string) {
    && HasDetail(db, k, fid) && db.files[fid].size > 0
    && (e == CreateE(k)
        || (Tasks(e, k, fid) && (!db.details[k][fid].started || e.numSegs == db.files[fid].numSegs)))
  }

  /** Does the end of one more segment make all of them? */
  predicate Fills(d: Detail, file: File) {
    d.numFinishedSegs != MAX_INT64 && d.numFinishedSegs + 1 >= file.numSegs
  }

  /** IDLE when the file starts from scratch; what is reported, but DONE only where all segments have
      ended, and PAUSE after others that end; PAUSE when a paused task goes; DONE by a request without
      segments; PAUSE when the process starts again during a transfer. */
  function StateSet(db: Database, e: Event, k: JobKey, fid: string): Setting<TransferState> {
    if Makes(db, e, k, fid) then Set(if db.files[fid].size == 0 then Done else Idle)
    else if !HasDetail(db, k, fid) then Kept
    else
      var d, file := db.details[k][fid], db.files[fid];
      if Clears(db, e, k, fid) then Set(Idle)
      else if ReportsOn(e, k, fid) then
        Set(if e.state != Done then (if d.numFinishedSegs == file.numSegs then Done else e.state)
            else if Fills(d, file) then Done else Pause)
      else if e == DelTaskE(k, fid, Pause) && d.state != Done then Set(Pause)
      else if Claims(e, k, fid) then Set(Done)
      else if e == RestartE && d.state == Doing then Set(Pause)
      else Kept
  }

  /** Finished size and finished segments: none from scratch; those of the file by a request without
      segments; what the receiver tells; and with a segment that ends its bytes and one segment more,
      up to those of the file. */
  function NumbersSet(db: Database, e: Event, k: JobKey, fid: string): Setting<(nat, int)> {
    if Makes(db, e, k, fid) then Set((0, 0))
    else if !HasDetail(db, k, fid) then Kept
    else
      var d, file := db.details[k][fid], db.files[fid];
      if Clears(db, e, k, fid) then Set((0, 0))
      else if Claims(e, k, fid) then Set((file.size, file.numSegs))
      else if e.ProgressE? && e.key == k && e.fid == fid then Set((e.size, e.n))
      else if ReportsOn(e, k, fid) && e.state == Done then
        var bytes := if e.sid in db.segs then db.segs[e.sid].size else e.reported;
        var size := (d.finishedSize + bytes) % U64;
        Set((if size <= file.size then size else file.size,
             if Fills(d, file) then file.numSegs
             else if d.numFinishedSegs == MAX_INT64 then -MAX_INT64 - 1 else d.numFinishedSegs + 1))
      else Kept
  }

  // ---------------------------------------------------------------- one event

  /** The existing detail `d` after the event, in the terms of the operations. */
  function DetailNow(db: Database, e: Event, k: JobKey, fid: string): Detail
    requires HasDetail(db, k, fid)
  {
    var d, file := db.details[k][fid], db.files[fid];
    match e
    case NotifyE(_, _, sid, t, reported, _) =>
      if ReportsOn(e, k, fid) then Reported(d, file, t, SegBytes(db, sid, reported)) else d
    case AddTaskE(_, _, n) => if Tasks(e, k, fid) then TaskedDetail(d, file, n) else d
    case DelTaskE(j, f, t) => if j == k && f == fid then UntaskedDetail(d, t) else d
    case EmptySegsE(_, _, _) => if Claims(e, k, fid) then Detail(Done, true, file.size, file.numSegs) else d
    case ProgressE(j, f, size, n) => if j == k && f == fid then d.(finishedSize := size, numFinishedSegs := n) else d
    case CreateE(j) => if j == k then RecreatedDetail(d, file) else d
    case RestartE => SyncedDetail(d)
    case _ => d
  }

  /** What the event makes of the detail. */
  ghost predicate Becomes(s: State, e: Event, k: JobKey, fid: string) {
    var db := Step(s, e).db;
    HasDetail(db, k, fid) ==>
      if HasDetail(s.db, k, fid) then
        db.files[fid] == s.db.files[fid] && db.details[k][fid] == DetailNow(s.db, e, k, fid)
      else
        Makes(s.db, e, k, fid) && db.files[fid] == s.db.files[fid] && db.details[k][fid] == NewDetail(db.files[fid])
  }

  lemma NotifyBecomes(s: State, e: Event, k: JobKey, fid: string)
    requires e.NotifyE?
    ensures Becomes(s, e, k, fid)
  {
    NotifyRecords(s, e.key, e.fid, e.sid, e.state, e.reported, e.order);
    if e.sid != "" && HasDetail(s.db, e.key, e.fid) {
      C.ProcessKeepsDetails(Reporting(s, e.key, e.fid, e.sid, e.state, e.reported), e.key, e.order);
      hide ProcessJob, Reported;
    }
  }

  lemma ClaimBecomes(s: State, e: Event, k: JobKey, fid: string)
    requires e.EmptySegsE?
    ensures Becomes(s, e, k, fid)
  {
    EmptySegsRecords(s, e.key, e.fid, e.order);
    C.ProcessKeepsDetails(Claiming(s, e.key, e.fid), e.key, e.order);
    hide ProcessJob;
  }

  lemma TaskBecomes(s: State, e: Event, k: JobKey, fid: string)
    requires e.AddTaskE?
    ensures Becomes(s, e, k, fid)
  {
    hide TaskedDetail, Load;
  }

  lemma SaveBecomes(s: State, e: Event, k: JobKey, fid: string)
    requires e.DelTaskE? || e.ProgressE?
    ensures Becomes(s, e, k, fid)
  {
    hide UntaskedDetail;
  }

  lemma CreateBecomes(s: State, e: Event, k: JobKey, fid: string)
    requires e.CreateE? && TablesValid(s.db)
    ensures Becomes(s, e, k, fid)
  {
    KeysMatch(s.db);
    if e.key in s.db.jobs { assert JobFits(s.db, e.key); }
    hide WithTrack, NewDetail, RecreatedDetail;
  }

  lemma DeletePkgBecomes(s: State, e: Event, k: JobKey, fid: string)
    requires e.DeletePkgE? && s.db.jobs.Keys == s.db.details.Keys
    ensures Becomes(s, e, k, fid)
  {
    hide DeletePkg, PlannedKeys;
    DeletePkgKeeps(s, e.key, e.plan, e.order);
  }

  lemma NewPkgBecomes(s: State, e: Event, k: JobKey, fid: string)
    requires e.NewPkgE? && Possible(s, e) && TablesValid(s.db)
    ensures Becomes(s, e, k, fid)
  {
    if k in s.db.jobs { assert JobFits(s.db, k) && PkgFits(s.db, k.pid); }
  }

  lemma RestartBecomes(s: State, k: JobKey, fid: string)
    ensures Becomes(s, RestartE, k, fid)
  {
    hide Recomputed, SyncedRow, SyncedDetail;
  }

  lemma StepBecomes(s: State, e: Event, k: JobKey, fid: string)
    requires TablesValid(s.db) && Possible(s, e)
    ensures Becomes(s, e, k, fid)
  {
    match e
    case NotifyE(_, _, _, _, _, _) => hide *; NotifyBecomes(s, e, k, fid);
    case EmptySegsE(_, _, _) => hide *; ClaimBecomes(s, e, k, fid);
    case AddTaskE(_, _, _) => hide *; TaskBecomes(s, e, k, fid);
    case DelTaskE(_, _, _) => hide *; SaveBecomes(s, e, k, fid);
    case ProgressE(_, _, _, _) => hide *; SaveBecomes(s, e, k, fid);
    case CreateE(_) => hide *; CreateBecomes(s, e, k, fid);
    case DeletePkgE(_, _, _) => KeysMatch(s.db); hide *; DeletePkgBecomes(s, e, k, fid);
    case NewPkgE(_, _, _, _) => hide *; NewPkgBecomes(s, e, k, fid);
    case RestartE => hide *; RestartBecomes(s, k, fid);
    case DeleteE(_, _) =>
    case GetJobE(_) =>
    case EnableE(_) =>
    case FetchDeletesE(_, _, _) =>
  }

  // ---------------------------------------------------------------- the columns

  function StateOf(db: Database, k: JobKey, fid: string): TransferState
    requires HasDetail(db, k, fid)
  {
    db.details[k][fid].state
  }

  function NumbersOf(db: Database, k: JobKey, fid: string): (nat, int)
    requires HasDetail(db, k, fid)
  {
    (db.details[k][fid].finishedSize, db.details[k][fid].numFinishedSegs)
  }

  lemma MadeColumns(db: Database, e: Event, k: JobKey, fid: string)
    requires Makes(db, e, k, fid)
    ensures StateSet(db, e, k, fid) == Set(NewDetail(db.files[fid]).state)
    ensures NumbersSet(db, e, k, fid) == Set((NewDetail(db.files[fid]).finishedSize, NewDetail(db.files[fid]).numFinishedSegs))
  {
  }

  lemma ReportedColumns(db: Database, e: Event, k: JobKey, fid: string)
    requires HasDetail(db, k, fid) && ReportsOn(e, k, fid)
    ensures StateSet(db, e, k, fid) == Set(DetailNow(db, e, k, fid).state)
    ensures match NumbersSet(db, e, k, fid)
      case Set(v) => v == (DetailNow(db, e, k, fid).finishedSize, DetailNow(db, e, k, fid).numFinishedSegs)
      case Kept => NumbersOf(db, k, fid) == (DetailNow(db, e, k, fid).finishedSize, DetailNow(db, e, k, fid).numFinishedSegs)
  {
  }

  lemma NowColumns(db: Database, e: Event, k: JobKey, fid: string)
    requires HasDetail(db, k, fid)
    ensures var now := DetailNow(db, e, k, fid);
      && now.state == (match StateSet(db, e, k, fid) case Set(v) => v case Kept => StateOf(db, k, fid))
      && (now.finishedSize, now.numFinishedSegs)
         == (match NumbersSet(db, e, k, fid) case Set(v) => v case Kept => NumbersOf(db, k, fid))
  {
    if ReportsOn(e, k, fid) {
      ReportedColumns(db, e, k, fid);
    }
  }

  lemma StepColumns(s: State, e: Event, k: JobKey, fid: string)
    requires TablesValid(s.db) && Possible(s, e) && HasDetail(Step(s, e).db, k, fid)
    ensures match StateSet(s.db, e, k, fid)
      case Set(v) => StateOf(Step(s, e).db, k, fid) == v
      case Kept => HasDetail(s.db, k, fid) && StateOf(Step(s, e).db, k, fid) == StateOf(s.db, k, fid)
    ensures match NumbersSet(s.db, e, k, fid)
      case Set(v) => NumbersOf(Step(s, e).db, k, fid) == v
      case Kept => HasDetail(s.db, k, fid) && NumbersOf(Step(s, e).db, k, fid) == NumbersOf(s.db, k, fid)
  {
    StepBecomes(s, e, k, fid);
    hide Step, Possible, TablesValid, StateSet, NumbersSet, DetailNow, NewDetail;
    if HasDetail(s.db, k, fid) { NowColumns(s.db, e, k, fid); } else { MadeColumns(s.db, e, k, fid); }
  }

  /** Event `i` sets the state, and none after it does. */
  ghost predicate StateSetAt(es: seq<Event>, i: nat, k: JobKey, fid: string, t: TransferState) {
    && i < |es| && StateSet(Run(es[..i]).db, es[i], k, fid) == Set(t)
    && forall j: nat :: i < j < |es| ==> StateSet(Run(es[..j]).db, es[j], k, fid).Kept?
  }

  /** Event `i` sets finished size and segments, and none after it does. */
  ghost predicate NumbersSetAt(es: seq<Event>, i: nat, k: JobKey, fid: string, numbers: (nat, int)) {
    && i < |es| && NumbersSet(Run(es[..i]).db, es[i], k, fid) == Set(numbers)
    && forall j: nat :: i < j < |es| ==> NumbersSet(Run(es[..j]).db, es[j], k, fid).Kept?
  }

  lemma Prefixes(es: seq<Event>)
    requires es != []
    ensures var before := es[..|es| - 1];
      forall j: nat :: j < |before| ==> es[..j] == before[..j] && es[j] == before[j]
  {
  }

  lemma StateSetStays(es: seq<Event>, i: nat, k: JobKey, fid: string, t: TransferState)
    requires es != [] && StateSetAt(es[..|es| - 1], i, k, fid, t)
    requires StateSet(Run(es[..|es| - 1]).db, es[|es| - 1], k, fid).Kept?
    ensures StateSetAt(es, i, k, fid, t)
  {
    hide Run, StateSet;
    Prefixes(es);
  }

  lemma NumbersSetStays(es: seq<Event>, i: nat, k: JobKey, fid: string, numbers: (nat, int))
    requires es != [] && NumbersSetAt(es[..|es| - 1], i, k, fid, numbers)
    requires NumbersSet(Run(es[..|es| - 1]).db, es[|es| - 1], k, fid).Kept?
    ensures NumbersSetAt(es, i, k, fid, numbers)
  {
    hide Run, NumbersSet;
    Prefixes(es);
  }

  lemma RunColumns(es: seq<Event>, k: JobKey, fid: string)
    requires es != [] && PossibleRun(es) && HasDetail(Run(es).db, k, fid)
    ensures var before, e := es[..|es| - 1], es[|es| - 1];
      && PossibleRun(before)
      && (StateSet(Run(before).db, e, k, fid).Set? ==>
            StateSet(Run(before).db, e, k, fid).value == StateOf(Run(es).db, k, fid))
      && (StateSet(Run(before).db, e, k, fid).Kept? ==>
            HasDetail(Run(before).db, k, fid) && StateOf(Run(before).db, k, fid) == StateOf(Run(es).db, k, fid))
      && (NumbersSet(Run(before).db, e, k, fid).Set? ==>
            NumbersSet(Run(before).db, e, k, fid).value == NumbersOf(Run(es).db, k, fid))
      && (NumbersSet(Run(before).db, e, k, fid).Kept? ==>
            HasDetail(Run(before).db, k, fid) && NumbersOf(Run(before).db, k, fid) == NumbersOf(Run(es).db, k, fid))
  {
    RunKeepsTables(es[..|es| - 1]);
    StepColumns(Run(es[..|es| - 1]), es[|es| - 1], k, fid);
    hide Step, Possible, StateSet, NumbersSet;
  }

  /** In every reachable state a detail's state is what the latest event that sets it has set. */
  lemma {:induction false} StateFollowsEvents(es: seq<Event>, k: JobKey, fid: string)
    requires PossibleRun(es) && HasDetail(Run(es).db, k, fid)
    ensures exists i: nat :: StateSetAt(es, i, k, fid, StateOf(Run(es).db, k, fid))
    decreases |es|
  {
    var t := StateOf(Run(es).db, k, fid);
    assert es != [];
    RunColumns(es, k, fid);
    hide Run, PossibleRun, StateSet, NumbersSet, StateOf, NumbersOf;
    var before := es[..|es| - 1];
    if StateSet(Run(before).db, es[|es| - 1], k, fid).Set? {
      assert StateSetAt(es, |es| - 1, k, fid, t);
    } else {
      StateFollowsEvents(before, k, fid);
      var i: nat :| StateSetAt(before, i, k, fid, t);
      StateSetStays(es, i, k, fid, t);
    }
  }

  /** So are its finished size and finished segments. */
  lemma {:induction false} NumbersFollowEvents(es: seq<Event>, k: JobKey, fid: string)
    requires PossibleRun(es) && HasDetail(Run(es).db, k, fid)
    ensures exists i: nat :: NumbersSetAt(es, i, k, fid, NumbersOf(Run(es).db, k, fid))
    decreases |es|
  {
    var numbers := NumbersOf(Run(es).db, k, fid);
    assert es != [];
    RunColumns(es, k, fid);
    hide Run, PossibleRun, StateSet, NumbersSet, StateOf, NumbersOf;
    var before := es[..|es| - 1];
    if NumbersSet(Run(before).db, es[|es| - 1], k, fid).Set? {
      assert NumbersSetAt(es, |es| - 1, k, fid, numbers);
    } else {
      NumbersFollowEvents(before, k, fid);
      var i: nat :| NumbersSetAt(before, i, k, fid, numbers);
      NumbersSetStays(es, i, k, fid, numbers);
    }
  }

  // ---------------------------------------------------------------- what follows

  /** A report that ends no segment, on a detail of which not all have ended, stores its state and
      moves nothing else. */
  lemma TransferringStored(es: seq<Event>, e: Event, k: JobKey, fid: string)
    requires PossibleRun(es + [e]) && ReportsOn(e, k, fid) && e.state != Done
    requires HasDetail(Run(es).db, k, fid)
    requires Run(es).db.details[k][fid].numFinishedSegs != Run(es).db.files[fid].numSegs
    ensures HasDetail(Run(es + [e]).db, k, fid)
    ensures Run(es + [e]).db.details[k][fid] == Run(es).db.details[k][fid].(state := e.state)
  {
    assert (es + [e])[..|es|] == es;
    RunKeepsTables(es);
    NotifyRecords(Run(es), k, fid, e.sid, e.state, e.reported, e.order);
    StepBecomes(Run(es), e, k, fid);
    hide Notify;
  }

  /** Event `i` is a report that the file is being transferred, before all its segments have ended. */
  ghost predicate TransferringAt(es: seq<Event>, i: nat, k: JobKey, fid: string) {
    && i < |es| && ReportsOn(es[i], k, fid) && es[i].state == Doing
    && HasDetail(Run(es[..i]).db, k, fid)
    && Run(es[..i]).db.details[k][fid].numFinishedSegs != Run(es[..i]).db.files[fid].numSegs
  }

  lemma TransferringSets(es: seq<Event>, i: nat, k: JobKey, fid: string)
    ensures StateSetAt(es, i, k, fid, Doing) <==>
      TransferringAt(es, i, k, fid) && forall j: nat :: i < j < |es| ==> StateSet(Run(es[..j]).db, es[j], k, fid).Kept?
  {
    if i < |es| {
      var db := Run(es[..i]).db;
      assert StateSet(db, es[i], k, fid) == Set(Doing) <==> TransferringAt(es, i, k, fid);
    }
    hide Run, StateSet, TransferringAt;
  }

  lemma SetOnce(es: seq<Event>, i: nat, j: nat, k: JobKey, fid: string, t: TransferState, u: TransferState)
    requires StateSetAt(es, i, k, fid, t) && StateSetAt(es, j, k, fid, u)
    ensures i == j && t == u
  {
    hide Run, StateSet;
  }

  /** A detail is DOING if and only if such a report came, and no later event set its state. */
  lemma DoingExactly(es: seq<Event>, k: JobKey, fid: string)
    requires PossibleRun(es) && HasDetail(Run(es).db, k, fid)
    ensures Run(es).db.details[k][fid].state.Doing? <==>
      exists i: nat :: TransferringAt(es, i, k, fid)
        && forall j: nat :: i < j < |es| ==> StateSet(Run(es[..j]).db, es[j], k, fid).Kept?
  {
    StateFollowsEvents(es, k, fid);
    var t := StateOf(Run(es).db, k, fid);
    var i: nat :| StateSetAt(es, i, k, fid, t);
    forall j: nat
      ensures StateSetAt(es, j, k, fid, Doing) <==>
        TransferringAt(es, j, k, fid) && forall m: nat :: j < m < |es| ==> StateSet(Run(es[..m]).db, es[m], k, fid).Kept?
      ensures StateSetAt(es, j, k, fid, Doing) ==> t == Doing
    {
      TransferringSets(es, j, k, fid);
      if StateSetAt(es, j, k, fid, Doing) { SetOnce(es, i, j, k, fid, t, Doing); }
    }
    hide Run, PossibleRun, StateSet, TransferringAt, StateSetAt;
  }

  // ---------------------------------------------------------------- whether a file was started

  lemma NowStarted(db: Database, e: Event, k: JobKey, fid: string)
    requires HasDetail(db, k, fid) && (db.files[fid].size == 0 ==> db.details[k][fid].started)
    ensures DetailNow(db, e, k, fid).started <==>
      || db.files[fid].size == 0 || Tasks(e, k, fid) || Claims(e, k, fid)
      || (e != CreateE(k) && db.details[k][fid].started)
  {
    hide SegBytes;
  }

  lemma StepStarts(s: State, e: Event, k: JobKey, fid: string)
    requires TablesValid(s.db) && Possible(s, e) && HasDetail(Step(s, e).db, k, fid)
    requires HasDetail(s.db, k, fid) && s.db.files[fid].size == 0 ==> s.db.details[k][fid].started
    ensures Step(s, e).db.details[k][fid].started <==>
      || Step(s, e).db.files[fid].size == 0 || Tasks(e, k, fid) || Claims(e, k, fid)
      || (e != CreateE(k) && HasDetail(s.db, k, fid) && s.db.details[k][fid].started)
    ensures HasDetail(s.db, k, fid) ==> Step(s, e).db.files[fid] == s.db.files[fid]
    ensures !HasDetail(s.db, k, fid) ==> e == CreateE(k)
  {
    StepBecomes(s, e, k, fid);
    hide Step, Possible, TablesValid, DetailNow;
    if HasDetail(s.db, k, fid) { NowStarted(s.db, e, k, fid); }
  }

  /** A task of the file, or a request without segments for it, came, and its job was not created
      after that. */
  ghost predicate StartedBy(es: seq<Event>, i: nat, k: JobKey, fid: string) {
    && i < |es| && (Tasks(es[i], k, fid) || Claims(es[i], k, fid))
    && forall j: nat :: i < j < |es| ==> es[j] != CreateE(k)
  }

  lemma StartedNext(es: seq<Event>, k: JobKey, fid: string)
    requires es != []
    ensures var before, e := es[..|es| - 1], es[|es| - 1];
      (exists i: nat :: StartedBy(es, i, k, fid)) <==>
      Tasks(e, k, fid) || Claims(e, k, fid) || (e != CreateE(k) && exists i: nat :: StartedBy(before, i, k, fid))
  {
    var before, e := es[..|es| - 1], es[|es| - 1];
    if Tasks(e, k, fid) || Claims(e, k, fid) { assert StartedBy(es, |es| - 1, k, fid); }
    if i: nat :| StartedBy(before, i, k, fid) {
      if e != CreateE(k) { assert StartedBy(es, i, k, fid); }
    }
    if i: nat :| StartedBy(es, i, k, fid) {
      if i < |before| { assert StartedBy(before, i, k, fid); }
    }
  }

  /** A detail has a start time if and only if its file is empty or was taken up since its job was last
      created. */
  lemma {:induction false} StartedExactly(es: seq<Event>, k: JobKey, fid: string)
    requires PossibleRun(es) && HasDetail(Run(es).db, k, fid)
    ensures Run(es).db.details[k][fid].started <==>
      Run(es).db.files[fid].size == 0 || exists i: nat :: StartedBy(es, i, k, fid)
    decreases |es|
  {
    assert es != [];
    var before, e := es[..|es| - 1], es[|es| - 1];
    StartedNext(es, k, fid);
    RunKeepsTables(before);
    if HasDetail(Run(before).db, k, fid) { StartedExactly(before, k, fid); }
    StepStarts(Run(before), e, k, fid);
    hide Step, Possible, StartedBy;
  }
}
