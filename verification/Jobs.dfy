/** The job manager of the transfer service: its records and, for every
    operation, the state that the operation leaves behind.

    Everything here is a value. JobManager.dfy holds the objects and maps that the
    program really updates, and shows that each method leaves the state named here;
    the remaining Job* files prove what all runs of these steps keep. */
module Jobs {

  const U64: nat := 0x1_0000_0000_0000_0000
  const MAX_INT64: int := 0x7FFF_FFFF_FFFF_FFFF

  datatype JobType = Upload | Download

  /** A job id: the program joins the three parts into one string (see Names.dfy). */
  datatype JobKey = JobKey(uid: string, pid: string, typ: JobType)

  datatype TransferState = Idle | Doing | Pause | Done

  datatype File = File(pid: string, size: nat, numSegs: nat)

  datatype Seg = Seg(fid: string, size: nat, state: TransferState)

  /** The persisted columns of a job detail that some decision depends on;
      `started` is the negation of StartTime.IsZero(). */
  datatype Detail = Detail(
    state: TransferState,
    started: bool,
    finishedSize: nat,
    numFinishedSegs: int)

  /** A row of the job table. A row keeps its id for life and no id is used twice. */
  datatype JobRow = JobRow(id: nat, softDel: bool, finishedTimes: nat, state: TransferState)

  /** `sizes` is the size stored with each package. */
  datatype Database = Database(
    pkgs: map<string, seq<string>>,
    sizes: map<string, nat>,
    files: map<string, File>,
    segs: map<string, Seg>,
    jobs: map<JobKey, JobRow>,
    details: map<JobKey, map<string, Detail>>,
    nextId: nat)

  datatype NoticeKind =
    | NewPkgToReceiver
    | DownloadStartToSender
    | UploadFinishToSender
    | DownloadFinishToReceiver
    | DownloadFinishToSender

  datatype Notice = Notice(kind: NoticeKind, id: nat)

  /** What the manager's objects amount to: the database, the running counter of each
      cached job, the tracked jobs, the deletions not yet fetched, and every
      notification ever queued. */
  datatype State = State(
    db: Database,
    cache: map<JobKey, int>,
    tracks: set<JobKey>,
    deletes: set<JobKey>,
    enabled: bool,
    queue: seq<Notice>)

  // ---------------------------------------------------------------- one detail

  /** Go's int64 increment. */
  function Succ64(n: int): int {
    if n == MAX_INT64 then -MAX_INT64 - 1 else n + 1
  }

  /** Job detail after a report on one of its segments; `bytes` is what an ended
      segment adds. */
  function Reported(d: Detail, file: File, segState: TransferState, bytes: nat): Detail {
    var d1 :=
      if segState.Done? then
        var size := (d.finishedSize + bytes) % U64;
        var n := Succ64(d.numFinishedSegs);
        d.(state := Pause,
           finishedSize := if size > file.size then file.size else size,
           numFinishedSegs := if n > file.numSegs then file.numSegs else n)
      else
        d.(state := segState);
    if d1.numFinishedSegs == file.numSegs then d1.(state := Done) else d1
  }

  const ResetDetail := Detail(Idle, false, 0, 0)

  /** A detail when its job is created. */
  function NewDetail(file: File): Detail {
    if file.size == 0 then Detail(Done, true, 0, 0) else ResetDetail
  }

  /** A detail when its job is created again. */
  function RecreatedDetail(d: Detail, file: File): Detail {
    if file.size > 0 then ResetDetail else d.(started := true)
  }

  /** Does a task that carries `numSegs` segments start the file from scratch? */
  predicate Restarts(d: Detail, file: File, numSegs: nat) {
    !d.started || numSegs == file.numSegs
  }

  function TaskedDetail(d: Detail, file: File, numSegs: nat): Detail {
    if Restarts(d, file, numSegs) then
      if file.size > 0 then ResetDetail.(started := true) else d.(started := true)
    else d
  }

  /** A detail after its task went away in state `t`. */
  function UntaskedDetail(d: Detail, t: TransferState): Detail {
    if t.Pause? && !d.state.Done? then d.(state := Pause) else d
  }

  // ---------------------------------------------------------------- the database

  function UnfinishedFids(ds: map<string, Detail>): set<string> {
    set f | f in ds && !ds[f].state.Done?
  }

  /** The number of details that are not DONE. */
  function CountUnfinished(ds: map<string, Detail>): nat {
    |UnfinishedFids(ds)|
  }

  ghost predicate AllDone(ds: map<string, Detail>) {
    forall f :: f in ds ==> ds[f].state.Done?
  }

  ghost predicate UnfinishedJob(db: Database, k: JobKey) {
    k in db.jobs && k in db.details && !db.jobs[k].softDel && !AllDone(db.details[k])
  }

  ghost predicate HasUnfinishedDownload(db: Database, pid: string) {
    exists uid :: UnfinishedJob(db, JobKey(uid, pid, Download))
  }

  predicate LiveUpload(db: Database, k: JobKey) {
    k in db.jobs && k.typ.Upload? && !db.jobs[k].softDel
  }

  predicate LiveDownload(db: Database, pid: string, uid: string) {
    JobKey(uid, pid, Download) in db.jobs && !db.jobs[JobKey(uid, pid, Download)].softDel
  }

  /** What a reload from the database tracks: the unfinished jobs, and the uploads of a
      package that somebody still downloads. */
  ghost predicate ShouldTrack(db: Database, k: JobKey) {
    UnfinishedJob(db, k) || (LiveUpload(db, k) && HasUnfinishedDownload(db, k.pid))
  }

  ghost function Recomputed(db: Database): set<JobKey> {
    set k | k in db.jobs && ShouldTrack(db, k)
  }

  function SaveDetail(db: Database, k: JobKey, fid: string, d: Detail): Database
    requires k in db.details
  {
    db.(details := db.details[k := db.details[k][fid := d]])
  }

  function SaveRow(db: Database, k: JobKey, row: JobRow): Database {
    db.(jobs := db.jobs[k := row])
  }

  /** The segment's new state is stored for uploads only. */
  function SaveSeg(db: Database, k: JobKey, sid: string, segState: TransferState): Database {
    if k.typ.Upload? && sid in db.segs
    then db.(segs := db.segs[sid := db.segs[sid].(state := segState)])
    else db
  }

  function SegBytes(db: Database, sid: string, reported: nat): nat {
    if sid in db.segs then db.segs[sid].size else reported
  }

  /** The details of a job are exactly the files of its package. */
  ghost predicate JobFits(db: Database, k: JobKey) {
    k in db.details && k.pid in db.pkgs && db.details[k].Keys == set f | f in db.pkgs[k.pid]
  }

  ghost predicate PkgFits(db: Database, pid: string)
    requires pid in db.pkgs
  {
    forall f :: f in db.pkgs[pid] ==> f in db.files && db.files[f].pid == pid
  }

  ghost predicate WellFormed(db: Database) {
    && (forall k :: k in db.jobs ==> JobFits(db, k))
    && (forall k :: k in db.details ==> k in db.jobs)
    && (forall pid :: pid in db.pkgs ==> PkgFits(db, pid))
  }

  // ---------------------------------------------------------------- cache and tracks

  /** Getting a job caches it when it is unfinished, with a freshly counted counter. */
  ghost function Load(s: State, k: JobKey): (r: State)
    ensures r.db == s.db && r.tracks == s.tracks && r.deletes == s.deletes && r.enabled == s.enabled && r.queue == s.queue
  {
    if k in s.cache || k !in s.db.jobs || k !in s.db.details || AllDone(s.db.details[k]) then s
    else s.(cache := s.cache[k := CountUnfinished(s.db.details[k])])
  }

  /** Is the job that was just got finished, as far as the manager knows? */
  ghost predicate LooksFinished(s: State, k: JobKey) {
    if k in s.cache then s.cache[k] <= 0 else k in s.db.details ==> AllDone(s.db.details[k])
  }

  ghost function TrackedUsers(tracks: set<JobKey>, pid: string, typ: JobType): set<string> {
    set k | k in tracks && k.pid == pid && k.typ == typ :: k.uid
  }

  /** `order` lists the users in `users` once each: one way to range over a Go map. */
  ghost predicate Enumerates(order: seq<string>, users: set<string>) {
    && (forall u :: u in order <==> u in users)
    && (forall i, j :: 0 <= i < j < |order| ==> order[i] != order[j])
  }

  /** Stop tracking the uploaders listed, up to the first whose upload is unfinished. */
  ghost function Cascade(s: State, pid: string, order: seq<string>): (r: State)
    ensures r.db == s.db && r.deletes == s.deletes && r.enabled == s.enabled && r.queue == s.queue
    decreases |order|
  {
    if order == [] then s else
    var u := JobKey(order[0], pid, Upload);
    var s1 := Load(s, u);
    if u in s.db.jobs && !LooksFinished(s1, u) then s1
    else Cascade(s1.(tracks := s1.tracks - {u}), pid, order[1..])
  }

  /** Stop tracking a job. An upload stays while its package is being downloaded; when
      the last download goes, so do the finished uploads. */
  ghost function DelTrack(s: State, k: JobKey, order: seq<string>): (r: State)
    ensures r.db == s.db && r.deletes == s.deletes && r.enabled == s.enabled && r.queue == s.queue
  {
    if k.typ.Upload? && TrackedUsers(s.tracks, k.pid, Download) != {} then s else
    var s1 := s.(tracks := s.tracks - {k});
    if TrackedUsers(s1.tracks, k.pid, Download) == {} then Cascade(s1, k.pid, order) else s1
  }

  ghost predicate OrderFits(s: State, k: JobKey, order: seq<string>) {
    Enumerates(order, TrackedUsers(s.tracks - {k}, k.pid, Upload))
  }

  /** Track a job; a download brings the live uploads of its package with it. */
  ghost function WithTrack(db: Database, tracks: set<JobKey>, k: JobKey): set<JobKey> {
    if k.typ.Download?
    then tracks + {k} + (set u | u in db.jobs && LiveUpload(db, u) && u.pid == k.pid)
    else tracks + {k}
  }

  // ---------------------------------------------------------------- notifications

  function CreateNotices(k: JobKey, id: nat): seq<Notice> {
    if k.typ.Upload? then [] else [Notice(NewPkgToReceiver, id)]
  }

  function StartNotices(k: JobKey, id: nat): seq<Notice> {
    if k.typ.Upload? then [] else [Notice(DownloadStartToSender, id)]
  }

  function FinishNotices(k: JobKey, id: nat, finishedTimes: nat): seq<Notice> {
    if finishedTimes > 1 then []
    else if k.typ.Upload? then [Notice(UploadFinishToSender, id)]
    else [Notice(DownloadFinishToReceiver, id), Notice(DownloadFinishToSender, id)]
  }

  function Queued(s: State, notices: seq<Notice>): State {
    if s.enabled then s.(queue := s.queue + notices) else s
  }

  // ---------------------------------------------------------------- operations

  /** The summed size of the given files. */
  function SizeOf(files: map<string, File>, fids: seq<string>): nat {
    if fids == [] then 0
    else SizeOf(files, fids[..|fids| - 1]) + (var f := fids[|fids| - 1]; if f in files then files[f].size else 0)
  }

  /** The file, package and segment records of a new package; its size is summed in 64 bits. */
  function NewPkg(s: State, pid: string, fids: seq<string>, files: map<string, File>, segs: map<string, Seg>): State {
    s.(db := s.db.(
      pkgs := s.db.pkgs[pid := fids],
      sizes := s.db.sizes[pid := SizeOf(files, fids) % U64],
      files := s.db.files + files,
      segs := s.db.segs + segs))
  }

  /** The database when existing job `k` was created again. */
  function RecreatedDb(db: Database, k: JobKey): Database
    requires k in db.details
  {
    var ds := db.details[k];
    db.(details := db.details[k :=
      map f | f in ds :: if f in db.files then RecreatedDetail(ds[f], db.files[f]) else ds[f]])
  }

  /** The database when new job `k` was inserted, with a detail for each file of its package. */
  function CreatedDb(db: Database, k: JobKey): Database
    requires k.pid in db.pkgs
  {
    db.(jobs := db.jobs[k := JobRow(db.nextId, false, 0, Idle)],
        details := db.details[k :=
          map f | f in db.pkgs[k.pid] :: if f in db.files then NewDetail(db.files[f]) else ResetDetail],
        nextId := db.nextId + 1)
  }

  ghost function CreateJob(s: State, k: JobKey): State {
    if k in s.db.jobs && k in s.db.details then
      Queued(
        s.(db := RecreatedDb(s.db, k), tracks := WithTrack(s.db, s.tracks, k), cache := s.cache - {k}),
        CreateNotices(k, s.db.jobs[k].id))
    else if k.pid !in s.db.pkgs then s
    else
      var db := CreatedDb(s.db, k);
      Queued(s.(db := db, tracks := WithTrack(db, s.tracks, k)), CreateNotices(k, s.db.nextId))
  }

  ghost function DeleteJob(s: State, k: JobKey, order: seq<string>): State {
    if k !in s.db.jobs then s else
    var s1 := s.(db := s.db.(jobs := s.db.jobs - {k}, details := s.db.details - {k}));
    var s2 := DelTrack(s1, k, order);
    s2.(cache := s2.cache - {k}, deletes := s2.deletes + {k})
  }

  /** One deleted download, and the order in which its uploaders were visited. */
  datatype Deletion = Deletion(uid: string, order: seq<string>)

  predicate Planned(plan: seq<Deletion>, uid: string) {
    exists i :: 0 <= i < |plan| && plan[i].uid == uid
  }

  ghost function DeleteDownloads(s: State, pid: string, plan: seq<Deletion>): State
    decreases |plan|
  {
    if plan == [] then s
    else DeleteDownloads(DeleteJob(s, JobKey(plan[0].uid, pid, Download), plan[0].order), pid, plan[1..])
  }

  ghost predicate PlanFits(s: State, pid: string, plan: seq<Deletion>)
    decreases |plan|
  {
    plan == [] ||
    var k := JobKey(plan[0].uid, pid, Download);
    OrderFits(s, k, plan[0].order) && PlanFits(DeleteJob(s, k, plan[0].order), pid, plan[1..])
  }

  function SoftDeleted(s: State, k: JobKey): State {
    if k in s.db.jobs then s.(db := SaveRow(s.db, k, s.db.jobs[k].(softDel := true))) else s
  }

  /** Deleting a package: mark its upload, delete its downloads, stop tracking it. */
  ghost function DeletePkg(s: State, k: JobKey, plan: seq<Deletion>, order: seq<string>): State {
    DelTrack(DeleteDownloads(SoftDeleted(s, k), k.pid, plan), k, order)
  }

  function FinishedRow(row: JobRow): JobRow {
    row.(finishedTimes := row.finishedTimes + 1, state := Done)
  }

  /** The state in which a job was counted as finished and dropped from the cache. */
  function Retired(s: State, k: JobKey): State
    requires k in s.db.jobs
  {
    s.(db := SaveRow(s.db, k, FinishedRow(s.db.jobs[k])), cache := s.cache - {k})
  }

  /** The job is counted as finished, not cached, not tracked, and announced. */
  ghost function Finished(s: State, k: JobKey, order: seq<string>): State
    requires k in s.db.jobs
  {
    Queued(DelTrack(Retired(s, k), k, order), FinishNotices(k, s.db.jobs[k].id, s.db.jobs[k].finishedTimes + 1))
  }

  /** Finish the job if it looks finished: count it, drop it from cache and tracks, notify. */
  ghost function ProcessJob(s: State, k: JobKey, order: seq<string>): State {
    var s1 := Load(s, k);
    if k !in s.db.jobs || !LooksFinished(s1, k) then s1
    else Finished(s1, k, order)
  }

  predicate HasDetail(db: Database, k: JobKey, fid: string) {
    k in db.jobs && k in db.details && fid in db.details[k] && fid in db.files
  }

  function Decremented(s: State, k: JobKey): State {
    if k in s.cache then s.(cache := s.cache[k := s.cache[k] - 1]) else s
  }

  /** The state in which a report on segment `sid` of an existing detail was recorded. */
  ghost function Reporting(s: State, k: JobKey, fid: string, sid: string, segState: TransferState, reported: nat): State
    requires HasDetail(s.db, k, fid)
  {
    var s1 := Load(s, k);
    var d := Reported(s.db.details[k][fid], s.db.files[fid], segState, SegBytes(s.db, sid, reported));
    var s2 := if d.state.Done? then Decremented(s1, k) else s1;
    s2.(db := SaveSeg(SaveDetail(s.db, k, fid, d), k, sid, segState))
  }

  /** A node reports on segment `sid` of a file. */
  ghost function Notify(s: State, k: JobKey, fid: string, sid: string, segState: TransferState, reported: nat,
                        order: seq<string>): State {
    if sid == "" then s
    else if !HasDetail(s.db, k, fid) then Load(s, k)
    else ProcessJob(Reporting(s, k, fid, sid, segState, reported), k, order)
  }

  /** The state in which a receiver's claim to have the file already was recorded. */
  ghost function Claiming(s: State, k: JobKey, fid: string): State {
    var s1 := Decremented(Load(s, k), k);
    if HasDetail(s.db, k, fid)
    then s1.(db := SaveDetail(s.db, k, fid, Detail(Done, true, s.db.files[fid].size, s.db.files[fid].numSegs)))
    else s1
  }

  /** A receiver asks for no segments at all: it has the file already. */
  ghost function EmptySegs(s: State, k: JobKey, fid: string, order: seq<string>): State {
    ProcessJob(Claiming(s, k, fid), k, order)
  }

  /** A task that carries `numSegs` segments of a file was dispatched. */
  ghost function AddTask(s: State, k: JobKey, fid: string, numSegs: nat): State {
    var s1 := Load(s, k);
    if !HasDetail(s1.db, k, fid) then s1 else
    var d := TaskedDetail(s1.db.details[k][fid], s1.db.files[fid], numSegs);
    var s2 := s1.(db := SaveDetail(s1.db, k, fid, d));
    var row := s2.db.jobs[k];
    if row.state.Idle?
    then Queued(s2.(db := SaveRow(s2.db, k, row.(state := Doing))), StartNotices(k, row.id))
    else s2
  }

  /** A task went away in state `t`. */
  ghost function DelTask(s: State, k: JobKey, fid: string, t: TransferState): State {
    var s1 := Load(s, k);
    if !HasDetail(s1.db, k, fid) then s1
    else s1.(db := SaveDetail(s1.db, k, fid, UntaskedDetail(s1.db.details[k][fid], t)))
  }

  /** A receiver tells how far it is. */
  ghost function Progress(s: State, k: JobKey, fid: string, size: nat, n: int): State {
    var s1 := Load(s, k);
    if !HasDetail(s1.db, k, fid) then s1
    else s1.(db := SaveDetail(s1.db, k, fid, s1.db.details[k][fid].(finishedSize := size, numFinishedSegs := n)))
  }

  /** A user was told of the deletions and is not told again. */
  function DeletesTold(s: State, uid: string, typ: JobType): State {
    s.(deletes := set k | k in s.deletes && !(k.uid == uid && k.typ == typ))
  }

  /** At startup, finished jobs that were never counted as finished are, and details left
      DOING become PAUSE. */
  ghost function SyncedRow(db: Database, k: JobKey): JobRow
    requires k in db.jobs
  {
    var row := db.jobs[k];
    if !row.softDel && (k in db.details ==> AllDone(db.details[k])) && row.finishedTimes == 0
    then row.(finishedTimes := 1, state := Done)
    else row
  }

  function SyncedDetail(d: Detail): Detail {
    if d.state.Doing? then d.(state := Pause) else d
  }

  ghost function Synced(db: Database): Database {
    db.(jobs := map k | k in db.jobs :: SyncedRow(db, k),
        details := map k | k in db.details :: map f | f in db.details[k] :: SyncedDetail(db.details[k][f]))
  }

  /** The process starts again on the same database. */
  ghost function Restart(s: State): State {
    var db := Synced(s.db);
    s.(db := db, cache := map[], tracks := Recomputed(db), deletes := {})
  }

  // ---------------------------------------------------------------- runs

  datatype Event =
    | NewPkgE(pid: string, fids: seq<string>, files: map<string, File>, segs: map<string, Seg>)
    | CreateE(key: JobKey)
    | DeleteE(key: JobKey, order: seq<string>)
    | DeletePkgE(key: JobKey, plan: seq<Deletion>, order: seq<string>)
    | AddTaskE(key: JobKey, fid: string, numSegs: nat)
    | DelTaskE(key: JobKey, fid: string, state: TransferState)
    | NotifyE(key: JobKey, fid: string, sid: string, state: TransferState, reported: nat, order: seq<string>)
    | EmptySegsE(key: JobKey, fid: string, order: seq<string>)
    | ProgressE(key: JobKey, fid: string, size: nat, n: int)
    | GetJobE(key: JobKey)
    | FetchDeletesE(uid: string, typ: JobType, remove: bool)
    | RestartE
    | EnableE(enabled: bool)

  ghost function Step(s: State, e: Event): State {
    match e
    case NewPkgE(pid, fids, files, segs) => NewPkg(s, pid, fids, files, segs)
    case CreateE(k) => CreateJob(s, k)
    case DeleteE(k, order) => DeleteJob(s, k, order)
    case DeletePkgE(k, plan, order) => DeletePkg(s, k, plan, order)
    case AddTaskE(k, fid, numSegs) => AddTask(s, k, fid, numSegs)
    case DelTaskE(k, fid, t) => DelTask(s, k, fid, t)
    case NotifyE(k, fid, sid, t, reported, order) => Notify(s, k, fid, sid, t, reported, order)
    case EmptySegsE(k, fid, order) => EmptySegs(s, k, fid, order)
    case ProgressE(k, fid, size, n) => Progress(s, k, fid, size, n)
    case GetJobE(k) => Load(s, k)
    case FetchDeletesE(uid, typ, remove) => if remove then DeletesTold(s, uid, typ) else s
    case RestartE => Restart(s)
    case EnableE(b) => s.(enabled := b)
  }

  /** Can this event happen in this state? The database's unique columns make the ids of
      a new package fresh, the orders list the maps they range over, and the two
      requests of receivers are about downloads. */
  ghost predicate Possible(s: State, e: Event) {
    match e
    case NewPkgE(pid, fids, files, segs) =>
      && pid !in s.db.pkgs
      && (forall f :: f in fids <==> f in files)
      && (forall i, j :: 0 <= i < j < |fids| ==> fids[i] != fids[j])
      && (forall f :: f in files ==> f !in s.db.files && files[f].pid == pid)
      && (forall f :: f in files ==> files[f].size < U64 && files[f].numSegs < MAX_INT64)
      && (forall sid :: sid in segs ==> sid !in s.db.segs)
    case CreateE(k) => true
    case DeleteE(k, order) => OrderFits(s, k, order)
    case DeletePkgE(k, plan, order) =>
      && k in s.db.jobs && k.typ.Upload?
      && (forall u :: Planned(plan, u) <==> LiveDownload(s.db, k.pid, u))
      && PlanFits(SoftDeleted(s, k), k.pid, plan)
      && OrderFits(DeleteDownloads(SoftDeleted(s, k), k.pid, plan), k, order)
    case NotifyE(k, fid, sid, t, reported, order) => OrderFits(s, k, order)
    case EmptySegsE(k, fid, order) => k.typ.Download? && OrderFits(s, k, order)
    case ProgressE(k, fid, size, n) => k.typ.Download? && size < U64 && -MAX_INT64 <= n + 1 <= MAX_INT64 + 1
    case _ => true
  }

  const EmptyDatabase := Database(map[], map[], map[], map[], map[], map[], 0)
  const Initial := State(EmptyDatabase, map[], {}, {}, false, [])

  /** The state after a run, and whether each of its events could happen. */
  ghost function Run(es: seq<Event>): State {
    if es == [] then Initial else Step(Run(es[..|es| - 1]), es[|es| - 1])
  }

  ghost predicate PossibleRun(es: seq<Event>) {
    es != [] ==> PossibleRun(es[..|es| - 1]) && Possible(Run(es[..|es| - 1]), es[|es| - 1])
  }
}
