/** How an upload finds its node: the expiring affinity of packages or files to nodes, then the
    node that holds the file, then the round robin. Schedulers.dfy holds the objects. */
module Dispatch {
  import opened RoundRobin
  import opened Nodes
  import ZoneIndex

  /** Five minutes, in seconds. */
  const EXPIRE: nat := 300

  datatype Mode = ByPid | ByFid

  /** Where a file lies: its parsed storage url. */
  datatype Storage = NoStorage | FileUrl(host: string) | NasUrl(zone: string) | Unsupported

  datatype UploadReq = UploadReq(pid: string, fid: string, leftPkgSize: nat, fileSize: nat, storage: Storage)

  datatype Resource = Resource(nid: string, timestamp: int, expire: int)

  type Resources = map<string, Resource>

  /** The nodes as one dispatch finds them. */
  datatype Fleet = Fleet(online: map<string, Node>, free: map<Node, nat>, zones: map<string, seq<Node>>, upload: seq<Node>)

  // ---------------------------------------------------------------- expiring resources

  predicate Alive(r: Resource, now: int) {
    now - r.timestamp <= r.expire
  }

  function DelExpired(rs: Resources, now: int): Resources {
    map x | x in rs && Alive(rs[x], now) :: rs[x]
  }

  function Touched(rs: Resources, xid: string, now: int): Resources
    requires xid in rs
  {
    rs[xid := rs[xid].(timestamp := now)]
  }

  function Update(rs: Resources, xid: string, nid: string, now: int): Resources {
    if nid != "" && xid in rs && rs[xid].nid == nid then Touched(rs, xid, now) else rs
  }

  function Add(rs: Resources, xid: string, nid: string, expire: int, now: int): Resources {
    if nid == "" then rs
    else DelExpired(Update(rs, xid, nid, now), now)[xid := Resource(nid, now, expire)]
  }

  // ---------------------------------------------------------------- one dispatch

  function Xid(mode: Mode, pid: string, fid: string): string {
    if mode.ByPid? then pid else fid
  }

  function ReqSize(mode: Mode, req: UploadReq): nat {
    if mode.ByPid? then req.leftPkgSize else req.fileSize
  }

  /** Does the affinity decide the request? */
  predicate Restricted(mode: Mode, rs: Resources, fleet: Fleet, req: UploadReq, now: int) {
    var xid := Xid(mode, req.pid, req.fid);
    && xid in rs && Alive(rs[xid], now) && rs[xid].nid != ""
    && rs[xid].nid in fleet.online
    && var n := fleet.online[rs[xid].nid];
       n in fleet.free && fleet.free[n] > ReqSize(mode, req)
  }

  function AfterRestrict(mode: Mode, rs: Resources, fleet: Fleet, req: UploadReq, now: int): Resources {
    var left := DelExpired(rs, now);
    if Restricted(mode, rs, fleet, req, now) then Touched(left, Xid(mode, req.pid, req.fid), now) else left
  }

  function AtStorage(fleet: Fleet, storage: Storage): Option<Node> {
    match storage
    case FileUrl(host) => if host in fleet.online then Some(fleet.online[host]) else None
    case NasUrl(zone) => ZoneIndex.ZoneServed(fleet.zones, zone)
    case _ => None
  }

  function Chosen(mode: Mode, rs: Resources, fleet: Fleet, req: UploadReq, now: int): Option<Node> {
    if Restricted(mode, rs, fleet, req, now) then
      Some(fleet.online[rs[Xid(mode, req.pid, req.fid)].nid])
    else if !req.storage.NoStorage? then AtStorage(fleet, req.storage)
    else Served(fleet.upload, BySize(fleet.free, ReqSize(mode, req)))
  }

  /** What the dispatch does to the queues of the nodes. */
  function QueueEvent(mode: Mode, rs: Resources, fleet: Fleet, req: UploadReq, now: int): Option<ZoneIndex.Event<Node>> {
    if Restricted(mode, rs, fleet, req, now) then None
    else match req.storage
    case NoStorage => Some(ZoneIndex.DispatchUpload(BySize(fleet.free, ReqSize(mode, req))))
    case NasUrl(zone) => Some(ZoneIndex.Dispatch(zone))
    case _ => None
  }

  // ---------------------------------------------------------------- runs

  /** Where the segments of an upload went. */
  datatype Placement = Placement(pid: string, fid: string, nid: string)

  /** `storage` is what is recorded with each file. */
  datatype State = State(rs: Resources, storage: map<string, Storage>, placed: seq<Placement>)

  /** `Upload` dispatches and, when the node accepts, adds the task and records the storage the
      node provides; `Report` is a state report of an upload task. */
  datatype Event =
    | Upload(now: int, fleet: Fleet, pid: string, fid: string, leftPkgSize: nat, fileSize: nat,
             accepted: bool, provided: Storage)
    | Report(now: int, pid: string, fid: string, nid: string)

  function StorageOf(s: State, fid: string): Storage {
    if fid in s.storage then s.storage[fid] else NoStorage
  }

  function Request(s: State, e: Event): UploadReq
    requires e.Upload?
  {
    UploadReq(e.pid, e.fid, e.leftPkgSize, e.fileSize, StorageOf(s, e.fid))
  }

  /** The node an upload goes to. */
  function Target(mode: Mode, s: State, e: Event): Option<Node>
    requires e.Upload?
  {
    Chosen(mode, s.rs, e.fleet, Request(s, e), e.now)
  }

  predicate Placed(mode: Mode, s: State, e: Event) {
    e.Upload? && e.accepted && Target(mode, s, e).Some?
  }

  function Step(mode: Mode, s: State, e: Event): State {
    match e
    case Report(now, pid, fid, nid) => s.(rs := Update(s.rs, Xid(mode, pid, fid), nid, now))
    case Upload(now, fleet, pid, fid, _, _, _, provided) =>
      var rs := AfterRestrict(mode, s.rs, fleet, Request(s, e), now);
      if !Placed(mode, s, e) then s.(rs := rs)
      else
        var nid := Target(mode, s, e).value.nid;
        State(Add(rs, Xid(mode, pid, fid), nid, EXPIRE, now),
              if StorageOf(s, fid).NoStorage? then s.storage[fid := provided] else s.storage,
              s.placed + [Placement(pid, fid, nid)])
  }

  function Run(mode: Mode, es: seq<Event>): State {
    if es == [] then State(map[], map[], [])
    else Step(mode, Run(mode, es[..|es| - 1]), es[|es| - 1])
  }

  /** The fleet knows nodes by their own ids. */
  predicate FleetFits(fleet: Fleet) {
    forall nid :: nid in fleet.online ==> fleet.online[nid].nid == nid
  }

  ghost predicate FleetsFit(es: seq<Event>) {
    forall i :: 0 <= i < |es| && es[i].Upload? ==> FleetFits(es[i].fleet)
  }

  // ---------------------------------------------------------------- one node per file

  ghost predicate OneNodePerFile(s: State) {
    forall p, q :: p in s.placed && q in s.placed && p.fid == q.fid ==> p.nid == q.nid
  }

  /** The node that takes the first segment of a file records itself as the file's host. */
  predicate RecordsItself(mode: Mode, s: State, e: Event) {
    Placed(mode, s, e) && StorageOf(s, e.fid).NoStorage? ==>
      e.provided == FileUrl(Target(mode, s, e).value.nid)
  }

  ghost predicate LocalStorage(mode: Mode, es: seq<Event>) {
    es != [] ==>
      LocalStorage(mode, es[..|es| - 1]) && RecordsItself(mode, Run(mode, es[..|es| - 1]), es[|es| - 1])
  }

  /** Would the affinity send this upload away from the file's host? */
  predicate Strays(mode: Mode, s: State, e: Event) {
    && Placed(mode, s, e)
    && StorageOf(s, e.fid).FileUrl?
    && Restricted(mode, s.rs, e.fleet, Request(s, e), e.now)
    && s.rs[Xid(mode, e.pid, e.fid)].nid != StorageOf(s, e.fid).host
  }

  ghost predicate NeverStrays(mode: Mode, es: seq<Event>) {
    es != [] ==>
      NeverStrays(mode, es[..|es| - 1]) && !Strays(mode, Run(mode, es[..|es| - 1]), es[|es| - 1])
  }

  /** The recorded host of a file is where all its segments went. */
  ghost predicate HostsFit(s: State) {
    && (forall p :: p in s.placed ==> p.fid in s.storage && s.storage[p.fid] == FileUrl(p.nid))
    && (forall fid :: fid in s.storage ==>
          s.storage[fid].FileUrl? && exists p :: p in s.placed && p.fid == fid)
  }

  /** The affinity of a file, if any, names the file's host. */
  ghost predicate AffinityFits(s: State) {
    forall fid :: fid in s.rs ==> fid in s.storage && s.storage[fid] == FileUrl(s.rs[fid].nid)
  }

  lemma StepHosts(mode: Mode, s: State, e: Event)
    requires HostsFit(s) && (e.Upload? ==> FleetFits(e.fleet)) && RecordsItself(mode, s, e)
    requires !Strays(mode, s, e)
    ensures HostsFit(Step(mode, s, e))
  {
    var t := Step(mode, s, e);
    if Placed(mode, s, e) {
      var p := Placement(e.pid, e.fid, Target(mode, s, e).value.nid);
      assert t.placed == s.placed + [p];
      assert p in t.placed;
      forall fid | fid in t.storage
        ensures t.storage[fid].FileUrl? && exists p :: p in t.placed && p.fid == fid
      {
        if fid != e.fid {
          var q :| q in s.placed && q.fid == fid;
          assert q in t.placed;
        }
      }
    }
  }

  lemma StrayBreaks(mode: Mode, s: State, e: Event)
    requires HostsFit(s) && (e.Upload? ==> FleetFits(e.fleet)) && Strays(mode, s, e)
    ensures !OneNodePerFile(Step(mode, s, e))
  {
    var t := Step(mode, s, e);
    var p := Placement(e.pid, e.fid, Target(mode, s, e).value.nid);
    var q :| q in s.placed && q.fid == e.fid;
    assert t.placed == s.placed + [p];
    assert p in t.placed && q in t.placed;
  }

  lemma {:induction false} RunHosts(mode: Mode, es: seq<Event>)
    requires FleetsFit(es) && LocalStorage(mode, es) && NeverStrays(mode, es)
    ensures HostsFit(Run(mode, es))
  {
    if es != [] {
      RunHosts(mode, es[..|es| - 1]);
      StepHosts(mode, Run(mode, es[..|es| - 1]), es[|es| - 1]);
    }
  }

  /** In either mode the segments of every file stay on one node if and only if no upload of the
      run finds an affinity, alive and with room, that names another node than the file's host. */
  lemma {:induction false} OneNodePerFileExactly(mode: Mode, es: seq<Event>)
    requires FleetsFit(es) && LocalStorage(mode, es)
    ensures OneNodePerFile(Run(mode, es)) <==> NeverStrays(mode, es)
  {
    if NeverStrays(mode, es) {
      RunHosts(mode, es);
    } else {
      var before, e := es[..|es| - 1], es[|es| - 1];
      var s, t := Run(mode, before), Run(mode, es);
      OneNodePerFileExactly(mode, before);
      if NeverStrays(mode, before) {
        RunHosts(mode, before);
        StrayBreaks(mode, s, e);
      } else {
        assert forall p :: p in s.placed ==> p in t.placed;
      }
    }
  }

  lemma StepAffinity(s: State, e: Event)
    requires HostsFit(s) && AffinityFits(s) && RecordsItself(ByFid, s, e)
    requires e.Upload? ==> FleetFits(e.fleet)
    ensures !Strays(ByFid, s, e)
    ensures AffinityFits(Step(ByFid, s, e))
  {
  }

  lemma {:induction false} FidModeNeverStrays(es: seq<Event>)
    requires FleetsFit(es) && LocalStorage(ByFid, es)
    ensures NeverStrays(ByFid, es) && AffinityFits(Run(ByFid, es))
  {
    if es != [] {
      var before := es[..|es| - 1];
      FidModeNeverStrays(before);
      RunHosts(ByFid, before);
      StepAffinity(Run(ByFid, before), es[|es| - 1]);
    }
  }

  /** In fid mode all segments of a file go to the node that took the first one, over every run:
      across expiry, nodes going offline and shortage of space. */
  lemma OneNodePerFileInFidMode(es: seq<Event>)
    requires FleetsFit(es) && LocalStorage(ByFid, es)
    ensures OneNodePerFile(Run(ByFid, es))
  {
    FidModeNeverStrays(es);
    OneNodePerFileExactly(ByFid, es);
  }

  lemma NoEvents(mode: Mode)
    ensures Run(mode, []) == State(map[], map[], []) && FleetsFit([]) && LocalStorage(mode, [])
  {
  }

  lemma Extend(mode: Mode, es: seq<Event>, e: Event)
    ensures Run(mode, es + [e]) == Step(mode, Run(mode, es), e)
    ensures LocalStorage(mode, es + [e]) <==> LocalStorage(mode, es) && RecordsItself(mode, Run(mode, es), e)
    ensures FleetsFit(es + [e]) <==> FleetsFit(es) && (e.Upload? ==> FleetFits(e.fleet))
  {
    assert (es + [e])[..|es + [e]| - 1] == es;
    assert forall i :: 0 <= i < |es| ==> (es + [e])[i] == es[i];
    assert (es + [e])[|es|] == e;
  }

  lemma StrayRun(mode: Mode, es: seq<Event>, e: Event)
    requires FleetsFit(es + [e]) && LocalStorage(mode, es + [e]) && Strays(mode, Run(mode, es), e)
    ensures !OneNodePerFile(Run(mode, es + [e]))
  {
    assert (es + [e])[..|es + [e]| - 1] == es;
    OneNodePerFileExactly(mode, es + [e]);
  }

  lemma SplitStart(a: Node, e: Event, fleet: Fleet)
    requires a.nid == "a" && fleet.upload != [] && fleet.upload[0] == a && a in fleet.free && fleet.free[a] == 100
    requires e == Upload(0, fleet, "p", "f", 20, 10, true, FileUrl("a"))
    ensures var s := State(map[], map[], []);
      && Target(ByPid, s, e) == Some(a)
      && Step(ByPid, s, e) == State(map["p" := Resource("a", 0, EXPIRE)], map["f" := FileUrl("a")], [Placement("p", "f", "a")])
  {
  }

  lemma SplitExpired(b: Node, s: State, e: Event, fleet: Fleet)
    requires b.nid == "b" && fleet.upload != [] && fleet.upload[0] == b && b in fleet.free && fleet.free[b] == 100
    requires e == Upload(301, fleet, "p", "g", 20, 10, true, FileUrl("b"))
    requires s.rs == map["p" := Resource("a", 0, EXPIRE)] && "g" !in s.storage
    ensures Target(ByPid, s, e) == Some(b)
    ensures Step(ByPid, s, e) == State(
        map["p" := Resource("b", 301, EXPIRE)],
        s.storage["g" := FileUrl("b")],
        s.placed + [Placement("p", "g", "b")])
  {
  }

  lemma SplitDrawn(b: Node, s: State, e: Event, fleet: Fleet)
    requires fleet.online == map["b" := b] && fleet.free == map[b := 100]
    requires e == Upload(302, fleet, "p", "f", 20, 10, true, FileUrl("b"))
    requires s.rs == map["p" := Resource("b", 301, EXPIRE)]
    requires "f" in s.storage && s.storage["f"] == FileUrl("a")
    ensures Strays(ByPid, s, e) && RecordsItself(ByPid, s, e)
  {
  }

  lemma SplitSteps(a: Node, b: Node) returns (e0: Event, e1: Event, e2: Event)
    requires a.nid == "a" && b.nid == "b"
    ensures e0.Upload? && FleetFits(e0.fleet) && e1.Upload? && FleetFits(e1.fleet) && e2.Upload? && FleetFits(e2.fleet)
    ensures var s0 := State(map[], map[], []);
      var s1 := Step(ByPid, s0, e0);
      var s2 := Step(ByPid, s1, e1);
      && RecordsItself(ByPid, s0, e0) && RecordsItself(ByPid, s1, e1) && RecordsItself(ByPid, s2, e2)
      && Strays(ByPid, s2, e2)
  {
    var all := Fleet(map["a" := a, "b" := b], map[a := 100, b := 100], map[], [a, b]);
    var later := all.(upload := [b, a]);
    var left := Fleet(map["b" := b], map[b := 100], map[], [b]);
    e0 := Upload(0, all, "p", "f", 20, 10, true, FileUrl("a"));
    e1 := Upload(301, later, "p", "g", 20, 10, true, FileUrl("b"));
    e2 := Upload(302, left, "p", "f", 20, 10, true, FileUrl("b"));
    SplitStart(a, e0, all);
    hide Step, Target;
    var s1 := Step(ByPid, State(map[], map[], []), e0);
    SplitExpired(b, s1, e1, later);
    SplitDrawn(b, Step(ByPid, s1, e1), e2, left);
  }

  /** In pid mode a file can be split: its package expires, another file of the package starts on
      a second node, and the affinity then draws the first file there. */
  lemma PidModeCanSplitAFile(a: Node, b: Node)
    requires a.nid == "a" && b.nid == "b"
    ensures exists es :: FleetsFit(es) && LocalStorage(ByPid, es) && !OneNodePerFile(Run(ByPid, es))
  {
    hide *;
    var e0, e1, e2 := SplitSteps(a, b);
    var es0, es1 := [] + [e0], [] + [e0] + [e1];
    NoEvents(ByPid);
    Extend(ByPid, [], e0);
    Extend(ByPid, es0, e1);
    Extend(ByPid, es1, e2);
    StrayRun(ByPid, es1, e2);
  }

  // ---------------------------------------------------------------- a package stays on its node

  /** An upload of the package, or a state report of it from its node. */
  predicate Uses(e: Event, pid: string, nid: string) {
    e.pid == pid && (e.Report? ==> e.nid == nid)
  }

  /** Between two uses of the package, counted from time `last`, no more than the expiry passes. */
  ghost predicate GapsFit(es: seq<Event>, pid: string, nid: string, last: int) {
    es != [] ==>
      if Uses(es[0], pid, nid)
      then es[0].now - last <= EXPIRE && GapsFit(es[1..], pid, nid, es[0].now)
      else GapsFit(es[1..], pid, nid, last)
  }

  ghost predicate Chronological(es: seq<Event>) {
    forall i, j :: 0 <= i < j < |es| ==> es[i].now <= es[j].now
  }

  /** Whenever the package is uploaded its node is online with room for what is left of it. */
  ghost predicate HasRoom(es: seq<Event>, pid: string, nid: string) {
    forall i :: 0 <= i < |es| && es[i].Upload? && es[i].pid == pid ==>
      var fleet := es[i].fleet;
      nid in fleet.online && fleet.online[nid].nid == nid
      && fleet.online[nid] in fleet.free && fleet.free[fleet.online[nid]] > es[i].leftPkgSize
  }

  /** All uploads of the package among `es` go to `nid`. */
  ghost predicate StaysOn(s: State, es: seq<Event>, pid: string, nid: string)
    decreases |es|
  {
    es != [] ==>
      && (es[0].Upload? && es[0].pid == pid ==> Target(ByPid, s, es[0]).Some? && Target(ByPid, s, es[0]).value.nid == nid)
      && StaysOn(Step(ByPid, s, es[0]), es[1..], pid, nid)
  }

  ghost predicate UploadsAhead(es: seq<Event>, pid: string) {
    exists i :: 0 <= i < |es| && es[i].Upload? && es[i].pid == pid
  }

  lemma {:induction false} NothingAhead(s: State, es: seq<Event>, pid: string, nid: string)
    requires !UploadsAhead(es, pid)
    ensures StaysOn(s, es, pid, nid)
    decreases |es|
  {
    if es != [] {
      assert forall i :: 0 <= i < |es[1..]| ==> es[1..][i] == es[i + 1];
      NothingAhead(Step(ByPid, s, es[0]), es[1..], pid, nid);
    }
  }

  lemma {:induction false} AliveUntilUsed(es: seq<Event>, pid: string, nid: string, last: int)
    requires Chronological(es) && GapsFit(es, pid, nid, last) && UploadsAhead(es, pid)
    ensures es[0].now - last <= EXPIRE
  {
    if !Uses(es[0], pid, nid) {
      assert forall i :: 0 <= i < |es[1..]| ==> es[1..][i] == es[i + 1];
      AliveUntilUsed(es[1..], pid, nid, last);
    }
  }

  lemma StepKeepsAffinity(s: State, e: Event, pid: string, nid: string, last: int)
    requires nid != "" && pid in s.rs && s.rs[pid] == Resource(nid, last, EXPIRE) && e.now - last <= EXPIRE
    requires HasRoom([e], pid, nid)
    ensures e.Upload? && e.pid == pid ==> Target(ByPid, s, e).Some? && Target(ByPid, s, e).value.nid == nid
    ensures var t := Step(ByPid, s, e);
      pid in t.rs && t.rs[pid] == Resource(nid, if Uses(e, pid, nid) then e.now else last, EXPIRE)
  {
    assert [e][0] == e;
  }

  /** Once a package has its affinity, every upload of it goes to the same node, provided the
      node stays online with room and uses of the package are no more than the expiry apart. */
  lemma {:induction false} PackageSticks(s: State, es: seq<Event>, pid: string, nid: string, last: int)
    requires nid != "" && pid in s.rs && s.rs[pid] == Resource(nid, last, EXPIRE)
    requires Chronological(es) && GapsFit(es, pid, nid, last) && HasRoom(es, pid, nid)
    ensures StaysOn(s, es, pid, nid)
    decreases |es|
  {
    if !UploadsAhead(es, pid) {
      NothingAhead(s, es, pid, nid);
    } else {
      assert forall i :: 0 <= i < |es[1..]| ==> es[1..][i] == es[i + 1];
      AliveUntilUsed(es, pid, nid, last);
      assert [es[0]][0] == es[0];
      StepKeepsAffinity(s, es[0], pid, nid, last);
      PackageSticks(Step(ByPid, s, es[0]), es[1..], pid, nid, if Uses(es[0], pid, nid) then es[0].now else last);
    }
  }

  /** The node first chosen for a package, in any state, keeps it. */
  lemma FirstChoiceKeepsPackage(s: State, e: Event, es: seq<Event>)
    requires Placed(ByPid, s, e) && FleetFits(e.fleet)
    requires var nid := Target(ByPid, s, e).value.nid;
      && nid != ""
      && Chronological(es) && GapsFit(es, e.pid, nid, e.now) && HasRoom(es, e.pid, nid)
    ensures StaysOn(Step(ByPid, s, e), es, e.pid, Target(ByPid, s, e).value.nid)
  {
    PackageSticks(Step(ByPid, s, e), es, e.pid, Target(ByPid, s, e).value.nid, e.now);
  }
}
