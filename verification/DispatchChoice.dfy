/** Which node an upload or a download is given, in the terms of the request and of the nodes: what
    room it has, how old the affinity is, and what the queues do. */
module DispatchChoice {
  import opened RoundRobin
  import opened Nodes
  import opened Dispatch
  import Z = ZoneIndex
  import D = Dispatch

  /** The free storage of every node online or queued is known. */
  predicate FreeKnown(fleet: Fleet) {
    && (forall nid :: nid in fleet.online ==> fleet.online[nid] in fleet.free)
    && (forall n :: n in fleet.upload ==> n in fleet.free)
  }

  /** A package or file was sent to a node that is online, no longer ago than the affinity lasts. */
  predicate LiveAffinity(rs: Resources, fleet: Fleet, xid: string, now: int) {
    && xid in rs && now <= rs[xid].timestamp + rs[xid].expire
    && rs[xid].nid != "" && rs[xid].nid in fleet.online
  }

  /** Does the affinity decide? Then its node has more room than needed. */
  predicate ByAffinity(mode: Mode, rs: Resources, fleet: Fleet, req: UploadReq, now: int)
    requires FreeKnown(fleet)
  {
    match mode
    case ByPid =>
      LiveAffinity(rs, fleet, req.pid, now) && fleet.free[fleet.online[rs[req.pid].nid]] > req.leftPkgSize
    case ByFid =>
      LiveAffinity(rs, fleet, req.fid, now) && fleet.free[fleet.online[rs[req.fid].nid]] > req.fileSize
  }

  // ---------------------------------------------------------------- room

  /** In pid mode: a live affinity of the package decides if and only if its node has more room than what
      is left of the package; else the file's storage does; else the first queued node with at least that
      room, if there is one. */
  lemma ChosenByPid(rs: Resources, fleet: Fleet, req: UploadReq, now: int)
    requires FreeKnown(fleet)
    ensures var n := Chosen(ByPid, rs, fleet, req, now);
      if LiveAffinity(rs, fleet, req.pid, now) && fleet.free[fleet.online[rs[req.pid].nid]] > req.leftPkgSize
      then n == Some(fleet.online[rs[req.pid].nid])
      else if req.storage == NoStorage then FirstWithRoom(fleet, req.leftPkgSize, n)
      else n == AtStorage(fleet, req.storage)
  {
    FirstServed(fleet, req.leftPkgSize);
  }

  /** In fid mode: a live affinity of the file, and the size of the file. */
  lemma ChosenByFid(rs: Resources, fleet: Fleet, req: UploadReq, now: int)
    requires FreeKnown(fleet)
    ensures var n := Chosen(ByFid, rs, fleet, req, now);
      if LiveAffinity(rs, fleet, req.fid, now) && fleet.free[fleet.online[rs[req.fid].nid]] > req.fileSize
      then n == Some(fleet.online[rs[req.fid].nid])
      else if req.storage == NoStorage then FirstWithRoom(fleet, req.fileSize, n)
      else n == AtStorage(fleet, req.storage)
  {
    FirstServed(fleet, req.fileSize);
  }

  /** `n` is the first queued node with at least this room. */
  ghost predicate FirstWithRoom(fleet: Fleet, size: nat, n: Option<Node>)
    requires FreeKnown(fleet)
  {
    match n
    case None => forall m :: m in fleet.upload ==> fleet.free[m] < size
    case Some(m) =>
      exists i :: 0 <= i < |fleet.upload| && fleet.upload[i] == m && fleet.free[m] >= size
        && forall j :: 0 <= j < i ==> fleet.free[fleet.upload[j]] < size
  }

  lemma FirstServed(fleet: Fleet, size: nat)
    requires FreeKnown(fleet)
    ensures FirstWithRoom(fleet, size, Served(fleet.upload, BySize(fleet.free, size)))
  {
    var i := FirstAccepted(fleet.upload, BySize(fleet.free, size));
    if i == |fleet.upload| {
      forall m | m in fleet.upload
        ensures fleet.free[m] < size
      {
        var j :| 0 <= j < |fleet.upload| && fleet.upload[j] == m;
        assert !BySize(fleet.free, size).Accepts(fleet.upload[j]);
      }
    } else {
      forall j | 0 <= j < i
        ensures fleet.free[fleet.upload[j]] < size
      {
        assert !BySize(fleet.free, size).Accepts(fleet.upload[j]);
        assert fleet.upload[j] in fleet.upload;
      }
    }
  }

  /** A node chosen for a file without storage has room for what is left of the package, or for the
      file. */
  lemma ChosenHasRoom(mode: Mode, rs: Resources, fleet: Fleet, req: UploadReq, now: int)
    requires FreeKnown(fleet) && req.storage == NoStorage && Chosen(mode, rs, fleet, req, now).Some?
    ensures var n := Chosen(mode, rs, fleet, req, now).value;
      n in fleet.free && fleet.free[n] >= match mode case ByPid => req.leftPkgSize case ByFid => req.fileSize
  {
    match mode
    case ByPid => ChosenByPid(rs, fleet, req, now);
    case ByFid => ChosenByFid(rs, fleet, req, now);
  }

  // ---------------------------------------------------------------- storage

  /** Over any run of fresh logins: a file on a node is found exactly if the node is online, a file in a
      zone exactly if some node of the zone is, and then on such a node; no other storage is found. */
  lemma StorageServesOnline(es: seq<Z.Event<Node>>, fleet: Fleet, storage: Storage)
    requires Z.FreshLogins(es)
    requires fleet.online == Z.Run(es).online && fleet.zones == Z.Run(es).zones
    ensures var s, n := Z.Run(es), AtStorage(fleet, storage);
      match storage
      case FileUrl(h) => (n.Some? <==> h in s.online) && (n.Some? ==> n.value == s.online[h])
      case NasUrl(z) =>
        && (n.Some? <==> z != "" && exists nid :: Z.OnlineIn(s, nid, z))
        && (n.Some? ==> exists nid :: Z.OnlineIn(s, nid, z) && s.online[nid] == n.value)
      case _ => n.None?
  {
    match storage
    case NasUrl(z) =>
      if z == "" {
        Z.QueuesFollowNodes(es);
        assert Z.QueueFits(Z.Run(es).zones, Z.Run(es).zoneOf, z);
      } else {
        Z.ZoneServesOnline(es, z);
      }
    case _ =>
  }

  /** Over any run of fresh logins: an upload of a file without storage finds a node if and only if some
      online node has room for it; if a live affinity does not decide, the first of them in the queue. */
  lemma UploadFindsRoom(es: seq<Z.Event<Node>>, mode: Mode, rs: Resources, fleet: Fleet, req: UploadReq, now: int)
    requires Z.FreshLogins(es) && FreeKnown(fleet) && req.storage == NoStorage
    requires fleet.online == Z.Run(es).online && fleet.upload == Z.Run(es).upload
    ensures Chosen(mode, rs, fleet, req, now).Some? <==>
      exists nid :: nid in fleet.online
        && fleet.free[fleet.online[nid]] >= match mode case ByPid => req.leftPkgSize case ByFid => req.fileSize
    ensures Chosen(mode, rs, fleet, req, now).Some? ==> Chosen(mode, rs, fleet, req, now).value in fleet.online.Values
  {
    var size := match mode case ByPid => req.leftPkgSize case ByFid => req.fileSize;
    match mode {
      case ByPid => ChosenByPid(rs, fleet, req, now);
      case ByFid => ChosenByFid(rs, fleet, req, now);
    }
    Z.UploadServesOnline(es, BySize(fleet.free, size));
  }

  // ---------------------------------------------------------------- the queues

  ghost predicate MovedToBack(before: seq<Node>, after: seq<Node>, n: Node) {
    exists i :: 0 <= i < |before| && before[i] == n && after == before[..i] + before[i + 1..] + [n]
  }

  /** The queue that gave the node has it at the back then, and nothing else moves: no queue for an
      affinity, the upload queue for a file without storage, and the zone's queue for one in a zone. */
  lemma QueuesTurn(mode: Mode, rs: Resources, fleet: Fleet, req: UploadReq, now: int, s: Z.State<Node>)
    requires FreeKnown(fleet) && fleet.zones == s.zones && fleet.upload == s.upload
    ensures var n, event := Chosen(mode, rs, fleet, req, now), QueueEvent(mode, rs, fleet, req, now);
      var t := if event.None? then s else Z.Step(s, event.value);
      && t.online == s.online && t.zoneOf == s.zoneOf
      && if ByAffinity(mode, rs, fleet, req, now) then t == s
         else match req.storage
         case NoStorage =>
           t.zones == s.zones && if n.Some? then MovedToBack(s.upload, t.upload, n.value) else t.upload == s.upload
         case NasUrl(z) =>
           && t.upload == s.upload && t.zones.Keys == s.zones.Keys
           && (forall y :: y in s.zones && y != z ==> t.zones[y] == s.zones[y])
           && (z in s.zones ==> if n.Some? then MovedToBack(s.zones[z], t.zones[z], n.value) else t.zones[z] == s.zones[z])
         case _ => t == s
  {
    assert ByAffinity(mode, rs, fleet, req, now) <==> Restricted(mode, rs, fleet, req, now);
    hide ByAffinity, Restricted;
    match req.storage {
      case NoStorage => Turned(fleet.upload, BySize(fleet.free, ReqSize(mode, req)));
      case NasUrl(z) => if z in s.zones { Turned(s.zones[z], NoFilter); }
      case _ =>
    }
    hide AfterGet, Served, BySize, MovedToBack;
  }

  lemma Turned(q: seq<Node>, filter: Filter<Node>)
    ensures match Served(q, filter)
      case None => AfterGet(q, filter) == q
      case Some(n) => MovedToBack(q, AfterGet(q, filter), n)
  {
  }

  // ---------------------------------------------------------------- the affinity

  /** What an affinity is kept for: the package, or the file. */
  function Key(mode: Mode, e: D.Event): string {
    match mode
    case ByPid => e.pid
    case ByFid => e.fid
  }

  predicate FleetKnown(e: D.Event) {
    e.Upload? ==> FreeKnown(e.fleet)
  }

  /** Is the upload placed, so that the affinity is set? */
  predicate Sets(mode: Mode, s: D.State, e: D.Event, x: string) {
    e.Upload? && Key(mode, e) == x && Placed(mode, s, e) && Target(mode, s, e).value.nid != ""
  }

  /** Is the affinity refreshed: by deciding an upload, or by a report of its node? */
  predicate Refreshes(mode: Mode, s: D.State, e: D.Event, x: string)
    requires FleetKnown(e)
  {
    && Key(mode, e) == x && x in s.rs
    && match e
       case Upload(now, fleet, _, _, _, _, _, _) => ByAffinity(mode, s.rs, fleet, Request(s, e), now)
       case Report(_, _, _, nid) => nid == s.rs[x].nid && nid != ""
  }

  /** Has it lasted too long when an upload is dispatched? */
  predicate Expires(s: D.State, e: D.Event, x: string)
    requires x in s.rs
  {
    e.Upload? && e.now > s.rs[x].timestamp + s.rs[x].expire
  }

  /** What is left of the affinities when an upload was dispatched. */
  lemma DispatchedAffinities(mode: Mode, s: D.State, e: D.Event, x: string)
    requires e.Upload? && FleetKnown(e)
    ensures var rs := AfterRestrict(mode, s.rs, e.fleet, Request(s, e), e.now);
      && (x in rs <==> x in s.rs && !Expires(s, e, x))
      && (x in rs ==> rs[x] == if Refreshes(mode, s, e, x) then s.rs[x].(timestamp := e.now) else s.rs[x])
  {
    assert Restricted(mode, s.rs, e.fleet, Request(s, e), e.now) <==> ByAffinity(mode, s.rs, e.fleet, Request(s, e), e.now);
    hide ByAffinity, Restricted;
  }

  lemma AddedAffinities(rs: Resources, xid: string, nid: string, now: int, x: string)
    requires x in rs && x != xid ==> now <= rs[x].timestamp + rs[x].expire
    ensures var added := Add(rs, xid, nid, EXPIRE, now);
      if nid != "" && x == xid then x in added && added[x] == Resource(nid, now, 300)
      else (x in added <==> x in rs) && (x in added ==> added[x] == rs[x])
  {
  }

  /** A placed upload sets the affinity to its node for five minutes; otherwise it goes only when an
      upload finds it expired, and only a use makes it younger. */
  lemma StepAffinities(mode: Mode, s: D.State, e: D.Event, x: string)
    requires FleetKnown(e)
    ensures var rs := Step(mode, s, e).rs;
      if Sets(mode, s, e, x) then x in rs && rs[x] == Resource(Target(mode, s, e).value.nid, e.now, 300)
      else
        && (x in rs <==> x in s.rs && !Expires(s, e, x))
        && (x in rs ==> rs[x] == if Refreshes(mode, s, e, x) then s.rs[x].(timestamp := e.now) else s.rs[x])
  {
    if e.Upload? {
      var rs := AfterRestrict(mode, s.rs, e.fleet, Request(s, e), e.now);
      DispatchedAffinities(mode, s, e, x);
      if Placed(mode, s, e) {
        AddedAffinities(rs, Key(mode, e), Target(mode, s, e).value.nid, e.now, x);
      }
      hide AfterRestrict, Add, Target, ByAffinity;
    }
  }

  ghost predicate FleetsKnown(es: seq<D.Event>) {
    forall i :: 0 <= i < |es| ==> FleetKnown(es[i])
  }

  /** Event `i` set the affinity of `x` to this node, event `j` used it last, and none did so later. */
  ghost predicate AffinityFrom(mode: Mode, es: seq<D.Event>, i: nat, j: nat, x: string, nid: string, used: int)
    requires FleetsKnown(es)
  {
    && i <= j < |es|
    && Sets(mode, Run(mode, es[..i]), es[i], x) && Target(mode, Run(mode, es[..i]), es[i]).value.nid == nid
    && (j == i || Refreshes(mode, Run(mode, es[..j]), es[j], x)) && es[j].now == used
    && (forall m: nat :: i < m < |es| ==> !Sets(mode, Run(mode, es[..m]), es[m], x))
    && (forall m: nat :: j < m < |es| ==> !Refreshes(mode, Run(mode, es[..m]), es[m], x))
  }

  lemma AffinityStays(mode: Mode, es: seq<D.Event>, i: nat, j: nat, x: string, nid: string, used: int)
    requires es != [] && FleetsKnown(es) && FleetsKnown(es[..|es| - 1])
    requires AffinityFrom(mode, es[..|es| - 1], i, j, x, nid, used)
    requires var s, e := Run(mode, es[..|es| - 1]), es[|es| - 1]; !Sets(mode, s, e, x)
    ensures var s, e := Run(mode, es[..|es| - 1]), es[|es| - 1];
      if Refreshes(mode, s, e, x) then AffinityFrom(mode, es, i, |es| - 1, x, nid, e.now)
      else AffinityFrom(mode, es, i, j, x, nid, used)
  {
    hide Run, Sets, Refreshes, Target;
    var before := es[..|es| - 1];
    forall m: nat | m < |before|
      ensures es[..m] == before[..m] && es[m] == before[m]
    {
    }
  }

  /** Over any run an affinity names the node of the last upload placed for its package or file, and is
      as old as its last use since. */
  lemma {:induction false} AffinityFollowsUses(mode: Mode, es: seq<D.Event>, x: string)
    requires FleetsKnown(es) && x in Run(mode, es).rs
    ensures var r := Run(mode, es).rs[x];
      r.expire == 300 && exists i: nat, j: nat :: AffinityFrom(mode, es, i, j, x, r.nid, r.timestamp)
    decreases |es|
  {
    assert es != [];
    var before, e := es[..|es| - 1], es[|es| - 1];
    var s := Run(mode, before);
    assert FleetKnown(e) && FleetsKnown(before);
    StepAffinities(mode, s, e, x);
    var r := Run(mode, es).rs[x];
    if Sets(mode, s, e, x) {
      assert es[..|es| - 1] == before;
      assert AffinityFrom(mode, es, |es| - 1, |es| - 1, x, r.nid, r.timestamp);
    } else {
      AffinityFollowsUses(mode, before, x);
      hide Step, Sets, Refreshes, Target, AffinityFrom, Expires;
      var i: nat, j: nat :| AffinityFrom(mode, before, i, j, x, s.rs[x].nid, s.rs[x].timestamp);
      AffinityStays(mode, es, i, j, x, s.rs[x].nid, s.rs[x].timestamp);
    }
  }

  /** An affinity decides an upload only within five minutes of its last use, and only for the node on
      which that package or file was placed last. */
  lemma DecidesWhileFresh(mode: Mode, es: seq<D.Event>, e: D.Event)
    requires FleetsKnown(es) && FleetKnown(e) && e.Upload?
    requires ByAffinity(mode, Run(mode, es).rs, e.fleet, Request(Run(mode, es), e), e.now)
    ensures Target(mode, Run(mode, es), e).Some?
    ensures exists i: nat, j: nat ::
      && j < |es| && AffinityFrom(mode, es, i, j, Key(mode, e), Run(mode, es).rs[Key(mode, e)].nid, es[j].now)
      && e.now - es[j].now <= 300
      && Target(mode, Run(mode, es), e).value == e.fleet.online[Run(mode, es).rs[Key(mode, e)].nid]
  {
    var x := Key(mode, e);
    AffinityFollowsUses(mode, es, x);
    var r := Run(mode, es).rs[x];
    var i: nat, j: nat :| AffinityFrom(mode, es, i, j, x, r.nid, r.timestamp);
    assert es[j].now == r.timestamp;
    hide Run, AffinityFrom;
  }
}
