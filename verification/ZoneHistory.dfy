/** The node manager's map and the observers' queues, told by the logins, logouts, reloads and
    dispatches of the run: who is online, in which zone, and whose turn it is. */
module ZoneHistory {
  import R = RoundRobin
  import opened ZoneIndex

  // ---------------------------------------------------------------- who is online

  /** Node id `nid` logged in at step `i` and not out after that. */
  predicate LoggedIn<T>(es: seq<Event<T>>, i: nat, nid: string) {
    && i < |es| && es[i].Login? && es[i].nid == nid
    && forall j: nat :: i < j < |es| ==> es[j] != Logout(nid)
  }

  lemma LoggedInNext<T>(es: seq<Event<T>>, i: nat, nid: string)
    requires es != []
    ensures var before, e := es[..|es| - 1], es[|es| - 1];
      LoggedIn(es, i, nid) <==>
        if i == |before| then e.Login? && e.nid == nid else LoggedIn(before, i, nid) && e != Logout(nid)
  {
    var before := es[..|es| - 1];
    assert forall j: nat :: j < |before| ==> es[j] == before[j];
  }

  lemma StepOnline<T>(s: State<T>, e: Event<T>, nid: string)
    requires NodesFit(s)
    ensures var online := Step(s, e).online;
      && (nid in online <==> (e.Login? && e.nid == nid) || (nid in s.online && e != Logout(nid)))
      && (nid in online ==> online[nid] == if e.Login? && e.nid == nid then e.n else s.online[nid])
  {
    if e.Logout? && e.nid in s.online { assert s.online[e.nid] in s.online.Values; }
  }

  /** A node is online if and only if it logged in and not out since, and it is known by the connection of
      that login. */
  lemma {:induction false} OnlineExactly<T>(es: seq<Event<T>>, nid: string)
    requires FreshLogins(es)
    ensures nid in Run(es).online <==> exists i: nat :: LoggedIn(es, i, nid)
    ensures nid in Run(es).online ==> exists i: nat :: LoggedIn(es, i, nid) && es[i].n == Run(es).online[nid]
    decreases |es|
  {
    if es != [] {
      var before, e := es[..|es| - 1], es[|es| - 1];
      OnlineExactly(before, nid);
      QueuesFollowNodes(before);
      StepOnline(Run(before), e, nid);
      forall i: nat
        ensures LoggedIn(es, i, nid) <==>
          if i == |before| then e.Login? && e.nid == nid else LoggedIn(before, i, nid) && e != Logout(nid)
        ensures LoggedIn(before, i, nid) ==> i < |before| && es[i] == before[i]
      {
        LoggedInNext(es, i, nid);
      }
      assert !LoggedIn(before, |before|, nid);
      assert es[|before|] == e;
      hide Step, LoggedIn, FreshLogins, NodesFit, QueueFits;
      if e.Login? && e.nid == nid {
        assert LoggedIn(es, |before|, nid);
      } else if nid in Run(es).online {
        var i: nat :| LoggedIn(before, i, nid) && before[i].n == Run(before).online[nid];
        assert LoggedIn(es, i, nid);
      }
    }
  }

  /** Event `i` puts node id `nid` into zone `z`, and none after it moves it. */
  predicate Settled<T>(es: seq<Event<T>>, i: nat, nid: string, z: string) {
    && i < |es| && Moves(es[i], nid) && es[i].zone == z
    && forall j: nat :: i < j < |es| ==> !Moves(es[j], nid)
  }

  predicate Moves<T>(e: Event<T>, nid: string) {
    (e.Login? || e.Reload?) && e.nid == nid
  }

  lemma SettledStays<T>(es: seq<Event<T>>, i: nat, nid: string, z: string)
    requires es != [] && Settled(es[..|es| - 1], i, nid, z) && !Moves(es[|es| - 1], nid)
    ensures Settled(es, i, nid, z)
  {
    hide Moves;
    var before := es[..|es| - 1];
    assert forall j: nat :: j < |before| ==> es[j] == before[j];
  }

  lemma StepZone<T>(s: State<T>, e: Event<T>, nid: string)
    requires Agrees(s) && (e.Login? ==> e.nid !in s.online && e.n !in s.zoneOf)
    requires nid in Step(s, e).online
    ensures var t := Step(s, e);
      && t.online[nid] in t.zoneOf
      && (Moves(e, nid) ==> t.zoneOf[t.online[nid]] == e.zone)
      && (!Moves(e, nid) ==> nid in s.online && s.online[nid] in s.zoneOf && t.zoneOf[t.online[nid]] == s.zoneOf[s.online[nid]])
  {
    StepOnline(s, e, nid);
    if nid in s.online { assert s.online[nid] in s.online.Values; }
    if e.Login? { assert Step(s, e).online[e.nid] in Step(s, e).online.Values; }
    assert Step(s, e).online[nid] in Step(s, e).online.Values;
  }

  /** A node that is online is in the zone of its latest login or reload. */
  lemma {:induction false} ZoneExactly<T>(es: seq<Event<T>>, nid: string)
    requires FreshLogins(es) && nid in Run(es).online
    ensures var s := Run(es); s.online[nid] in s.zoneOf && exists i: nat :: Settled(es, i, nid, s.zoneOf[s.online[nid]])
    decreases |es|
  {
    assert es != [];
    var before, e := es[..|es| - 1], es[|es| - 1];
    QueuesFollowNodes(before);
    StepZone(Run(before), e, nid);
    var z := Run(es).zoneOf[Run(es).online[nid]];
    if Moves(e, nid) {
      assert Settled(es, |es| - 1, nid, z);
    } else {
      ZoneExactly(before, nid);
      hide Step, FreshLogins, Agrees, Run, Settled, Moves;
      var i: nat :| Settled(before, i, nid, z);
      SettledStays(es, i, nid, z);
    }
  }

  // ---------------------------------------------------------------- whose turn it is

  /** What the event is for the upload queue. */
  function UploadTurn<T(==)>(s: State<T>, e: Event<T>): seq<R.Event<T>> {
    match e
    case Login(_, n, _) => [R.PutE(n)]
    case Logout(nid) => if nid in s.online then [R.PopE(s.online[nid])] else []
    case DispatchUpload(filter) => [R.GetE(filter)]
    case _ => []
  }

  /** What it is for the queue of zone `z`. */
  function ZoneTurn<T(==)>(s: State<T>, e: Event<T>, z: string): seq<R.Event<T>> {
    match e
    case Login(_, n, zone) => if zone == z then [R.PutE(n)] else []
    case Logout(nid) => if OnlineIn(s, nid, z) then [R.PopE(s.online[nid])] else []
    case Reload(nid, zone) =>
      if OnlineIn(s, nid, z) && zone != z then [R.PopE(s.online[nid])]
      else if nid in s.online && !OnlineIn(s, nid, z) && zone == z then [R.PutE(s.online[nid])]
      else []
    case Dispatch(zone) => if zone == z then [R.GetE(R.NoFilter)] else []
    case _ => []
  }

  function UploadTurns<T(==)>(es: seq<Event<T>>): seq<R.Event<T>> {
    if es == [] then []
    else UploadTurns(es[..|es| - 1]) + UploadTurn(Run(es[..|es| - 1]), es[|es| - 1])
  }

  function ZoneTurns<T(==)>(es: seq<Event<T>>, z: string): seq<R.Event<T>> {
    if es == [] then []
    else ZoneTurns(es[..|es| - 1], z) + ZoneTurn(Run(es[..|es| - 1]), es[|es| - 1], z)
  }

  function QueueOf<T>(s: State<T>, z: string): seq<T> {
    if z in s.zones then s.zones[z] else []
  }

  lemma QueueNext<T>(turns: seq<R.Event<T>>, turn: seq<R.Event<T>>)
    requires |turn| <= 1
    ensures R.Queue(turns + turn) == if turn == [] then R.Queue(turns) else R.AfterEvent(R.Queue(turns), turn[0])
    ensures R.PutOnce(turns) && (turn != [] && turn[0].PutE? ==> turn[0].u !in R.Queue(turns)) ==> R.PutOnce(turns + turn)
  {
    if turn == [] {
      assert turns + turn == turns;
    } else {
      assert (turns + turn)[..|turns + turn| - 1] == turns;
    }
  }

  lemma StepUploadQueue<T>(s: State<T>, e: Event<T>)
    requires Agrees(s) && (e.Login? ==> e.nid !in s.online && e.n !in s.zoneOf)
    ensures var turn := UploadTurn(s, e);
      && Step(s, e).upload == (if turn == [] then s.upload else R.AfterEvent(s.upload, turn[0]))
      && (turn != [] && turn[0].PutE? ==> turn[0].u !in s.upload)
  {
    if e.Login? { assert e.n !in Members(s.upload); }
    if e.Logout? && e.nid in s.online { assert s.online[e.nid] in s.online.Values; }
  }

  /** The upload queue is that of a round robin in which nodes are put when they log in, popped when they
      log out, and asked for by the uploads: the node served is the one unused longest. */
  lemma {:induction false} UploadsInTurn<T>(es: seq<Event<T>>)
    requires FreshLogins(es)
    ensures Run(es).upload == R.Queue(UploadTurns(es)) && R.PutOnce(UploadTurns(es))
  {
    if es != [] {
      var before, e := es[..|es| - 1], es[|es| - 1];
      UploadsInTurn(before);
      QueuesFollowNodes(before);
      StepUploadQueue(Run(before), e);
      QueueNext(UploadTurns(before), UploadTurn(Run(before), e));
      hide Step, FreshLogins, Agrees, R.AfterEvent, R.Queue, R.PutOnce;
    }
  }

  lemma QueueLocates<T>(s: State<T>, z: string)
    requires Agrees(s) && z != ""
    ensures forall n :: n in QueueOf(s, z) <==> n in s.zoneOf && s.zoneOf[n] == z
  {
    assert QueueFits(s.zones, s.zoneOf, z);
    forall n
      ensures n in QueueOf(s, z) <==> n in s.zoneOf && s.zoneOf[n] == z
    {
      if n in QueueOf(s, z) { assert n in Members(s.zones[z]); }
      if n in s.zoneOf && s.zoneOf[n] == z { assert n in Located(s.zoneOf, z); }
    }
  }

  lemma AddedQueue<T>(zones: map<string, seq<T>>, zone: string, n: T, z: string)
    requires z != ""
    ensures var after, q := ZoneAdd(zones, zone, n), if z in zones then zones[z] else [];
      (if z in after then after[z] else []) == if zone == z then q + [n] else q
  {
  }

  lemma DroppedQueue<T>(zones: map<string, seq<T>>, zone: string, n: T, z: string)
    requires z != ""
    ensures var after, q := ZoneDelNode(zones, zone, n), if z in zones then zones[z] else [];
      (if z in after then after[z] else []) == if zone == z then R.AfterPop(q, n) else q
  {
  }

  lemma StepZoneQueue<T>(s: State<T>, e: Event<T>, z: string)
    requires Agrees(s) && (e.Login? ==> e.nid !in s.online && e.n !in s.zoneOf) && z != ""
    ensures var turn := ZoneTurn(s, e, z);
      && QueueOf(Step(s, e), z) == (if turn == [] then QueueOf(s, z) else R.AfterEvent(QueueOf(s, z), turn[0]))
      && (turn != [] && turn[0].PutE? ==> turn[0].u !in QueueOf(s, z))
  {
    QueueLocates(s, z);
    if (e.Logout? || e.Reload?) && e.nid in s.online { assert s.online[e.nid] in s.online.Values; }
    hide R.AfterPop, QueueFits, Located, Members, ZoneAdd, ZoneDelNode;
    match e
    case Login(_, n, zone) => AddedQueue(s.zones, zone, n, z);
    case Logout(nid) => if nid in s.online { DroppedQueue(s.zones, s.zoneOf[s.online[nid]], s.online[nid], z); }
    case Reload(nid, zone) =>
      if nid in s.online {
        var n := s.online[nid];
        DroppedQueue(s.zones, s.zoneOf[n], n, z);
        AddedQueue(ZoneDelNode(s.zones, s.zoneOf[n], n), zone, n, z);
      }
    case _ =>
  }

  /** So is the queue of each zone, in which nodes are also put and popped when they change zones, for the
      downloads from it. */
  lemma {:induction false} DownloadsInTurn<T>(es: seq<Event<T>>, z: string)
    requires FreshLogins(es) && z != ""
    ensures QueueOf(Run(es), z) == R.Queue(ZoneTurns(es, z)) && R.PutOnce(ZoneTurns(es, z))
  {
    if es != [] {
      var before, e := es[..|es| - 1], es[|es| - 1];
      DownloadsInTurn(before, z);
      QueuesFollowNodes(before);
      StepZoneQueue(Run(before), e, z);
      QueueNext(ZoneTurns(before, z), ZoneTurn(Run(before), e, z));
      hide Step, FreshLogins, Agrees, R.AfterEvent, R.Queue, R.PutOnce, QueueOf;
    }
  }

  /** A download from a zone goes to the node of the zone whose last turn, or arrival, is the longest ago. */
  lemma DownloadsLeastRecentlyUsed<T>(es: seq<Event<T>>, z: string)
    requires FreshLogins(es) && z != "" && ZoneServed(Run(es).zones, z).Some?
    ensures var q, n := QueueOf(Run(es), z), ZoneServed(Run(es).zones, z).value;
      n in q && forall m :: m in q && m != n ==> R.LastUse(ZoneTurns(es, z), n) < R.LastUse(ZoneTurns(es, z), m)
  {
    DownloadsInTurn(es, z);
    R.LeastRecentlyUsed(ZoneTurns(es, z), R.NoFilter);
    hide R.LastUse, R.Queue, FreshLogins;
  }

  /** An upload goes to the node with room whose last turn, or arrival, is the longest ago. */
  lemma UploadsLeastRecentlyUsed<T>(es: seq<Event<T>>, filter: R.Filter<T>)
    requires FreshLogins(es) && R.Served(Run(es).upload, filter).Some?
    ensures var q, n := Run(es).upload, R.Served(Run(es).upload, filter).value;
      && n in q && filter.Accepts(n)
      && forall m :: m in q && filter.Accepts(m) && m != n ==>
           R.LastUse(UploadTurns(es), n) < R.LastUse(UploadTurns(es), m)
  {
    UploadsInTurn(es);
    R.LeastRecentlyUsed(UploadTurns(es), filter);
    hide R.LastUse, R.Queue, FreshLogins;
  }
}
