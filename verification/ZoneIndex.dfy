/** The zone index of the NAS scheduler and the upload queue, against the nodes that are online. */
module ZoneIndex {
  import opened RoundRobin

  /** `online` maps a node id to the object of its connection, `zoneOf` gives the zone each
      connected object carries; `zones` and `upload` are the queues the observers keep. */
  datatype State<T(==)> = State(online: map<string, T>, zoneOf: map<T, string>, zones: map<string, seq<T>>, upload: seq<T>)

  // ---------------------------------------------------------------- the observers

  function ZoneAdd<T>(zones: map<string, seq<T>>, zid: string, n: T): map<string, seq<T>> {
    if zid == "" then zones
    else zones[zid := (if zid in zones then zones[zid] else []) + [n]]
  }

  /** A zone whose queue runs empty is dropped. */
  function ZoneDel<T(==)>(zones: map<string, seq<T>>, zid: string, n: T): map<string, seq<T>> {
    if zid !in zones then zones
    else
      var q := AfterPop(zones[zid], n);
      if |q| == 0 then zones - {zid} else zones[zid := q]
  }

  function ZoneDelNode<T(==)>(zones: map<string, seq<T>>, zid: string, n: T): map<string, seq<T>> {
    if zid == "" then zones else ZoneDel(zones, zid, n)
  }

  function ZoneChange<T(==)>(zones: map<string, seq<T>>, n: T, from: string, to: string): map<string, seq<T>> {
    ZoneAdd(ZoneDelNode(zones, from, n), to, n)
  }

  function ZoneServed<T>(zones: map<string, seq<T>>, zid: string): Option<T> {
    if zid in zones then Served(zones[zid], NoFilter) else None
  }

  function AfterDispatch<T>(zones: map<string, seq<T>>, zid: string): map<string, seq<T>> {
    if zid in zones then zones[zid := AfterGet(zones[zid], NoFilter)] else zones
  }

  // ---------------------------------------------------------------- the node manager

  datatype Event<!T> =
    | Login(nid: string, n: T, zone: string)
    | Logout(nid: string)
    | Reload(nid: string, zone: string)
    | Dispatch(zone: string)
    | DispatchUpload(filter: Filter<T>)

  function Relocated<T(==)>(online: map<string, T>, zoneOf: map<T, string>, n: T, zone: string): map<T, string> {
    map m | m in online.Values && (m == n || m in zoneOf) :: if m == n then zone else zoneOf[m]
  }

  function AddNode<T(==)>(s: State<T>, nid: string, n: T, zone: string): State<T> {
    var online := s.online[nid := n];
    State(online,
          Relocated(online, s.zoneOf, n, zone),
          ZoneAdd(s.zones, zone, n),
          s.upload + [n])
  }

  function DelNode<T(==)>(s: State<T>, nid: string): State<T> {
    if nid !in s.online || s.online[nid] !in s.zoneOf then s
    else
      var n, online := s.online[nid], s.online - {nid};
      State(online,
            map m | m in online.Values && m in s.zoneOf :: s.zoneOf[m],
            ZoneDelNode(s.zones, s.zoneOf[n], n),
            AfterPop(s.upload, n))
  }

  function ReloadModel<T(==)>(s: State<T>, nid: string, zone: string): State<T> {
    if nid !in s.online || s.online[nid] !in s.zoneOf || s.zoneOf[s.online[nid]] == zone then s
    else
      var n := s.online[nid];
      s.(zones := ZoneChange(s.zones, n, s.zoneOf[n], zone), zoneOf := s.zoneOf[n := zone])
  }

  function Step<T(==)>(s: State<T>, e: Event<T>): State<T> {
    match e
    case Login(nid, n, zone) => AddNode(s, nid, n, zone)
    case Logout(nid) => DelNode(s, nid)
    case Reload(nid, zone) => ReloadModel(s, nid, zone)
    case Dispatch(zone) => s.(zones := AfterDispatch(s.zones, zone))
    case DispatchUpload(filter) => s.(upload := AfterGet(s.upload, filter))
  }

  function Run<T(==)>(es: seq<Event<T>>): State<T> {
    if es == [] then State(map[], map[], map[], [])
    else Step(Run(es[..|es| - 1]), es[|es| - 1])
  }

  /** Every connection that logs in is a new object under a node id that is not online. */
  predicate FreshLogins<T(==)>(es: seq<Event<T>>) {
    es != [] ==>
      var s, e := Run(es[..|es| - 1]), es[|es| - 1];
      FreshLogins(es[..|es| - 1]) && (e.Login? ==> e.nid !in s.online && e.n !in s.zoneOf)
  }

  // ---------------------------------------------------------------- agreement

  function Members<T(==)>(q: seq<T>): set<T> {
    set n | n in q
  }

  function Located<T(==)>(zoneOf: map<T, string>, z: string): set<T> {
    set n | n in zoneOf && zoneOf[n] == z
  }

  /** Zone `z` has a queue exactly when a node is located there; it holds those nodes, once each. */
  ghost predicate QueueFits<T>(zones: map<string, seq<T>>, zoneOf: map<T, string>, z: string) {
    && (z in zones <==> z != "" && Located(zoneOf, z) != {})
    && (z in zones ==> Distinct(zones[z]) && Members(zones[z]) == Located(zoneOf, z))
  }

  predicate OnlineIn<T(==)>(s: State<T>, nid: string, z: string) {
    nid in s.online && s.online[nid] in s.zoneOf && s.zoneOf[s.online[nid]] == z
  }

  ghost predicate NodesFit<T>(s: State<T>) {
    && s.zoneOf.Keys == s.online.Values
    && (forall a, b :: a in s.online && b in s.online && a != b ==> s.online[a] != s.online[b])
  }

  ghost predicate Agrees<T>(s: State<T>) {
    && NodesFit(s)
    && (forall z :: QueueFits(s.zones, s.zoneOf, z))
    && Distinct(s.upload) && Members(s.upload) == s.zoneOf.Keys
  }

  // ---------------------------------------------------------------- one queue at a time

  lemma AddFits<T>(zones: map<string, seq<T>>, zoneOf: map<T, string>, zid: string, n: T, z: string)
    requires QueueFits(zones, zoneOf, z) && n !in zoneOf
    ensures QueueFits(ZoneAdd(zones, zid, n), zoneOf[n := zid], z)
  {
    var after := zoneOf[n := zid];
    if z == zid {
      assert n in Located(after, z);
      assert Located(after, z) == Located(zoneOf, z) + {n};
      if z != "" {
        var q := if z in zones then zones[z] else [];
        assert n !in Members(q);
        assert Members(q + [n]) == Members(q) + {n};
      }
    } else {
      assert Located(after, z) == Located(zoneOf, z);
    }
  }

  lemma DelFits<T>(zones: map<string, seq<T>>, zoneOf: map<T, string>, n: T, z: string)
    requires n in zoneOf && QueueFits(zones, zoneOf, z)
    ensures QueueFits(ZoneDelNode(zones, zoneOf[n], n), zoneOf - {n}, z)
  {
    var zid, after := zoneOf[n], zoneOf - {n};
    if z == zid {
      assert n in Located(zoneOf, z);
      assert Located(after, z) == Located(zoneOf, z) - {n};
      if z != "" {
        var q := AfterPop(zones[z], n);
        PopKeeps(zones[z], n);
        assert Members(q) == Members(zones[z]) - {n};
        assert |q| > 0 ==> q[0] in Members(q);
      }
    } else {
      assert Located(after, z) == Located(zoneOf, z);
    }
  }

  lemma DispatchFits<T>(zones: map<string, seq<T>>, zoneOf: map<T, string>, zid: string, z: string)
    requires QueueFits(zones, zoneOf, z)
    ensures QueueFits(AfterDispatch(zones, zid), zoneOf, z)
  {
    if z in zones {
      GetKeeps(zones[z], NoFilter);
      assert Members(AfterGet(zones[z], NoFilter)) == Members(zones[z]);
    }
  }

  // ---------------------------------------------------------------- every step

  lemma LoginAgrees<T>(s: State<T>, nid: string, n: T, zone: string)
    requires Agrees(s) && nid !in s.online && n !in s.zoneOf
    ensures Agrees(AddNode(s, nid, n, zone))
  {
    var t := AddNode(s, nid, n, zone);
    assert t.online.Values == s.online.Values + {n} by {
      assert t.online[nid] == n;
      assert forall a :: a in s.online ==> a in t.online && t.online[a] == s.online[a];
    }
    assert t.zoneOf == s.zoneOf[n := zone];
    forall z
      ensures QueueFits(t.zones, t.zoneOf, z)
    {
      AddFits(s.zones, s.zoneOf, zone, n, z);
    }
    assert n !in Members(s.upload);
    assert Members(s.upload + [n]) == Members(s.upload) + {n};
  }

  lemma LogoutAgrees<T>(s: State<T>, nid: string)
    requires Agrees(s)
    ensures Agrees(DelNode(s, nid))
  {
    if nid in s.online {
      var n, t := s.online[nid], DelNode(s, nid);
      assert t.online.Values == s.online.Values - {n} by {
        assert forall a :: a in t.online ==> a in s.online && t.online[a] == s.online[a];
        forall m | m in s.online.Values && m != n
          ensures m in t.online.Values
        {
          var a :| a in s.online && s.online[a] == m;
          assert t.online[a] == m;
        }
      }
      assert t.zoneOf == s.zoneOf - {n};
      forall z
        ensures QueueFits(t.zones, t.zoneOf, z)
      {
        DelFits(s.zones, s.zoneOf, n, z);
      }
      PopKeeps(s.upload, n);
      assert Members(t.upload) == Members(s.upload) - {n};
    }
  }

  lemma ReloadAgrees<T>(s: State<T>, nid: string, zone: string)
    requires Agrees(s)
    ensures Agrees(ReloadModel(s, nid, zone))
  {
    var t := ReloadModel(s, nid, zone);
    if nid in s.online && s.zoneOf[s.online[nid]] != zone {
      var n := s.online[nid];
      assert t.zoneOf == (s.zoneOf - {n})[n := zone];
      forall z
        ensures QueueFits(t.zones, t.zoneOf, z)
      {
        DelFits(s.zones, s.zoneOf, n, z);
        AddFits(ZoneDelNode(s.zones, s.zoneOf[n], n), s.zoneOf - {n}, zone, n, z);
      }
    }
  }

  lemma ServeAgrees<T>(s: State<T>, e: Event<T>)
    requires Agrees(s) && (e.Dispatch? || e.DispatchUpload?)
    ensures Agrees(Step(s, e))
  {
    match e
    case Dispatch(zone) =>
      forall z
        ensures QueueFits(Step(s, e).zones, s.zoneOf, z)
      {
        DispatchFits(s.zones, s.zoneOf, zone, z);
      }
    case DispatchUpload(filter) =>
      GetKeeps(s.upload, filter);
      assert Members(AfterGet(s.upload, filter)) == Members(s.upload);
  }

  /** Over all runs of logins, logouts, zone reloads and dispatches, zone `z` has a queue exactly
      when an online node carries it, with those nodes once each, and the upload queue holds the
      online nodes once each. */
  lemma {:induction false} QueuesFollowNodes<T>(es: seq<Event<T>>)
    requires FreshLogins(es)
    ensures Agrees(Run(es))
  {
    if es == [] {
      var s := Run(es);
      assert forall z :: Located(s.zoneOf, z) == {};
    } else {
      var before, e := es[..|es| - 1], es[|es| - 1];
      QueuesFollowNodes(before);
      match e
      case Login(nid, n, zone) => LoginAgrees(Run(before), nid, n, zone);
      case Logout(nid) => LogoutAgrees(Run(before), nid);
      case Reload(nid, zone) => ReloadAgrees(Run(before), nid, zone);
      case _ => ServeAgrees(Run(before), e);
    }
  }

  /** A login under a node id that is online: the closed connection stays in the queue. */
  lemma TakenOver<T>(s: State<T>, nid: string, n: T, zone: string)
    requires Agrees(s) && n !in s.zoneOf && nid in s.online
    ensures !Agrees(AddNode(s, nid, n, zone))
  {
    var t, stale := AddNode(s, nid, n, zone), s.online[nid];
    assert stale in Members(s.upload) && stale in Members(t.upload);
    assert stale !in t.zoneOf by {
      forall a | a in t.online
        ensures t.online[a] != stale
      {
        assert a != nid ==> a in s.online;
      }
    }
  }

  /** A second login on one connection: it enters the queue once more. */
  lemma EnteredTwice<T>(s: State<T>, nid: string, n: T, zone: string)
    requires Agrees(s) && n in s.zoneOf
    ensures !Agrees(AddNode(s, nid, n, zone))
  {
    var t := AddNode(s, nid, n, zone);
    assert n in Members(s.upload);
    var i :| 0 <= i < |s.upload| && s.upload[i] == n;
    assert t.upload[i] == t.upload[|s.upload|];
  }

  /** A login keeps the agreement if and only if its node id was not online and its connection had
      not logged in before, be it under another id. */
  lemma LoginAgreesExactly<T>(s: State<T>, nid: string, n: T, zone: string)
    requires Agrees(s)
    ensures Agrees(AddNode(s, nid, n, zone)) <==> nid !in s.online && n !in s.zoneOf
  {
    if n in s.zoneOf {
      EnteredTwice(s, nid, n, zone);
    } else if nid in s.online {
      TakenOver(s, nid, n, zone);
    } else {
      LoginAgrees(s, nid, n, zone);
    }
  }

  /** When the old connection then ends, it logs the new one out, and stays in the queues itself. */
  lemma OldConnectionLogsNewOut<T>(s: State<T>, nid: string, n: T, zone: string)
    requires Agrees(s) && n !in s.zoneOf && nid in s.online
    ensures var t := DelNode(AddNode(s, nid, n, zone), nid);
      nid !in t.online && n !in t.online.Values && s.online[nid] in Members(t.upload)
  {
    var r, stale := AddNode(s, nid, n, zone), s.online[nid];
    var t := DelNode(r, nid);
    assert n in r.online.Values by { assert r.online[nid] == n; }
    assert stale in Members(s.upload);
    assert r.upload == s.upload + [n] && n !in Members(s.upload) && stale != n;
    assert Distinct(r.upload);
    PopKeeps(r.upload, n);
    forall a | a in t.online
      ensures t.online[a] != n
    {
      assert a in s.online && t.online[a] == s.online[a];
      assert s.online[a] in s.online.Values;
    }
  }

  /** A download for `z` is dispatched if and only if an online node is in that zone, and then to
      such a node. */
  lemma ZoneServesOnline<T>(es: seq<Event<T>>, z: string)
    requires FreshLogins(es) && z != ""
    ensures var s := Run(es);
      && (ZoneServed(s.zones, z).Some? <==> exists nid :: OnlineIn(s, nid, z))
      && (ZoneServed(s.zones, z).Some? ==>
            exists nid :: OnlineIn(s, nid, z) && s.online[nid] == ZoneServed(s.zones, z).value)
  {
    QueuesFollowNodes(es);
    var s := Run(es);
    assert QueueFits(s.zones, s.zoneOf, z);
    if z in s.zones {
      var n :| n in Located(s.zoneOf, z);
      assert n in Members(s.zones[z]);
      var served := ZoneServed(s.zones, z);
      assert served == Some(s.zones[z][0]);
      assert served.value in Members(s.zones[z]);
      var nid :| nid in s.online && s.online[nid] == served.value;
      assert OnlineIn(s, nid, z);
    } else {
      assert forall n :: n in s.zoneOf && s.zoneOf[n] == z ==> n in Located(s.zoneOf, z);
    }
  }

  /** An upload finds a node if and only if an online node passes its filter. */
  lemma UploadServesOnline<T>(es: seq<Event<T>>, filter: Filter<T>)
    requires FreshLogins(es)
    ensures var s := Run(es);
      match Served(s.upload, filter)
      case Some(n) => n in s.online.Values && filter.Accepts(n)
      case None => forall nid :: nid in s.online ==> !filter.Accepts(s.online[nid])
  {
    QueuesFollowNodes(es);
    var s := Run(es);
    match Served(s.upload, filter)
    case Some(n) =>
      assert n in Members(s.upload);
    case None =>
      forall nid | nid in s.online
        ensures !filter.Accepts(s.online[nid])
      {
        assert s.online[nid] in Members(s.upload);
      }
  }
}
