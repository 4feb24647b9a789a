/** The connected nodes and the observers that keep queues of them. */
module Nodes {
  import opened RoundRobin
  import ZoneIndex
  import opened Jobs

  class Node {
    const nid: string
    var zoneId: string
    var freeStorage: nat
    var uploadTaskCnt: int
    var downloadTaskCnt: int
    var closed: bool

    constructor (nid: string, zoneId: string, freeStorage: nat)
      ensures this.nid == nid && this.zoneId == zoneId && this.freeStorage == freeStorage
      ensures Count(Upload) == 0 && Count(Download) == 0 && !closed
    {
      this.nid := nid;
      this.zoneId, this.freeStorage := zoneId, freeStorage;
      uploadTaskCnt, downloadTaskCnt, closed := 0, 0, false;
    }

    /** Close, without leaving the node manager; see Connection.dfy for the pending requests. */
    method Close()
      modifies `closed
      ensures closed
    {
      closed := true;
    }

    function Count(typ: JobType): int
      reads `uploadTaskCnt, `downloadTaskCnt
    {
      if typ.Upload? then uploadTaskCnt else downloadTaskCnt
    }

    /** Counts are clamped at zero. */
    method AddTaskCnt(typ: JobType, v: int)
      modifies this`uploadTaskCnt, this`downloadTaskCnt
      ensures Count(typ) == if old(Count(typ)) + v < 0 then 0 else old(Count(typ)) + v
      ensures forall other :: other != typ ==> Count(other) == old(Count(other))
    {
      if typ.Upload? {
        uploadTaskCnt := uploadTaskCnt + v;
        if uploadTaskCnt < 0 { uploadTaskCnt := 0; }
      } else {
        downloadTaskCnt := downloadTaskCnt + v;
        if downloadTaskCnt < 0 { downloadTaskCnt := 0; }
      }
    }
  }

  /** A node fits an upload that its free storage covers. */
  function BySize(free: map<Node, nat>, size: nat): Filter<Node> {
    Only(n => n in free && free[n] >= size)
  }

  function FreeOf(nodes: set<Node>): map<Node, nat>
    reads nodes
  {
    map n | n in nodes :: n.freeStorage
  }

  class RoundRobinUploadScheduler {
    const queue: RoundRobinScheduler<Node>

    constructor ()
      ensures fresh(queue) && queue.unitQueue == []
    {
      queue := new RoundRobinScheduler();
    }

    method DispatchUpload(free: map<Node, nat>, size: nat) returns (n: Option<Node>)
      modifies queue
      ensures n == Served(old(queue.unitQueue), BySize(free, size))
      ensures queue.unitQueue == AfterGet(old(queue.unitQueue), BySize(free, size))
    {
      n := queue.Get(BySize(free, size));
    }

    method AddNode(n: Node)
      modifies queue
      ensures queue.unitQueue == old(queue.unitQueue) + [n]
    {
      queue.Put(n);
    }

    method DelNode(n: Node)
      modifies queue
      ensures queue.unitQueue == AfterPop(old(queue.unitQueue), n)
    {
      queue.Pop(n);
    }
  }

  class NasRoundRobinScheduler {
    var zoneSchds: map<string, RoundRobinScheduler<Node>>

    ghost function Repr(): set<object>
      reads this
    {
      set z | z in zoneSchds :: zoneSchds[z]
    }

    ghost predicate Valid()
      reads this
    {
      forall y, z :: y in zoneSchds && z in zoneSchds && y != z ==> zoneSchds[y] != zoneSchds[z]
    }

    ghost function Queues(): map<string, seq<Node>>
      reads this, Repr()
    {
      map z | z in zoneSchds :: zoneSchds[z].unitQueue
    }

    constructor ()
      ensures Valid() && Repr() == {} && Queues() == map[]
    {
      zoneSchds := map[];
    }

    method ZoneAddNode(zid: string, n: Node)
      requires Valid()
      modifies this, Repr()
      ensures Valid() && fresh(Repr() - old(Repr()))
      ensures Queues() == ZoneIndex.ZoneAdd(old(Queues()), zid, n)
    {
      if zid == "" {
        return;
      }
      if zid !in zoneSchds {
        var created := new RoundRobinScheduler<Node>();
        zoneSchds := zoneSchds[zid := created];
      }
      zoneSchds[zid].Put(n);
    }

    method ZoneDelNode(zid: string, n: Node)
      requires Valid()
      modifies this, Repr()
      ensures Valid() && Repr() <= old(Repr())
      ensures Queues() == ZoneIndex.ZoneDel(old(Queues()), zid, n)
    {
      hide AfterPop;
      if zid !in zoneSchds {
        return;
      }
      zoneSchds[zid].Pop(n);
      var left := zoneSchds[zid].NumUnits();
      if left <= 0 {
        zoneSchds := zoneSchds - {zid};
      }
    }

    method AddNode(n: Node)
      requires Valid()
      modifies this, Repr()
      ensures Valid() && fresh(Repr() - old(Repr()))
      ensures Queues() == ZoneIndex.ZoneAdd(old(Queues()), n.zoneId, n)
    {
      if n.zoneId == "" {
        return;
      }
      ZoneAddNode(n.zoneId, n);
    }

    method DelNode(n: Node)
      requires Valid()
      modifies this, Repr()
      ensures Valid() && Repr() <= old(Repr())
      ensures Queues() == ZoneIndex.ZoneDelNode(old(Queues()), n.zoneId, n)
    {
      if n.zoneId == "" {
        return;
      }
      ZoneDelNode(n.zoneId, n);
    }

    method NodeZoneChange(n: Node, oldZid: string, newZid: string)
      requires Valid()
      modifies this, Repr()
      ensures Valid() && fresh(Repr() - old(Repr()))
      ensures Queues() == ZoneIndex.ZoneChange(old(Queues()), n, oldZid, newZid)
    {
      if oldZid != "" {
        ZoneDelNode(oldZid, n);
      }
      if newZid != "" {
        ZoneAddNode(newZid, n);
      }
    }

    method Dispatch(zid: string) returns (n: Option<Node>)
      requires Valid()
      modifies Repr()
      ensures Valid() && Repr() == old(Repr())
      ensures n == ZoneIndex.ZoneServed(old(Queues()), zid)
      ensures Queues() == ZoneIndex.AfterDispatch(old(Queues()), zid)
    {
      if zid !in zoneSchds {
        return None;
      }
      n := zoneSchds[zid].Get(NoFilter);
    }
  }

  function ZonesOf(online: map<string, Node>): map<Node, string>
    reads online.Values`zoneId
  {
    map n | n in online.Values :: n.zoneId
  }

  lemma LocatedAfter(online: map<string, Node>, n: Node)
    ensures var after := online[n.nid := n];
      ZonesOf(after) == ZoneIndex.Relocated(after, ZonesOf(online), n, n.zoneId)
  {
    var after := online[n.nid := n];
    assert after[n.nid] == n;
    assert after.Values <= online.Values + {n};
  }

  lemma LocatedWithout(online: map<string, Node>, nid: string)
    ensures var left, zoneOf := online - {nid}, ZonesOf(online);
      ZonesOf(left) == map m | m in left.Values && m in zoneOf :: zoneOf[m]
  {
    assert (online - {nid}).Values <= online.Values;
  }

  /** The node manager with the two observers that the default scheduler registers. */
  class NodeManager {
    var idMap: map<string, Node>
    const uploads: RoundRobinUploadScheduler
    const nas: NasRoundRobinScheduler

    ghost function Repr(): set<object>
      reads this, nas
    {
      {this, uploads.queue, nas} + nas.Repr()
    }

    ghost predicate Valid()
      reads this, nas
    {
      && nas.Valid() && uploads.queue !in nas.Repr()
      && forall nid :: nid in idMap ==> idMap[nid].nid == nid
    }

    ghost function Model(): ZoneIndex.State<Node>
      reads Repr(), idMap.Values`zoneId
    {
      ZoneIndex.State(idMap, ZonesOf(idMap), nas.Queues(), uploads.queue.unitQueue)
    }

    constructor ()
      ensures Valid() && fresh(Repr())
      ensures Model() == ZoneIndex.Run<Node>([])
    {
      idMap := map[];
      uploads := new RoundRobinUploadScheduler();
      nas := new NasRoundRobinScheduler();
    }

    method GetByNid(nid: string) returns (n: Option<Node>)
      ensures n == if nid in idMap then Some(idMap[nid]) else None
    {
      n := if nid in idMap then Some(idMap[nid]) else None;
    }

    method CloseOld(nid: string)
      requires forall nid :: nid in idMap ==> idMap[nid].nid == nid
      modifies idMap.Values`closed
      ensures nid in idMap ==> idMap[nid].closed
      ensures forall m :: m in idMap.Values && m.nid != nid ==> m.closed == old(m.closed)
    {
      if nid in idMap {
        idMap[nid].Close();
      }
    }

    /** Enters the node and tells the observers. */
    method Enter(n: Node)
      requires Valid()
      modifies Repr()
      ensures Valid() && fresh(Repr() - old(Repr()))
      ensures Model() == ZoneIndex.AddNode(old(Model()), n.nid, n, n.zoneId)
    {
      hide ZonesOf, ZoneIndex.Relocated, ZoneIndex.ZoneAdd;
      LocatedAfter(idMap, n);
      idMap := idMap[n.nid := n];
      uploads.AddNode(n);
      nas.AddNode(n);
    }

    /** A connection that is still there under the same id is closed. */
    method AddNode(n: Node)
      requires Valid()
      modifies Repr(), idMap.Values`closed
      ensures Valid() && fresh(Repr() - old(Repr()))
      ensures Model() == ZoneIndex.AddNode(old(Model()), n.nid, n, n.zoneId)
      ensures n.nid in old(idMap) ==> old(idMap)[n.nid].closed
      ensures forall m :: m in old(idMap.Values) && m.nid != n.nid ==> m.closed == old(m.closed)
    {
      hide ZonesOf, ZoneIndex.AddNode;
      CloseOld(n.nid);
      assert Model() == old(Model());
      Enter(n);
    }

    /** Drops the node and tells the observers. */
    method Leave(n: Node, nid: string)
      requires Valid() && nid in idMap && idMap[nid] == n
      modifies Repr()
      ensures Valid() && Repr() <= old(Repr()) && idMap == old(idMap) - {nid}
      ensures nas.Queues() == ZoneIndex.ZoneDelNode(old(nas.Queues()), n.zoneId, n)
      ensures uploads.queue.unitQueue == AfterPop(old(uploads.queue.unitQueue), n)
    {
      idMap := idMap - {nid};
      uploads.DelNode(n);
      nas.DelNode(n);
    }

    method DelNode(nid: string)
      requires Valid()
      modifies Repr()
      ensures Valid() && Repr() <= old(Repr())
      ensures Model() == ZoneIndex.DelNode(old(Model()), nid)
    {
      hide ZoneIndex.ZoneDelNode, AfterPop;
      if nid in idMap {
        LocatedWithout(idMap, nid);
        assert ZonesOf(idMap)[idMap[nid]] == idMap[nid].zoneId;
        hide ZonesOf;
        Leave(idMap[nid], nid);
      }
    }

    method SetZone(n: Node, zone: string)
      requires n in idMap.Values
      modifies n`zoneId
      ensures n.zoneId == zone && ZonesOf(idMap) == old(ZonesOf(idMap))[n := zone]
    {
      n.zoneId := zone;
    }

    /** The observers are told, and the node takes the zone on. */
    method Move(n: Node, zone: string)
      requires Valid() && n in idMap.Values
      modifies Repr(), n`zoneId
      ensures Valid() && fresh(Repr() - old(Repr()))
      ensures var was := old(Model());
        Model() == was.(zones := ZoneIndex.ZoneChange(was.zones, n, old(n.zoneId), zone), zoneOf := was.zoneOf[n := zone])
    {
      hide ZoneIndex.ZoneChange, ZonesOf;
      nas.NodeZoneChange(n, n.zoneId, zone);
      SetZone(n, zone);
    }

    /** `zone` is the zone of the node's record in the database. */
    method ReloadNodeModel(nid: string, zone: string)
      requires Valid()
      modifies Repr(), if nid in idMap then {idMap[nid]} else {}
      ensures Valid() && fresh(Repr() - old(Repr()))
      ensures Model() == ZoneIndex.ReloadModel(old(Model()), nid, zone)
    {
      assert nid in idMap ==> ZonesOf(idMap)[idMap[nid]] == idMap[nid].zoneId;
      hide ZoneIndex.ZoneChange, ZonesOf;
      if nid in idMap && zone != idMap[nid].zoneId {
        Move(idMap[nid], zone);
      }
    }
  }
}
