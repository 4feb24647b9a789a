/** The objects of the upload schedulers; Dispatch.dfy says what their steps amount to. */
module Schedulers {
  import opened RoundRobin
  import opened Nodes
  import ZoneIndex
  import D = Dispatch
  import C = DispatchChoice

  class Resource {
    const nid: string
    const expire: int
    var timestamp: int

    constructor (nid: string, timestamp: int, expire: int)
      ensures this.nid == nid && this.timestamp == timestamp && this.expire == expire
    {
      this.nid, this.timestamp, this.expire := nid, timestamp, expire;
    }

    method Update(now: int)
      modifies this
      ensures timestamp == now
    {
      timestamp := now;
    }
  }

  class XidResource {
    var maps: map<string, Resource>

    ghost function Repr(): set<object>
      reads this
    {
      set x | x in maps :: maps[x]
    }

    ghost predicate Valid()
      reads this
    {
      forall x, y :: x in maps && y in maps && x != y ==> maps[x] != maps[y]
    }

    ghost function Model(): D.Resources
      reads this, Repr()
    {
      map x | x in maps :: D.Resource(maps[x].nid, maps[x].timestamp, maps[x].expire)
    }

    constructor ()
      ensures Valid() && Repr() == {} && Model() == map[]
    {
      maps := map[];
    }

    method Get(xid: string) returns (r: Resource?)
      ensures if xid in maps then r == maps[xid] else r == null
    {
      r := if xid in maps then maps[xid] else null;
    }

    /** Refreshes the resource held under `xid`. */
    method Refresh(r: Resource, now: int, ghost xid: string)
      requires Valid() && xid in maps && maps[xid] == r
      modifies r
      ensures Model() == D.Touched(old(Model()), xid, now)
    {
      r.Update(now);
    }

    method Update(xid: string, nid: string, now: int)
      requires Valid()
      modifies Repr()
      ensures Model() == D.Update(old(Model()), xid, nid, now)
    {
      if nid == "" {
        return;
      }
      var r := Get(xid);
      if r != null && r.nid == nid {
        Refresh(r, now, xid);
      }
    }

    method DelExpired(now: int)
      requires Valid()
      modifies this
      ensures Valid() && Repr() <= old(Repr())
      ensures Model() == D.DelExpired(old(Model()), now)
    {
      var todo := maps.Keys;
      while todo != {}
        invariant Valid() && todo <= maps.Keys <= old(maps.Keys)
        invariant forall x :: x in maps ==> maps[x] == old(maps[x])
        invariant forall x :: x in old(maps) && x !in todo ==>
          (x in maps <==> D.Alive(old(Model())[x], now))
      {
        var x :| x in todo;
        todo := todo - {x};
        if now - maps[x].timestamp > maps[x].expire {
          maps := maps - {x};
        }
      }
    }

    method Insert(xid: string, nid: string, expire: int, now: int)
      requires Valid()
      modifies this
      ensures Valid() && fresh(Repr() - old(Repr()))
      ensures Model() == old(Model())[xid := D.Resource(nid, now, expire)]
    {
      var r := new Resource(nid, now, expire);
      maps := maps[xid := r];
    }

    method Add(xid: string, nid: string, expire: int, now: int)
      requires Valid()
      modifies this, Repr()
      ensures Valid() && fresh(Repr() - old(Repr()))
      ensures Model() == D.Add(old(Model()), xid, nid, expire, now)
    {
      hide D.Update, D.DelExpired;
      if nid == "" {
        return;
      }
      Update(xid, nid, now);
      DelExpired(now);
      Insert(xid, nid, expire, now);
    }
  }

  class RestrictUploadScheduler {
    const mode: D.Mode
    const resource: XidResource

    constructor (mode: D.Mode)
      ensures this.mode == mode && fresh(resource) && resource.Valid() && resource.Repr() == {}
      ensures resource.Model() == map[]
    {
      this.mode := mode;
      resource := new XidResource();
    }

    static lemma Unexpired(rs: D.Resources, xid: string, now: int)
      ensures var left := D.DelExpired(rs, now);
        (xid in left <==> xid in rs && D.Alive(rs[xid], now)) && (xid in left ==> left[xid] == rs[xid])
    {
    }

    /** `now` is the time of the call, and `nodes` the node manager that the program keeps in a
        global variable. */
    method DispatchUpload(req: D.UploadReq, nodes: NodeManager, now: int, ghost fleet: D.Fleet) returns (n: Option<Node>)
      requires resource.Valid() && {this, resource} + resource.Repr() !! {nodes} + nodes.idMap.Values
      requires fleet.online == nodes.idMap
      requires forall n :: n in fleet.online.Values ==> n in fleet.free && fleet.free[n] == n.freeStorage
      modifies resource, resource.Repr()
      ensures resource.Valid() && resource.Repr() <= old(resource.Repr())
      ensures var rs := old(resource.Model());
        && resource.Model() == D.AfterRestrict(mode, rs, fleet, req, now)
        && (n.Some? <==> D.Restricted(mode, rs, fleet, req, now))
        && (n.Some? ==> n.value == nodes.idMap[rs[D.Xid(mode, req.pid, req.fid)].nid])
    {
      n := None;
      ghost var rs, xid := resource.Model(), D.Xid(mode, req.pid, req.fid);
      Unexpired(rs, xid, now);
      hide D.DelExpired, D.Touched;
      resource.DelExpired(now);
      var r := resource.Get(D.Xid(mode, req.pid, req.fid));
      assert r != null <==> xid in resource.Model();
      if r != null && r.nid != "" {
        assert resource.Model()[xid].nid == r.nid;
        var node := nodes.GetByNid(r.nid);
        assert node.Some? ==> node.value in fleet.online.Values;
        if node.Some? && node.value.freeStorage > D.ReqSize(mode, req) {
          resource.Refresh(r, now, xid);
          n := node;
        }
      }
    }

    method AddTask(upload: bool, pid: string, fid: string, nid: string, now: int)
      requires resource.Valid()
      modifies resource, resource.Repr()
      ensures resource.Valid() && fresh(resource.Repr() - old(resource.Repr()))
      ensures resource.Model() ==
        if upload then D.Add(old(resource.Model()), D.Xid(mode, pid, fid), nid, D.EXPIRE, now) else old(resource.Model())
    {
      if !upload {
        return;
      }
      resource.Add(D.Xid(mode, pid, fid), nid, D.EXPIRE, now);
    }

    method TaskStateNotify(upload: bool, pid: string, fid: string, nid: string, now: int)
      requires resource.Valid()
      modifies resource.Repr()
      ensures resource.Valid() && resource.Repr() == old(resource.Repr())
      ensures resource.Model() ==
        if upload then D.Update(old(resource.Model()), D.Xid(mode, pid, fid), nid, now) else old(resource.Model())
    {
      if !upload {
        return;
      }
      resource.Update(D.Xid(mode, pid, fid), nid, now);
    }
  }

  class DefaultScheduler {
    const restrict: RestrictUploadScheduler
    const nodes: NodeManager

    constructor (mode: D.Mode, nodes: NodeManager)
      requires nodes.Valid()
      ensures this.nodes == nodes && restrict.mode == mode && fresh(restrict) && Valid()
    {
      restrict := new RestrictUploadScheduler(mode);
      this.nodes := nodes;
    }

    ghost function Affinity(): set<object>
      reads restrict.resource
    {
      {restrict, restrict.resource} + restrict.resource.Repr()
    }

    /** The affinity shares no object with the nodes and their queues. */
    ghost predicate Valid()
      reads restrict.resource, nodes, nodes.nas, nodes.uploads.queue
    {
      && nodes.Valid() && restrict.resource.Valid()
      && Affinity() !! nodes.Repr() + Known()
      && this !in nodes.Repr()
      && nodes.Repr() !! Known()
    }

    /** The nodes that are online or wait in the upload queue. */
    function Known(): set<Node>
      reads nodes, nodes.uploads.queue
    {
      nodes.idMap.Values + set n | n in nodes.uploads.queue.unitQueue
    }

    ghost function Fleet(): D.Fleet
      reads nodes.Repr(), nodes.nas, Known()
    {
      D.Fleet(nodes.idMap, FreeOf(Known()), nodes.nas.Queues(), nodes.uploads.queue.unitQueue)
    }

    method DispatchDownload(storage: D.Storage) returns (n: Option<Node>)
      requires Valid()
      modifies nodes.nas.Repr()
      ensures Valid()
      ensures n == D.AtStorage(old(Fleet()), storage)
      ensures nodes.Model() ==
        if storage.NasUrl? then ZoneIndex.Step(old(nodes.Model()), ZoneIndex.Dispatch(storage.zone)) else old(nodes.Model())
    {
      match storage
      case FileUrl(host) => n := nodes.GetByNid(host);
      case NasUrl(zone) => n := nodes.nas.Dispatch(zone);
      case _ => n := None;
    }

    method DispatchProxy(size: nat) returns (n: Option<Node>)
      requires Valid()
      modifies nodes.uploads.queue
      ensures Valid() && n == Served(old(Fleet()).upload, BySize(old(Fleet()).free, size))
      ensures nodes.Model() == ZoneIndex.Step(old(nodes.Model()), ZoneIndex.DispatchUpload(BySize(old(Fleet()).free, size)))
    {
      hide Served, FirstAccepted, AfterGet;
      n := nodes.uploads.DispatchUpload(FreeOf(Known()), size);
      GetMembers(old(nodes.uploads.queue.unitQueue), BySize(old(Fleet()).free, size));
    }

    /** The affinity is asked first; nodes and queues stay as they are. */
    method AskAffinity(req: D.UploadReq, now: int) returns (n: Option<Node>)
      requires Valid()
      modifies restrict.resource, restrict.resource.Repr()
      ensures Valid() && Fleet() == old(Fleet()) && nodes.Model() == old(nodes.Model())
      ensures var rs, fleet := old(restrict.resource.Model()), old(Fleet());
        && restrict.resource.Model() == D.AfterRestrict(restrict.mode, rs, fleet, req, now)
        && (n.Some? <==> D.Restricted(restrict.mode, rs, fleet, req, now))
        && (n.Some? ==> n.value == fleet.online[rs[D.Xid(restrict.mode, req.pid, req.fid)].nid])
    {
      hide D.DelExpired, D.Touched, D.Alive;
      n := restrict.DispatchUpload(req, nodes, now, Fleet());
    }

    /** A node that is chosen for a file without storage has room for it. */
    lemma ChosenFits(req: D.UploadReq, now: int)
      requires Valid()
      ensures var n := D.Chosen(restrict.mode, restrict.resource.Model(), Fleet(), req, now);
        req.storage.NoStorage? && n.Some? ==>
          n.value.freeStorage >= match restrict.mode case ByPid => req.leftPkgSize case ByFid => req.fileSize
    {
      assert C.FreeKnown(Fleet()) && forall m :: m in Fleet().free ==> Fleet().free[m] == m.freeStorage;
      if req.storage.NoStorage? && D.Chosen(restrict.mode, restrict.resource.Model(), Fleet(), req, now).Some? {
        C.ChosenHasRoom(restrict.mode, restrict.resource.Model(), Fleet(), req, now);
      }
    }

    method DispatchUpload(req: D.UploadReq, now: int) returns (n: Option<Node>)
      requires Valid()
      modifies restrict.resource, restrict.resource.Repr(), nodes.nas.Repr(), nodes.uploads.queue
      ensures Valid()
      ensures var rs, fleet := old(restrict.resource.Model()), old(Fleet());
        && n == D.Chosen(restrict.mode, rs, fleet, req, now)
        && restrict.resource.Model() == D.AfterRestrict(restrict.mode, rs, fleet, req, now)
        && nodes.Model() == match D.QueueEvent(restrict.mode, rs, fleet, req, now)
           case None => old(nodes.Model())
           case Some(e) => ZoneIndex.Step(old(nodes.Model()), e)
    {
      hide ZoneIndex.Step, ZoneIndex.ZoneServed, Served, FirstAccepted, D.DelExpired, D.Touched, D.Alive;
      n := AskAffinity(req, now);
      if n.Some? {
        return;
      }
      if !req.storage.NoStorage? {
        n := DispatchDownload(req.storage);
        return;
      }
      n := DispatchProxy(D.ReqSize(restrict.mode, req));
    }
  }
}
