/** The objects of the task manager; TaskTable.dfy says what their steps amount to and Bitrates.dfy
    what their samples do. */
module TaskManagement {
  import opened RoundRobin
  import opened Jobs
  import opened Nodes
  import B = Bitrates
  import T = TaskTable

  newtype uint32 = x: int | 0 <= x < 0x1_0000_0000

  class Task {
    const id: string
    const typ: JobType
    const nid: string
    var state: TransferState
    var traffic: nat
    var zoneId: string
    var statistics: (nat, nat, nat)
    const bitrates: array<nat>
    var bitratesCnt: uint32

    function View(): T.Task
      reads `state, `traffic
    {
      T.Task(typ, nid, state, traffic)
    }

    ghost function Ring(): (r: B.Ring)
      requires bitrates.Length == B.MAX_BITRATES
      reads `bitratesCnt, bitrates
      ensures B.RingFits(r)
    {
      B.Ring(bitrates[..], bitratesCnt as nat)
    }

    constructor (id: string, typ: JobType, nid: string)
      ensures this.id == id && View() == T.Task(typ, nid, Idle, 0)
      ensures fresh(bitrates) && bitrates.Length == B.MAX_BITRATES && Ring() == B.RingOf(bitrates[..], [])
    {
      this.id, this.typ, this.nid := id, typ, nid;
      state, traffic, zoneId, statistics := Idle, 0, "", (0, 0, 0);
      bitrates, bitratesCnt := new nat[B.MAX_BITRATES](_ => 0), 0;
    }

    method InputBitrate(bitrate: nat)
      requires bitrates.Length == B.MAX_BITRATES
      modifies `bitratesCnt, bitrates
      ensures Ring() == B.Pushed(old(Ring()), bitrate)
    {
      bitrates[bitratesCnt as nat % B.MAX_BITRATES] := bitrate;
      bitratesCnt := B.Wrap32(bitratesCnt as nat + 1) as uint32;
      assert bitrates[..] == old(bitrates[..])[old(bitratesCnt) as nat % B.MAX_BITRATES := bitrate];
    }

    /** Takes the statistics of the latest samples. */
    method Finish()
      requires bitrates.Length == B.MAX_BITRATES
      modifies `statistics
      ensures var s := B.Window(Ring());
        && (s == [] ==> statistics == (0, 0, 0))
        && (s != [] ==>
              && statistics.0 == B.RunningMin(s)
              && statistics.1 == B.Wrap64(B.Sum(s)) / |s|
              && B.IsMax(statistics.2, s))
    {
      var cnt := bitratesCnt as nat;
      if cnt > B.MAX_BITRATES {
        cnt := B.MAX_BITRATES;
      }
      assert bitrates[..cnt] == B.Window(Ring());
      var min, avg, max := B.BitrateStatistics(bitrates[..cnt]);
      statistics := (min, avg, max);
    }
  }

  class Observer {
    var seen: T.Seen

    constructor ()
      ensures seen == T.Seen([], [], [], [])
    {
      seen := T.Seen([], [], [], []);
    }

    method AddTask(id: string)
      modifies this
      ensures seen == old(seen).(added := old(seen).added + [id])
    {
      seen := seen.(added := seen.added + [id]);
    }

    method DelTask(id: string, t: Task)
      modifies this
      ensures seen == old(seen).(deleted := old(seen).deleted + [id], left := old(seen).left + [t.View()])
    {
      seen := seen.(deleted := seen.deleted + [id], left := seen.left + [t.View()]);
    }

    method TaskStateNotify(r: T.Report, t: Task?)
      modifies this
      ensures seen == old(seen).(notified := old(seen).notified + [T.Told(r, ViewOf(t))])
    {
      seen := seen.(notified := seen.notified + [T.Told(r, ViewOf(t))]);
    }
  }

  ghost function Counters(n: Node): (c: T.Counts)
    reads n`uploadTaskCnt, n`downloadTaskCnt
    ensures c.Of(Upload) == n.Count(Upload) && c.Of(Download) == n.Count(Download)
  {
    T.Counts(n.uploadTaskCnt, n.downloadTaskCnt)
  }

  ghost function CountersOf(online: map<string, Node>): map<string, T.Counts>
    reads online.Values`uploadTaskCnt, online.Values`downloadTaskCnt
  {
    map nid | nid in online :: Counters(online[nid])
  }

  function SlotsOf(tasks: map<string, Task?>): set<array<nat>> {
    set id | id in tasks && tasks[id] != null :: tasks[id].bitrates
  }

  ghost function ViewsOf(tasks: map<string, Task?>): map<string, Option<T.Task>>
    reads tasks.Values`state, tasks.Values`traffic
  {
    map id | id in tasks :: ViewOf(tasks[id])
  }

  /** Every task stands under its own id with its own slots. */
  ghost predicate TasksFit(tasks: map<string, Task?>) {
    && (forall id :: id in tasks && tasks[id] != null ==> tasks[id].id == id && tasks[id].bitrates.Length == B.MAX_BITRATES)
    && (forall a, b :: a in tasks && b in tasks && a != b && tasks[a] != null && tasks[b] != null ==>
          tasks[a] != tasks[b] && tasks[a].bitrates != tasks[b].bitrates)
  }

  /** Is the task, if any, apart from those of the table? */
  ghost predicate Apart(tasks: map<string, Task?>, t: Task?)
  {
    t != null ==> t.bitrates.Length == B.MAX_BITRATES && t !in tasks.Values && t.bitrates !in SlotsOf(tasks)
  }

  lemma TaskDropped(tasks: map<string, Task?>, id: string)
    requires TasksFit(tasks)
    ensures TasksFit(tasks - {id}) && ViewsOf(tasks - {id}) == ViewsOf(tasks) - {id}
    ensures id in tasks && tasks[id] != null ==> tasks[id].bitrates.Length == B.MAX_BITRATES
    ensures id in tasks <==> id in ViewsOf(tasks)
    ensures id in tasks ==> ViewsOf(tasks)[id] == ViewOf(tasks[id]) && (ViewOf(tasks[id]).Some? <==> tasks[id] != null)
    ensures id in tasks && tasks[id] != null ==> ViewsOf(tasks)[id].value == tasks[id].View()
    ensures (tasks - {id}).Values <= tasks.Values && SlotsOf(tasks - {id}) <= SlotsOf(tasks)
  {
  }

  function ViewOf(t: Task?): Option<T.Task>
    reads {t}`state, {t}`traffic
  {
    if t == null then None else Some(t.View())
  }

  lemma TaskPut(tasks: map<string, Task?>, id: string, t: Task?)
    requires TasksFit(tasks) && Apart(tasks, t) && (t != null ==> t.id == id)
    ensures TasksFit(tasks[id := t]) && ViewsOf(tasks[id := t]) == ViewsOf(tasks)[id := ViewOf(t)]
  {
  }

  class TaskManager {
    var tasks: map<string, Task?>
    const observers: seq<Observer>
    const nodes: NodeManager
    ghost var seen: T.Seen

    ghost predicate ObserversFit()
      reads this, observers
    {
      && (forall i, j :: 0 <= i < j < |observers| ==> observers[i] != observers[j])
      && (forall o :: o in observers ==> o.seen == seen)
    }

    ghost predicate Valid()
      reads this, observers, nodes
    {
      && TasksFit(tasks) && ObserversFit()
      && forall nid :: nid in nodes.idMap ==> nodes.idMap[nid].nid == nid
    }

    /** Each observer's own record is `seen`, see `ObserversFit`. */
    ghost function Model(): T.Table
      reads this, nodes, nodes.idMap.Values`uploadTaskCnt, nodes.idMap.Values`downloadTaskCnt
      reads tasks.Values`state, tasks.Values`traffic
    {
      T.Table(ViewsOf(tasks), CountersOf(nodes.idMap), seen)
    }

    constructor (observers: seq<Observer>, nodes: NodeManager)
      requires nodes.Valid()
      requires forall i, j :: 0 <= i < j < |observers| ==> observers[i] != observers[j]
      requires forall o :: o in observers ==> o.seen == T.Seen([], [], [], [])
      ensures Valid() && this.observers == observers && this.nodes == nodes
      ensures Model() == T.Table(map[], CountersOf(nodes.idMap), T.Seen([], [], [], []))
    {
      this.observers, this.nodes := observers, nodes;
      tasks, seen := map[], T.Seen([], [], [], []);
    }

    static method Bump(n: Node, typ: JobType, v: int)
      modifies n`uploadTaskCnt, n`downloadTaskCnt
      ensures Counters(n) == old(Counters(n)).Bumped(typ, v)
    {
      n.AddTaskCnt(typ, v);
    }

    static method BumpAt(online: map<string, Node>, nid: string, typ: JobType, v: int)
      requires forall nid :: nid in online ==> online[nid].nid == nid
      modifies online.Values`uploadTaskCnt, online.Values`downloadTaskCnt
      ensures CountersOf(online) == T.Counted(old(CountersOf(online)), nid, typ, v)
    {
      hide Counters, T.Counts.Bumped;
      if nid in online {
        Bump(online[nid], typ, v);
      }
    }

    method AddTaskCnt(nid: string, typ: JobType, v: int) returns (zone: string)
      requires forall nid :: nid in nodes.idMap ==> nodes.idMap[nid].nid == nid
      modifies nodes.idMap.Values`uploadTaskCnt, nodes.idMap.Values`downloadTaskCnt
      ensures Model() == old(Model()).(nodes := T.Counted(old(Model()).nodes, nid, typ, v))
      ensures zone == if nid in nodes.idMap then nodes.idMap[nid].zoneId else ""
    {
      hide ViewsOf, CountersOf, T.Counted;
      var node := nodes.GetByNid(nid);
      zone := if node.Some? then node.value.zoneId else "";
      BumpAt(nodes.idMap, nid, typ, v);
    }

    method TellAdded(id: string)
      requires ObserversFit()
      modifies this`seen, observers
      ensures ObserversFit() && Model() == old(Model()).(seen := old(seen).(added := old(seen).added + [id]))
    {
      ghost var now := seen.(added := seen.added + [id]);
      for i := 0 to |observers|
        invariant seen == old(seen)
        invariant forall j :: 0 <= j < |observers| ==> observers[j].seen == if j < i then now else seen
      {
        observers[i].AddTask(id);
      }
      seen := now;
    }

    method TellDeleted(id: string, t: Task)
      requires ObserversFit()
      modifies this`seen, observers
      ensures ObserversFit()
      ensures Model() == old(Model()).(seen :=
        old(seen).(deleted := old(seen).deleted + [id], left := old(seen).left + [t.View()]))
    {
      ghost var now := seen.(deleted := seen.deleted + [id], left := seen.left + [t.View()]);
      for i := 0 to |observers|
        invariant seen == old(seen)
        invariant forall j :: 0 <= j < |observers| ==> observers[j].seen == if j < i then now else seen
      {
        observers[i].DelTask(id, t);
      }
      seen := now;
    }

    method TellState(r: T.Report, t: Task?)
      requires ObserversFit()
      modifies this`seen, observers
      ensures ObserversFit()
      ensures Model() == old(Model()).(seen := old(seen).(notified := old(seen).notified + [T.Told(r, ViewOf(t))]))
    {
      ghost var now := seen.(notified := seen.notified + [T.Told(r, ViewOf(t))]);
      for i := 0 to |observers|
        invariant seen == old(seen)
        invariant forall j :: 0 <= j < |observers| ==> observers[j].seen == if j < i then now else seen
      {
        observers[i].TaskStateNotify(r, t);
      }
      seen := now;
    }

    /** The task is counted at its node and takes its zone on. */
    method CountIn(t: Task)
      requires Valid() && Apart(tasks, t)
      modifies t`zoneId, nodes.idMap.Values`uploadTaskCnt, nodes.idMap.Values`downloadTaskCnt
      ensures Model() == old(Model()).(nodes := T.Counted(old(Model()).nodes, t.nid, t.typ, 1))
      ensures t.zoneId == if t.nid in nodes.idMap then nodes.idMap[t.nid].zoneId else ""
    {
      hide ViewsOf, TasksFit, CountersOf, T.Counted;
      t.zoneId := AddTaskCnt(t.nid, t.typ, 1);
    }

    method Enter(t: Task)
      requires Valid() && Apart(tasks, t)
      modifies `tasks
      ensures Valid() && Model() == old(Model()).(tasks := old(Model()).tasks[t.id := Some(t.View())])
    {
      hide ViewsOf, TasksFit, CountersOf;
      TaskPut(tasks, t.id, t);
      tasks := tasks[t.id := t];
    }

    method AddTask(t: Task)
      requires Valid() && Apart(tasks, t)
      modifies this, observers, t`zoneId, nodes.idMap.Values`uploadTaskCnt, nodes.idMap.Values`downloadTaskCnt
      ensures Valid() && Model() == T.Added(old(Model()), t.id, t.View())
      ensures t.View() == old(t.View())
      ensures t.zoneId == if t.nid in nodes.idMap then nodes.idMap[t.nid].zoneId else ""
    {
      hide ViewsOf, TasksFit, CountersOf, T.Counted, Apart;
      CountIn(t);
      Enter(t);
      TellAdded(t.id);
    }

    /** The task takes its statistics and is no longer counted. */
    method CountOut(t: Task)
      requires t.bitrates.Length == B.MAX_BITRATES
      requires forall nid :: nid in nodes.idMap ==> nodes.idMap[nid].nid == nid
      modifies t`statistics, nodes.idMap.Values`uploadTaskCnt, nodes.idMap.Values`downloadTaskCnt
      ensures Model() == old(Model()).(nodes := T.Counted(old(Model()).nodes, t.nid, t.typ, -1))
    {
      hide ViewsOf, CountersOf, T.Counted;
      ghost var was := Model();
      t.Finish();
      assert Model() == was;
      var _ := AddTaskCnt(t.nid, t.typ, -1);
    }

    method DelTask(id: string)
      requires Valid()
      modifies this, observers, tasks.Values`statistics
      modifies nodes.idMap.Values`uploadTaskCnt, nodes.idMap.Values`downloadTaskCnt
      ensures Valid() && Model() == T.Deleted(old(Model()), id)
      ensures tasks == old(tasks) - {id}
    {
      hide ViewsOf, ViewOf, TasksFit, CountersOf, T.Counted;
      TaskDropped(tasks, id);
      var t := if id in tasks then tasks[id] else null;
      tasks := tasks - {id};
      if t == null {
        return;
      }
      CountOut(t);
      TellDeleted(id, t);
    }

    method SetState(id: string, state: TransferState, traffic: nat)
      requires Valid() && id in tasks && tasks[id] != null
      modifies tasks.Values`state, tasks.Values`traffic
      ensures Model() == old(Model()).(tasks :=
        old(ViewsOf(tasks))[id := Some(T.Refreshed(old(tasks[id].View()), state, traffic))])
    {
      hide CountersOf;
      var t := tasks[id];
      t.state := state;
      if traffic > 0 && t.traffic != traffic {
        t.traffic := traffic;
      }
    }

    /** The check timer of task `id` has run out. */
    method Timeout(id: string)
      requires Valid()
      modifies this, observers, tasks.Values`state, tasks.Values`traffic, tasks.Values`statistics
      modifies nodes.idMap.Values`uploadTaskCnt, nodes.idMap.Values`downloadTaskCnt
      ensures Valid() && Model() == T.TimedOut(old(Model()), id)
    {
      TaskDropped(tasks, id);
      hide ViewsOf, TasksFit, CountersOf, T.Deleted;
      if id in tasks && tasks[id] != null && tasks[id].state.Doing? {
        SetState(id, Pause, 0);
      }
      DelTask(id);
    }

    /** `stored` is the task the database would load under this id. */
    method GetTask(id: string, stored: Task?) returns (t: Task?)
      requires Valid()
      requires stored != null ==> stored.id == id && Apart(tasks, stored)
      modifies this`tasks
      ensures Valid() && id in tasks && t == tasks[id]
      ensures tasks == (if id in old(tasks) then old(tasks) else old(tasks)[id := stored])
      ensures Model() == T.Fetched(old(Model()), id, ViewOf(stored))
    {
      TaskDropped(tasks, id);
      hide ViewsOf, TasksFit, CountersOf;
      if id !in tasks {
        TaskPut(tasks, id, stored);
        tasks := tasks[id := stored];
      }
      t := tasks[id];
    }

    /** The first half of a report: the task is fetched and takes over the state and traffic. */
    method Refresh(r: T.Report, stored: Task?) returns (t: Task?)
      requires Valid() && r.state.Some?
      requires stored != null ==> stored.id == r.id && Apart(tasks, stored)
      modifies `tasks, {stored}`state, {stored}`traffic, tasks.Values`state, tasks.Values`traffic
      ensures Valid() && r.id in tasks && t == tasks[r.id]
      ensures t != null ==> t.bitrates.Length == B.MAX_BITRATES && (t == stored || t in old(tasks.Values))
      ensures tasks == if r.id in old(tasks) then old(tasks) else old(tasks)[r.id := stored]
      ensures r.id in Model().tasks && Model().tasks[r.id] == ViewOf(t)
      ensures var f := T.Fetched(old(Model()), r.id, old(ViewOf(stored)));
        Model() ==
        if T.IsLive(f, r.id)
        then f.(tasks := f.tasks[r.id := Some(T.Refreshed(f.tasks[r.id].value, r.state.value, r.traffic))])
        else f
    {
      t := GetTask(r.id, stored);
      TaskDropped(tasks, r.id);
      hide ViewsOf, TasksFit, CountersOf, T.Fetched, T.Refreshed;
      if t != null {
        SetState(r.id, r.state.value, r.traffic);
      }
      TaskDropped(tasks, r.id);
    }

    method HandleTaskState(r: T.Report, bitrate: nat, stored: Task?)
      requires Valid()
      requires stored != null ==> stored.id == r.id && Apart(tasks, stored)
      modifies this, observers, stored, tasks.Values, SlotsOf(tasks), if stored == null then {} else {stored.bitrates}
      modifies nodes.idMap.Values`uploadTaskCnt, nodes.idMap.Values`downloadTaskCnt
      ensures Valid()
      ensures Model() == T.Handled(old(Model()), r, old(ViewOf(stored)))
      ensures var t := if r.id in old(tasks) then old(tasks)[r.id] else stored;
        t != null && r.state.Some? && r.sid != "" ==>
          && t.bitrates.Length == B.MAX_BITRATES
          && t.Ring() == B.Pushed(old(t.Ring()), bitrate)
    {
      hide ViewsOf, ViewOf, TasksFit, CountersOf, T.Deleted, T.Fetched, T.Refreshed, B.Pushed, Task.Ring;
      if r.state.None? {
        return;
      }
      var t := Refresh(r, stored);
      if r.sid != "" {
        if t != null {
          t.InputBitrate(bitrate);
        }
        TellState(r, t);
      } else {
        DelTask(r.id);
      }
    }
  }
}
