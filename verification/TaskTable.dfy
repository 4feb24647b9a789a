/** The table of running tasks, the task counts of the nodes, and what the observers of the task
    manager see. TaskManager.dfy holds the objects. */
module TaskTable {
  import opened RoundRobin
  import opened Jobs

  datatype Task = Task(typ: JobType, nid: string, state: TransferState, traffic: nat)

  datatype Counts = Counts(upload: int, download: int) {
    function Of(typ: JobType): int {
      if typ.Upload? then upload else download
    }

    /** Counts are clamped at zero. */
    function Bumped(typ: JobType, v: int): Counts {
      var n := if Of(typ) + v < 0 then 0 else Of(typ) + v;
      if typ.Upload? then this.(upload := n) else this.(download := n)
    }
  }

  /** What one observer is told; every observer is told the same. `left` are the tasks of `deleted`, as
      they went. */
  datatype Seen = Seen(added: seq<string>, deleted: seq<string>, left: seq<Task>, notified: seq<Told>)

  /** A report, with the task it is about, if there is one. */
  datatype Told = Told(report: Report, task: Option<Task>)

  /** A table entry may be empty: a report of an unknown task leaves one behind. */
  datatype Table = Table(tasks: map<string, Option<Task>>, nodes: map<string, Counts>, seen: Seen)

  /** `state` is None when the reported state is no known word. */
  datatype Report = Report(id: string, state: Option<TransferState>, sid: string, traffic: nat)

  /** `stored` is what the database holds under the id of a report. */
  datatype Event =
    | AddTask(id: string, typ: JobType, nid: string)
    | DelTask(id: string)
    | Timeout(id: string)
    | Handle(report: Report, stored: Option<Task>)
    | Register(nid: string)
    | Unregister(nid: string)

  // ---------------------------------------------------------------- the steps

  function Counted(nodes: map<string, Counts>, nid: string, typ: JobType, v: int): map<string, Counts> {
    if nid in nodes then nodes[nid := nodes[nid].Bumped(typ, v)] else nodes
  }

  function Added(s: Table, id: string, t: Task): Table {
    Table(s.tasks[id := Some(t)], Counted(s.nodes, t.nid, t.typ, 1), s.seen.(added := s.seen.added + [id]))
  }

  predicate IsLive(s: Table, id: string) {
    id in s.tasks && s.tasks[id].Some?
  }

  function Deleted(s: Table, id: string): Table {
    if !IsLive(s, id) then s.(tasks := s.tasks - {id})
    else
      var t := s.tasks[id].value;
      Table(s.tasks - {id}, Counted(s.nodes, t.nid, t.typ, -1),
            s.seen.(deleted := s.seen.deleted + [id], left := s.seen.left + [t]))
  }

  function TimedOut(s: Table, id: string): Table {
    Deleted(
      if IsLive(s, id) && s.tasks[id].value.state.Doing?
      then s.(tasks := s.tasks[id := Some(s.tasks[id].value.(state := Pause))]) else s,
      id)
  }

  /** An unknown id is looked up in the database, and what is found, or nothing, is kept. */
  function Fetched(s: Table, id: string, stored: Option<Task>): Table {
    if id in s.tasks then s else s.(tasks := s.tasks[id := stored])
  }

  function Refreshed(t: Task, state: TransferState, traffic: nat): Task {
    t.(state := state, traffic := if traffic > 0 then traffic else t.traffic)
  }

  function Handled(s: Table, r: Report, stored: Option<Task>): Table {
    if r.state.None? then s
    else
      var f := Fetched(s, r.id, stored);
      var u := if IsLive(f, r.id)
        then f.(tasks := f.tasks[r.id := Some(Refreshed(f.tasks[r.id].value, r.state.value, r.traffic))]) else f;
      if r.sid != "" then u.(seen := u.seen.(notified := u.seen.notified + [Told(r, u.tasks[r.id])]))
      else Deleted(u, r.id)
  }

  function Step(s: Table, e: Event): Table {
    match e
    case AddTask(id, typ, nid) => Added(s, id, Task(typ, nid, Idle, 0))
    case DelTask(id) => Deleted(s, id)
    case Timeout(id) => TimedOut(s, id)
    case Handle(report, stored) => Handled(s, report, stored)
    case Register(nid) => s.(nodes := s.nodes[nid := Counts(0, 0)])
    case Unregister(nid) => s.(nodes := s.nodes - {nid})
  }

  function Run(es: seq<Event>): Table {
    if es == [] then Table(map[], map[], Seen([], [], [], []))
    else Step(Run(es[..|es| - 1]), es[|es| - 1])
  }

  // ---------------------------------------------------------------- counts

  /** The live tasks of a type that are assigned to a node. */
  function Assigned(tasks: map<string, Option<Task>>, nid: string, typ: JobType): set<string> {
    set id | id in tasks && tasks[id].Some? && tasks[id].value.nid == nid && tasks[id].value.typ == typ
  }

  ghost predicate CountFits(s: Table, nid: string, typ: JobType) {
    nid in s.nodes ==> s.nodes[nid].Of(typ) == |Assigned(s.tasks, nid, typ)|
  }

  /** Every registered node counts exactly the live tasks assigned to it. */
  ghost predicate CountsFit(s: Table) {
    forall nid, typ :: CountFits(s, nid, typ)
  }

  /** Does the report bring a task back from the database? */
  predicate Revives(s: Table, e: Event) {
    e.Handle? && e.report.state.Some? && e.report.id !in s.tasks && e.stored.Some?
  }

  /** The exact condition under which a step keeps the counts right. */
  predicate CountSafe(s: Table, e: Event) {
    match e
    case AddTask(id, typ, nid) => IsLive(s, id) ==> s.tasks[id].value.nid !in s.nodes
    case Register(nid) => Assigned(s.tasks, nid, Upload) == {} && Assigned(s.tasks, nid, Download) == {}
    case Handle(report, stored) =>
      Revives(s, e) && stored.value.nid in s.nodes ==>
        report.sid == "" && s.nodes[stored.value.nid].Of(stored.value.typ) == 0
    case _ => true
  }

  lemma AssignedPut(tasks: map<string, Option<Task>>, id: string, t: Task, nid: string, typ: JobType)
    requires id in tasks && tasks[id].Some? ==> id !in Assigned(tasks, nid, typ)
    ensures var n := |Assigned(tasks[id := Some(t)], nid, typ)|;
      n == |Assigned(tasks, nid, typ)| + if t.nid == nid && t.typ == typ then 1 else 0
  {
    var was, now := Assigned(tasks, nid, typ), Assigned(tasks[id := Some(t)], nid, typ);
    if t.nid == nid && t.typ == typ {
      assert now == was + {id};
    } else {
      assert now == was;
    }
  }

  lemma AssignedDrop(tasks: map<string, Option<Task>>, id: string, nid: string, typ: JobType)
    ensures var n := |Assigned(tasks - {id}, nid, typ)|;
      n == |Assigned(tasks, nid, typ)| - if id in Assigned(tasks, nid, typ) then 1 else 0
  {
    var was, now := Assigned(tasks, nid, typ), Assigned(tasks - {id}, nid, typ);
    assert now == was - {id};
  }

  lemma DeletedCounts(s: Table, id: string)
    requires CountsFit(s)
    ensures CountsFit(Deleted(s, id))
  {
    var d := Deleted(s, id);
    forall nid, typ
      ensures CountFits(d, nid, typ)
    {
      assert CountFits(s, nid, typ);
      AssignedDrop(s.tasks, id, nid, typ);
    }
  }

  /** Replacing the state and traffic of a live task moves no count. */
  lemma RefreshedCounts(s: Table, id: string, t: Task)
    requires IsLive(s, id) && t.nid == s.tasks[id].value.nid && t.typ == s.tasks[id].value.typ
    ensures CountsFit(s.(tasks := s.tasks[id := Some(t)])) <==> CountsFit(s)
  {
    var u := s.(tasks := s.tasks[id := Some(t)]);
    forall nid, typ
      ensures CountFits(u, nid, typ) <==> CountFits(s, nid, typ)
    {
      assert Assigned(u.tasks, nid, typ) == Assigned(s.tasks, nid, typ);
    }
  }

  lemma AddedCounts(s: Table, id: string, t: Task)
    requires CountsFit(s)
    ensures CountsFit(Added(s, id, t)) <==> (IsLive(s, id) ==> s.tasks[id].value.nid !in s.nodes)
  {
    var a := Added(s, id, t);
    if IsLive(s, id) && s.tasks[id].value.nid in s.nodes {
      var o := s.tasks[id].value;
      var left := s.tasks - {id};
      assert CountFits(s, o.nid, o.typ);
      AssignedDrop(s.tasks, id, o.nid, o.typ);
      AssignedPut(left, id, t, o.nid, o.typ);
      assert left[id := Some(t)] == a.tasks;
      assert !CountFits(a, o.nid, o.typ);
    } else {
      forall nid, typ
        ensures CountFits(a, nid, typ)
      {
        assert CountFits(s, nid, typ);
        if nid in s.nodes { AssignedPut(s.tasks, id, t, nid, typ); }
      }
    }
  }

  lemma RegisterCounts(s: Table, nid: string)
    requires CountsFit(s)
    ensures CountsFit(Step(s, Register(nid))) <==> CountSafe(s, Register(nid))
  {
    var r := Step(s, Register(nid));
    forall other, typ | other != nid
      ensures CountFits(r, other, typ)
    {
      assert CountFits(s, other, typ);
    }
    assert CountFits(r, nid, Upload) <==> Assigned(s.tasks, nid, Upload) == {};
    assert CountFits(r, nid, Download) <==> Assigned(s.tasks, nid, Download) == {};
  }

  /** Bringing a task back keeps the counts only if its node is not registered. */
  lemma RevivedCounts(s: Table, id: string, t: Task)
    requires CountsFit(s) && id !in s.tasks
    ensures CountsFit(s.(tasks := s.tasks[id := Some(t)])) <==> t.nid !in s.nodes
  {
    var f := s.(tasks := s.tasks[id := Some(t)]);
    forall nid, typ
      ensures CountFits(f, nid, typ) <==> nid !in s.nodes || t.nid != nid || t.typ != typ
    {
      assert CountFits(s, nid, typ);
      AssignedPut(s.tasks, id, t, nid, typ);
    }
    assert CountFits(f, t.nid, t.typ) <==> t.nid !in s.nodes;
  }

  /** A revived task that ends at once takes one off the count, unless that is zero already. */
  lemma RevivedEnds(s: Table, id: string, t: Task)
    requires CountsFit(s) && id !in s.tasks
    ensures CountsFit(Deleted(s.(tasks := s.tasks[id := Some(t)]), id))
      <==> (t.nid in s.nodes ==> s.nodes[t.nid].Of(t.typ) == 0)
  {
    var d := Deleted(s.(tasks := s.tasks[id := Some(t)]), id);
    assert d.tasks == s.tasks;
    forall nid, typ
      ensures CountFits(d, nid, typ) <==> (nid in s.nodes && nid == t.nid && typ == t.typ ==> s.nodes[nid].Of(typ) == 0)
    {
      assert CountFits(s, nid, typ);
    }
    assert CountFits(d, t.nid, t.typ) <==> (t.nid in s.nodes ==> s.nodes[t.nid].Of(t.typ) == 0);
  }

  lemma HandleCounts(s: Table, r: Report, stored: Option<Task>)
    requires CountsFit(s)
    ensures CountsFit(Handled(s, r, stored)) <==> CountSafe(s, Handle(r, stored))
  {
    if r.state.Some? {
      var f := Fetched(s, r.id, stored);
      if Revives(s, Handle(r, stored)) {
        var t := Refreshed(stored.value, r.state.value, r.traffic);
        assert f.tasks[r.id := Some(t)] == s.tasks[r.id := Some(t)];
        RevivedCounts(s, r.id, t);
        RevivedEnds(s, r.id, t);
        SeenApart(s.(tasks := s.tasks[r.id := Some(t)]), Told(r, Some(t)));
      } else {
        FetchedCounts(s, r.id, stored);
        var u := f;
        if IsLive(f, r.id) {
          var t := Refreshed(f.tasks[r.id].value, r.state.value, r.traffic);
          RefreshedCounts(f, r.id, t);
          u := f.(tasks := f.tasks[r.id := Some(t)]);
        }
        DeletedCounts(u, r.id);
        SeenApart(u, Told(r, u.tasks[r.id]));
      }
    }
  }

  lemma FetchedCounts(s: Table, id: string, stored: Option<Task>)
    requires CountsFit(s) && (id in s.tasks || stored.None?)
    ensures CountsFit(Fetched(s, id, stored))
  {
    forall nid, typ
      ensures CountFits(Fetched(s, id, stored), nid, typ)
    {
      assert CountFits(s, nid, typ);
      assert Assigned(Fetched(s, id, stored).tasks, nid, typ) == Assigned(s.tasks, nid, typ);
    }
  }

  lemma SeenApart(s: Table, told: Told)
    ensures CountsFit(s.(seen := s.seen.(notified := s.seen.notified + [told]))) <==> CountsFit(s)
  {
    var n := s.(seen := s.seen.(notified := s.seen.notified + [told]));
    forall nid, typ
      ensures CountFits(n, nid, typ) <==> CountFits(s, nid, typ)
    {
    }
  }

  /** A step keeps every node's counts equal to its live tasks if and only if it adds no task over
      a live one, registers no node that has live tasks, and revives no task of a registered node
      other than one that ends at once while the count is zero. */
  lemma CountsKeptExactly(s: Table, e: Event)
    requires CountsFit(s)
    ensures CountsFit(Step(s, e)) <==> CountSafe(s, e)
  {
    match e
    case AddTask(id, typ, nid) => AddedCounts(s, id, Task(typ, nid, Idle, 0));
    case DelTask(id) => DeletedCounts(s, id);
    case Timeout(id) =>
      if IsLive(s, id) && s.tasks[id].value.state.Doing? {
        var t := s.tasks[id].value.(state := Pause);
        RefreshedCounts(s, id, t);
        DeletedCounts(s.(tasks := s.tasks[id := Some(t)]), id);
      } else {
        DeletedCounts(s, id);
      }
    case Handle(report, stored) => HandleCounts(s, report, stored);
    case Register(nid) => RegisterCounts(s, nid);
    case Unregister(nid) =>
      forall other, typ
        ensures CountFits(Step(s, e), other, typ)
      {
        assert CountFits(s, other, typ);
      }
  }

  ghost predicate CountSafeRun(es: seq<Event>) {
    es != [] ==> CountSafeRun(es[..|es| - 1]) && CountSafe(Run(es[..|es| - 1]), es[|es| - 1])
  }

  /** Over every such run the counts are exact, and the clamp at zero takes nothing away: a live
      task of a registered node has its node's count at one or more. */
  lemma {:induction false} CountsAreExact(es: seq<Event>)
    requires CountSafeRun(es)
    ensures CountsFit(Run(es))
    ensures var s := Run(es);
      forall id :: IsLive(s, id) && s.tasks[id].value.nid in s.nodes ==>
        s.nodes[s.tasks[id].value.nid].Of(s.tasks[id].value.typ) >= 1
  {
    if es != [] {
      CountsAreExact(es[..|es| - 1]);
      CountsKeptExactly(Run(es[..|es| - 1]), es[|es| - 1]);
    }
    var s := Run(es);
    forall id | IsLive(s, id) && s.tasks[id].value.nid in s.nodes
      ensures s.nodes[s.tasks[id].value.nid].Of(s.tasks[id].value.typ) >= 1
    {
      var t := s.tasks[id].value;
      assert CountFits(s, t.nid, t.typ);
      assert id in Assigned(s.tasks, t.nid, t.typ);
    }
  }

  // ---------------------------------------------------------------- what observers see

  function LiveIds(s: Table): set<string> {
    set id | id in s.tasks && s.tasks[id].Some?
  }

  function Ids(q: seq<string>): set<string> {
    set id | id in q
  }

  /** Every task is seen added once and deleted at most once; the live ones are those seen added
      and not yet deleted. */
  ghost predicate SeenFits(s: Table) {
    && Distinct(s.seen.added) && Distinct(s.seen.deleted)
    && Ids(s.seen.deleted) !! LiveIds(s)
    && Ids(s.seen.added) == Ids(s.seen.deleted) + LiveIds(s)
  }

  predicate SeenSafe(s: Table, e: Event) {
    !Revives(s, e) && (e.AddTask? ==> e.id !in s.seen.added)
  }

  lemma DeletedSeen(s: Table, id: string)
    requires SeenFits(s)
    ensures SeenFits(Deleted(s, id))
  {
    var d := Deleted(s, id);
    if IsLive(s, id) {
      assert id in LiveIds(s);
      assert LiveIds(d) == LiveIds(s) - {id};
      assert Ids(d.seen.deleted) == Ids(s.seen.deleted) + {id};
      assert id !in Ids(s.seen.deleted);
    } else {
      assert LiveIds(d) == LiveIds(s);
    }
  }

  /** Two states with the same live tasks and the same sightings. */
  lemma SameSeen(s: Table, t: Table)
    requires LiveIds(s) == LiveIds(t) && s.seen.added == t.seen.added && s.seen.deleted == t.seen.deleted
    ensures SeenFits(s) <==> SeenFits(t)
  {
  }

  lemma AddedSeen(s: Table, id: string, t: Task)
    requires SeenFits(s)
    ensures SeenFits(Added(s, id, t)) <==> id !in s.seen.added
  {
    var a := Added(s, id, t);
    assert LiveIds(a) == LiveIds(s) + {id};
    assert Ids(a.seen.added) == Ids(s.seen.added) + {id};
    if id in s.seen.added {
      var i :| 0 <= i < |s.seen.added| && s.seen.added[i] == id;
      assert a.seen.added[i] == a.seen.added[|s.seen.added|];
    } else {
      assert id !in Ids(s.seen.added);
    }
  }

  /** A task that comes back from the database was deleted already, or never seen. */
  lemma RevivedSeen(s: Table, id: string, t: Task)
    requires SeenFits(s) && id !in s.tasks
    ensures var f := s.(tasks := s.tasks[id := Some(t)]);
      !SeenFits(f) && !SeenFits(Deleted(f, id))
  {
    var f := s.(tasks := s.tasks[id := Some(t)]);
    var d := Deleted(f, id);
    assert id in LiveIds(f) && id !in LiveIds(s);
    assert LiveIds(d) == LiveIds(s);
    assert d.seen.deleted == s.seen.deleted + [id];
    if id in s.seen.deleted {
      var i :| 0 <= i < |s.seen.deleted| && s.seen.deleted[i] == id;
      assert d.seen.deleted[i] == d.seen.deleted[|s.seen.deleted|];
      assert id in Ids(f.seen.deleted);
    } else {
      assert id !in Ids(s.seen.deleted);
      assert id in Ids(d.seen.deleted) && id !in Ids(d.seen.added);
    }
  }

  lemma HandleSeen(s: Table, r: Report, stored: Option<Task>)
    requires SeenFits(s)
    ensures SeenFits(Handled(s, r, stored)) <==> SeenSafe(s, Handle(r, stored))
  {
    if r.state.Some? {
      var f := Fetched(s, r.id, stored);
      if Revives(s, Handle(r, stored)) {
        var t := Refreshed(stored.value, r.state.value, r.traffic);
        assert f.tasks[r.id := Some(t)] == s.tasks[r.id := Some(t)];
        RevivedSeen(s, r.id, t);
        SameSeen(Handled(s, r, stored), if r.sid == "" then Handled(s, r, stored) else s.(tasks := s.tasks[r.id := Some(t)]));
      } else {
        var u := if IsLive(f, r.id)
          then f.(tasks := f.tasks[r.id := Some(Refreshed(f.tasks[r.id].value, r.state.value, r.traffic))]) else f;
        assert LiveIds(u) == LiveIds(s);
        SameSeen(s, u);
        DeletedSeen(u, r.id);
        SameSeen(Handled(s, r, stored), if r.sid == "" then Handled(s, r, stored) else u);
      }
    }
  }

  /** A step keeps the sightings straight if and only if it adds no id twice and brings no task
      back from the database. */
  lemma SeenKeptExactly(s: Table, e: Event)
    requires SeenFits(s)
    ensures SeenFits(Step(s, e)) <==> SeenSafe(s, e)
  {
    match e
    case AddTask(id, typ, nid) => AddedSeen(s, id, Task(typ, nid, Idle, 0));
    case DelTask(id) => DeletedSeen(s, id);
    case Timeout(id) =>
      if IsLive(s, id) && s.tasks[id].value.state.Doing? {
        var u := s.(tasks := s.tasks[id := Some(s.tasks[id].value.(state := Pause))]);
        assert LiveIds(u) == LiveIds(s);
        SameSeen(s, u);
        DeletedSeen(u, id);
      } else {
        DeletedSeen(s, id);
      }
    case Handle(report, stored) => HandleSeen(s, report, stored);
    case _ => SameSeen(s, Step(s, e));
  }

  ghost predicate SeenSafeRun(es: seq<Event>) {
    es != [] ==> SeenSafeRun(es[..|es| - 1]) && SeenSafe(Run(es[..|es| - 1]), es[|es| - 1])
  }

  /** Over every run with fresh task ids and no reload from the database, each observer sees a task
      added once and deleted at most once, even when timeouts and end reports both delete it. */
  lemma {:induction false} SeenOnce(es: seq<Event>)
    requires SeenSafeRun(es)
    ensures SeenFits(Run(es))
  {
    if es != [] {
      SeenOnce(es[..|es| - 1]);
      SeenKeptExactly(Run(es[..|es| - 1]), es[|es| - 1]);
    }
  }

  // ---------------------------------------------------------------- a task deleted twice

  /** Of two tasks of a node one is reported on, and then times out, which stores it as paused; its
      end report arrives late. */
  const LATE := [
    Register("n"),
    AddTask("a", Upload, "n"),
    AddTask("b", Upload, "n"),
    Handle(Report("a", Some(Doing), "s", 0), None),
    Timeout("a"),
    Handle(Report("a", Some(Done), "", 0), Some(Task(Upload, "n", Pause, 0)))]

  const PAUSED := Task(Upload, "n", Pause, 0)
  const TOLD := [Told(Report("a", Some(Doing), "s", 0), Some(Task(Upload, "n", Doing, 0)))]

  lemma Extend(es: seq<Event>, e: Event)
    ensures Run(es + [e]) == Step(Run(es), e)
  {
    assert (es + [e])[..|es + [e]| - 1] == es;
  }

  lemma LateSteps()
    ensures var s5 := Step(Step(Step(Step(Step(Run([]), LATE[0]), LATE[1]), LATE[2]), LATE[3]), LATE[4]);
      s5 == Table(map["b" := Some(Task(Upload, "n", Idle, 0))], map["n" := Counts(1, 0)], Seen(["a", "b"], ["a"], [PAUSED], TOLD))
  {
    var s1 := Step(Run([]), LATE[0]);
    assert s1 == Table(map[], map["n" := Counts(0, 0)], Seen([], [], [], []));
    var s2 := Step(s1, LATE[1]);
    assert s2 == Table(map["a" := Some(Task(Upload, "n", Idle, 0))], map["n" := Counts(1, 0)], Seen(["a"], [], [], []));
    var s3 := Step(s2, LATE[2]);
    assert s3.nodes == map["n" := Counts(2, 0)] && s3.seen == Seen(["a", "b"], [], [], []);
    var s4 := Step(s3, LATE[3]);
    assert s4.nodes == s3.nodes && s4.seen == Seen(["a", "b"], [], [], TOLD);
    assert s4.tasks == s3.tasks["a" := Some(Task(Upload, "n", Doing, 0))];
    assert Step(s4, LATE[4]).tasks == map["b" := Some(Task(Upload, "n", Idle, 0))];
  }

  /** The task is then deleted a second time: the observers see it, and the node counts no task
      while one is live. */
  lemma TaskCanBeDeletedTwice()
    ensures var s := Run(LATE);
      && s.seen.deleted == ["a", "a"] && !SeenFits(s)
      && s.nodes == map["n" := Counts(0, 0)] && IsLive(s, "b") && !CountsFit(s)
  {
    var es: seq<Event> := [];
    Extend(es, LATE[0]);
    Extend(es + [LATE[0]], LATE[1]);
    Extend(es + [LATE[0]] + [LATE[1]], LATE[2]);
    Extend(es + [LATE[0]] + [LATE[1]] + [LATE[2]], LATE[3]);
    var es4 := es + [LATE[0]] + [LATE[1]] + [LATE[2]] + [LATE[3]];
    Extend(es4, LATE[4]);
    Extend(es4 + [LATE[4]], LATE[5]);
    assert LATE == es4 + [LATE[4]] + [LATE[5]];
    LateSteps();
    LateEnd(Run(es4 + [LATE[4]]));
  }

  lemma LateEnd(s: Table)
    requires s == Table(map["b" := Some(Task(Upload, "n", Idle, 0))], map["n" := Counts(1, 0)], Seen(["a", "b"], ["a"], [PAUSED], TOLD))
    ensures var t := Step(s, LATE[5]);
      && t.seen.deleted == ["a", "a"] && !SeenFits(t)
      && t.nodes == map["n" := Counts(0, 0)] && IsLive(t, "b") && !CountsFit(t)
  {
    var t := Step(s, LATE[5]);
    assert t.tasks == s.tasks;
    assert t.seen.deleted[0] == t.seen.deleted[1];
    assert "b" in Assigned(t.tasks, "n", Upload);
    assert !CountFits(t, "n", Upload);
  }
}
