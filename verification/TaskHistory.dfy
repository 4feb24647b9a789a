/** The running tasks and what the observers are told, by the events of the run. */
module TaskHistory {
  import J = Jobs
  import opened RoundRobin
  import opened TaskTable
  import T = TaskTable

  // ---------------------------------------------------------------- which tasks run

  /** A report with a known state. */
  predicate ReportsOn(e: T.Event, id: string) {
    e.Handle? && e.report.id == id && e.report.state.Some?
  }

  /** Does a task come in under the id: as a new one, or fetched for a report of an unknown id? */
  predicate Enters(s: Table, e: T.Event, id: string) {
    || (e.AddTask? && e.id == id)
    || (ReportsOn(e, id) && id !in s.tasks && e.stored.Some?)
  }

  /** The task as it comes in. */
  function Entered(e: T.Event): Task
    requires e.AddTask? || (e.Handle? && e.stored.Some?)
  {
    match e
    case AddTask(_, typ, nid) => Task(typ, nid, J.Idle, 0)
    case Handle(_, stored) => stored.value
  }

  /** Does the event end a task of this id: its deletion, its timeout, or a report without a segment? */
  predicate Ends(e: T.Event, id: string) {
    || e == DelTask(id) || e == Timeout(id) || (ReportsOn(e, id) && e.report.sid == "")
  }

  /** The state after the reports among these events, from `state` on: the last one reported. */
  function LatestState(es: seq<T.Event>, id: string, state: J.TransferState): J.TransferState {
    if es == [] then state
    else if ReportsOn(es[|es| - 1], id) then es[|es| - 1].report.state.value
    else LatestState(es[..|es| - 1], id, state)
  }

  /** Likewise the last positive total. */
  function LatestTraffic(es: seq<T.Event>, id: string, traffic: nat): nat {
    if es == [] then traffic
    else if ReportsOn(es[|es| - 1], id) && es[|es| - 1].report.traffic > 0 then es[|es| - 1].report.traffic
    else LatestTraffic(es[..|es| - 1], id, traffic)
  }

  /** What an event does to the task of an id. */
  lemma StepTask(s: Table, e: T.Event, id: string)
    ensures IsLive(Step(s, e), id) <==> !Ends(e, id) && (Enters(s, e, id) || IsLive(s, id))
    ensures IsLive(Step(s, e), id) ==>
      var v := if Enters(s, e, id) then Entered(e) else s.tasks[id].value;
      Step(s, e).tasks[id].value == Task(v.typ, v.nid, LatestState([e], id, v.state), LatestTraffic([e], id, v.traffic))
  {
    assert [e][..0] == [];
  }

  /** A task came in under the id at step `i`, and since then none came or ended. */
  predicate EnteredAt(es: seq<T.Event>, i: nat, id: string) {
    && i < |es| && Enters(Run(es[..i]), es[i], id) && !Ends(es[i], id)
    && forall j: nat :: i < j < |es| ==> !Enters(Run(es[..j]), es[j], id) && !Ends(es[j], id)
  }

  lemma EnteredNext(es: seq<T.Event>, i: nat, id: string)
    requires es != []
    ensures var before, e := es[..|es| - 1], es[|es| - 1];
      EnteredAt(es, i, id) <==>
        if i == |before| then Enters(Run(before), e, id) && !Ends(e, id)
        else EnteredAt(before, i, id) && !Enters(Run(before), e, id) && !Ends(e, id)
  {
    hide Run, Enters, Ends;
    var before := es[..|es| - 1];
    assert es[..|before|] == before;
    forall j: nat | j < |before|
      ensures es[..j] == before[..j] && es[j] == before[j]
    {
    }
  }

  lemma LatestSnoc(es: seq<T.Event>, e: T.Event, id: string, state: J.TransferState, traffic: nat)
    ensures LatestState(es + [e], id, state) == LatestState([e], id, LatestState(es, id, state))
    ensures LatestTraffic(es + [e], id, traffic) == LatestTraffic([e], id, LatestTraffic(es, id, traffic))
  {
    assert (es + [e])[..|es|] == es && [e][..0] == [];
  }

  /** What entered at step `i`, with the state and traffic reported last since. */
  ghost predicate StandsAs(es: seq<T.Event>, i: nat, id: string, t: Task) {
    && EnteredAt(es, i, id)
    && var v := Entered(es[i]);
       t == Task(v.typ, v.nid, LatestState(es[i..], id, v.state), LatestTraffic(es[i..], id, v.traffic))
  }

  lemma StandsNext(es: seq<T.Event>, i: nat, id: string, t: Task)
    requires es != [] && StandsAs(es[..|es| - 1], i, id, t) && EnteredAt(es, i, id)
    ensures var e := es[|es| - 1];
      StandsAs(es, i, id, Task(t.typ, t.nid, LatestState([e], id, t.state), LatestTraffic([e], id, t.traffic)))
  {
    hide Run, Ends, LatestState, LatestTraffic;
    var before, e := es[..|es| - 1], es[|es| - 1];
    assert es[i..] == before[i..] + [e] && es[i] == before[i];
    LatestSnoc(before[i..], e, id, Entered(es[i]).state, Entered(es[i]).traffic);
  }

  /** A task is live if and only if it came in and nothing ended it since. Its type and node are those it
      came in with; its state is the one reported last since then, and its traffic the last positive total,
      or what it came in with where there was none. */
  lemma {:induction false} TaskFollowsReports(es: seq<T.Event>, id: string)
    ensures IsLive(Run(es), id) <==> exists i: nat :: EnteredAt(es, i, id)
    ensures IsLive(Run(es), id) ==> exists i: nat :: StandsAs(es, i, id, Run(es).tasks[id].value)
    decreases |es|
  {
    if es != [] {
      var before, e := es[..|es| - 1], es[|es| - 1];
      var s := Run(before);
      TaskFollowsReports(before, id);
      StepTask(s, e, id);
      assert Run(es) == Step(s, e);
      forall i: nat
        ensures EnteredAt(es, i, id) <==>
          if i == |before| then Enters(s, e, id) && !Ends(e, id)
          else EnteredAt(before, i, id) && !Enters(s, e, id) && !Ends(e, id)
      {
        EnteredNext(es, i, id);
      }
      EntryInside(before, id);
      hide Step, Run, IsLive;
      if Enters(s, e, id) && !Ends(e, id) {
        assert EnteredAt(es, |before|, id);
        assert es[|before|..] == [e];
        assert StandsAs(es, |before|, id, Run(es).tasks[id].value) by { assert es[|before|] == e; }
      } else if !Ends(e, id) && IsLive(s, id) {
        hide Enters, Ends;
        var i: nat :| StandsAs(before, i, id, s.tasks[id].value);
        assert EnteredAt(es, i, id);
        StandsNext(es, i, id, s.tasks[id].value);
      }
    }
  }

  lemma EntryInside(es: seq<T.Event>, id: string)
    ensures forall i: nat :: EnteredAt(es, i, id) ==> i < |es|
  {
  }

  // ---------------------------------------------------------------- which nodes are known

  /** The node registered at step `i`, and not out after that. */
  predicate RegisteredAt(es: seq<T.Event>, i: nat, nid: string) {
    i < |es| && es[i] == Register(nid) && forall j: nat :: i < j < |es| ==> es[j] != Unregister(nid)
  }

  lemma StepNodes(s: Table, e: T.Event, nid: string)
    ensures nid in Step(s, e).nodes <==> e == Register(nid) || (e != Unregister(nid) && nid in s.nodes)
  {
  }

  /** Counts are kept for exactly the nodes that registered and are not gone. */
  lemma {:induction false} RegisteredExactly(es: seq<T.Event>, nid: string)
    ensures nid in Run(es).nodes <==> exists i: nat :: RegisteredAt(es, i, nid)
  {
    if es != [] {
      var before, e := es[..|es| - 1], es[|es| - 1];
      RegisteredExactly(before, nid);
      StepNodes(Run(before), e, nid);
      forall i: nat
        ensures RegisteredAt(es, i, nid) <==>
          if i == |before| then e == Register(nid) else RegisteredAt(before, i, nid) && e != Unregister(nid)
      {
        RegisteredNext(es, i, nid);
      }
      assert !RegisteredAt(before, |before|, nid);
      hide Step, RegisteredAt;
      if e == Register(nid) { assert RegisteredAt(es, |before|, nid); }
    }
  }

  lemma RegisteredNext(es: seq<T.Event>, i: nat, nid: string)
    requires es != []
    ensures var before, e := es[..|es| - 1], es[|es| - 1];
      RegisteredAt(es, i, nid) <==>
        if i == |before| then e == Register(nid) else RegisteredAt(before, i, nid) && e != Unregister(nid)
  {
    var before := es[..|es| - 1];
    assert forall j: nat :: j < |before| ==> es[j] == before[j];
  }

  // ---------------------------------------------------------------- what the observers are told

  /** The ids of the tasks added, in order. */
  function AddedIds(es: seq<T.Event>): seq<string> {
    if es == [] then []
    else AddedIds(es[..|es| - 1]) + if es[|es| - 1].AddTask? then [es[|es| - 1].id] else []
  }

  /** The reports about segments, in order, each with its task as the report leaves it. */
  function Reported(es: seq<T.Event>): seq<Told> {
    if es == [] then []
    else
      var e := es[|es| - 1];
      Reported(es[..|es| - 1]) +
      if e.Handle? && e.report.state.Some? && e.report.sid != ""
      then [Told(e.report, if IsLive(Run(es), e.report.id) then Run(es).tasks[e.report.id] else None)] else []
  }

  /** The task that the event ends, with what it is when it goes: a transfer that times out is paused, and
      one that a report ends is as the report says. */
  function Gone(s: Table, e: T.Event): Option<(string, Task)> {
    match e
    case DelTask(id) => if IsLive(s, id) then Some((id, s.tasks[id].value)) else None
    case Timeout(id) =>
      if IsLive(s, id) then
        var t := s.tasks[id].value;
        Some((id, Task(t.typ, t.nid, if t.state == J.Doing then J.Pause else t.state, t.traffic)))
      else None
    case Handle(r, stored) =>
      if r.state.Some? && r.sid == "" && (IsLive(s, r.id) || (r.id !in s.tasks && stored.Some?)) then
        var t := if IsLive(s, r.id) then s.tasks[r.id].value else stored.value;
        Some((r.id, Task(t.typ, t.nid, r.state.value, if r.traffic > 0 then r.traffic else t.traffic)))
      else None
    case _ => None
  }

  function GoneIds(es: seq<T.Event>): seq<string> {
    if es == [] then []
    else
      var gone := Gone(Run(es[..|es| - 1]), es[|es| - 1]);
      GoneIds(es[..|es| - 1]) + if gone.Some? then [gone.value.0] else []
  }

  function GoneTasks(es: seq<T.Event>): seq<Task> {
    if es == [] then []
    else
      var gone := Gone(Run(es[..|es| - 1]), es[|es| - 1]);
      GoneTasks(es[..|es| - 1]) + if gone.Some? then [gone.value.1] else []
  }

  lemma StepSeen(s: Table, e: T.Event)
    ensures var was, now, gone := s.seen, Step(s, e).seen, Gone(s, e);
      && now.added == was.added + (if e.AddTask? then [e.id] else [])
      && now.deleted == was.deleted + (if gone.Some? then [gone.value.0] else [])
      && now.left == was.left + (if gone.Some? then [gone.value.1] else [])
      && now.notified == was.notified +
           if e.Handle? && e.report.state.Some? && e.report.sid != ""
           then [Told(e.report, if IsLive(Step(s, e), e.report.id) then Step(s, e).tasks[e.report.id] else None)] else []
  {
  }

  /** Every observer is told of each task added, of each task that ends, with the state in which it went,
      and of each report about a segment, with its task; of nothing else, and in this order. */
  lemma {:induction false} ObserversTold(es: seq<T.Event>)
    ensures Run(es).seen == Seen(AddedIds(es), GoneIds(es), GoneTasks(es), Reported(es))
  {
    if es != [] {
      ObserversTold(es[..|es| - 1]);
      StepSeen(Run(es[..|es| - 1]), es[|es| - 1]);
      hide Step, Gone, IsLive;
    }
  }
}
