/** The filtered round robin queue behind the schedulers. */
module RoundRobin {

  datatype Option<T> = None | Some(value: T)

  /** What a request accepts; a request without a filter accepts every unit. */
  datatype Filter<!T> = NoFilter | Only(test: T -> bool) {
    predicate Accepts(u: T) {
      NoFilter? || test(u)
    }
  }

  // ---------------------------------------------------------------- one operation

  /** The position of the first accepted unit, or the length of the queue. */
  function FirstAccepted<T>(q: seq<T>, filter: Filter<T>): (i: nat)
    ensures i <= |q|
    ensures i < |q| ==> filter.Accepts(q[i])
    ensures forall j :: 0 <= j < i ==> !filter.Accepts(q[j])
  {
    if q == [] then 0
    else if filter.Accepts(q[0]) then 0
    else 1 + FirstAccepted(q[1..], filter)
  }

  function Rotated<T>(q: seq<T>, i: nat): seq<T>
    requires i < |q|
  {
    q[..i] + q[i + 1..] + [q[i]]
  }

  /** The first accepted unit is served and goes to the back. */
  function AfterGet<T>(q: seq<T>, filter: Filter<T>): seq<T> {
    var i := FirstAccepted(q, filter);
    if i < |q| then Rotated(q, i) else q
  }

  function Served<T>(q: seq<T>, filter: Filter<T>): Option<T> {
    var i := FirstAccepted(q, filter);
    if i < |q| then Some(q[i]) else None
  }

  function IndexOf<T(==)>(q: seq<T>, u: T): (i: nat)
    ensures i <= |q|
    ensures i < |q| ==> q[i] == u
    ensures forall j :: 0 <= j < i ==> q[j] != u
  {
    if q == [] then 0 else if q[0] == u then 0 else 1 + IndexOf(q[1..], u)
  }

  /** Without the first occurrence of `u`. */
  function AfterPop<T(==)>(q: seq<T>, u: T): seq<T> {
    var i := IndexOf(q, u);
    if i < |q| then q[..i] + q[i + 1..] else q
  }

  ghost predicate Distinct<T>(q: seq<T>) {
    forall i, j :: 0 <= i < j < |q| ==> q[i] != q[j]
  }

  // ---------------------------------------------------------------- the scheduler

  class RoundRobinScheduler<T(==)> {
    var unitQueue: seq<T>

    constructor ()
      ensures unitQueue == []
    {
      unitQueue := [];
    }

    method Get(filter: Filter<T>) returns (u: Option<T>)
      modifies this
      ensures u == Served(old(unitQueue), filter)
      ensures unitQueue == AfterGet(old(unitQueue), filter)
    {
      u := None;
      var i := 0;
      while i < |unitQueue|
        invariant unitQueue == old(unitQueue) && u == None
        invariant i <= |unitQueue| && forall j :: 0 <= j < i ==> !filter.Accepts(unitQueue[j])
      {
        if filter.Accepts(unitQueue[i]) {
          u := Some(unitQueue[i]);
          unitQueue := unitQueue[..i] + unitQueue[i + 1..] + [unitQueue[i]];
          return;
        }
        i := i + 1;
      }
    }

    method Put(u: T)
      modifies this
      ensures unitQueue == old(unitQueue) + [u]
    {
      unitQueue := unitQueue + [u];
    }

    method Pop(u: T)
      modifies this
      ensures unitQueue == AfterPop(old(unitQueue), u)
    {
      var i := 0;
      while i < |unitQueue|
        invariant unitQueue == old(unitQueue)
        invariant i <= |unitQueue| && forall j :: 0 <= j < i ==> unitQueue[j] != u
      {
        if unitQueue[i] == u {
          unitQueue := unitQueue[..i] + unitQueue[i + 1..];
          return;
        }
        i := i + 1;
      }
    }

    method NumUnits() returns (n: nat)
      ensures n == |unitQueue|
    {
      n := |unitQueue|;
    }

    method Reset()
      modifies this
      ensures unitQueue == []
    {
      unitQueue := [];
    }
  }

  // ---------------------------------------------------------------- what operations keep

  lemma GetMembers<T>(q: seq<T>, filter: Filter<T>)
    ensures forall u :: u in AfterGet(q, filter) <==> u in q
  {
    var i := FirstAccepted(q, filter);
    if i < |q| {
      assert q == q[..i] + [q[i]] + q[i + 1..];
    }
  }

  /** Serving conserves the units. */
  lemma GetKeeps<T>(q: seq<T>, filter: Filter<T>)
    requires Distinct(q)
    ensures Distinct(AfterGet(q, filter)) && forall u :: u in AfterGet(q, filter) <==> u in q
  {
    GetMembers(q, filter);
  }

  /** Popping a unit removes it and nothing else. */
  lemma PopKeeps<T>(q: seq<T>, u: T)
    requires Distinct(q)
    ensures Distinct(AfterPop(q, u)) && forall v :: v in AfterPop(q, u) <==> v in q && v != u
  {
    var i := IndexOf(q, u);
    if i < |q| {
      assert q == q[..i] + [q[i]] + q[i + 1..];
    }
  }

  // ---------------------------------------------------------------- runs

  datatype Event<!T> = PutE(u: T) | PopE(u: T) | GetE(filter: Filter<T>)

  function AfterEvent<T(==)>(q: seq<T>, e: Event<T>): seq<T> {
    match e
    case PutE(u) => q + [u]
    case PopE(u) => AfterPop(q, u)
    case GetE(filter) => AfterGet(q, filter)
  }

  function Queue<T(==)>(es: seq<Event<T>>): seq<T> {
    if es == [] then [] else AfterEvent(Queue(es[..|es| - 1]), es[|es| - 1])
  }

  /** Each unit is put only while it is not queued. */
  ghost predicate PutOnce<T>(es: seq<Event<T>>) {
    es != [] ==>
      && PutOnce(es[..|es| - 1])
      && (es[|es| - 1].PutE? ==> es[|es| - 1].u !in Queue(es[..|es| - 1]))
  }

  /** Does the last event put or serve `u`? */
  predicate Uses<T(==)>(es: seq<Event<T>>, u: T)
    requires es != []
  {
    match es[|es| - 1]
    case PutE(v) => v == u
    case PopE(_) => false
    case GetE(filter) => Served(Queue(es[..|es| - 1]), filter) == Some(u)
  }

  /** When was `u` last put or served? */
  function LastUse<T(==)>(es: seq<Event<T>>, u: T): (t: int)
    ensures -1 <= t < |es|
  {
    if es == [] then -1
    else if Uses(es, u) then |es| - 1
    else LastUse(es[..|es| - 1], u)
  }

  /** The queue stands in the order of last use. */
  ghost predicate Ordered<T>(es: seq<Event<T>>, q: seq<T>) {
    && (forall i :: 0 <= i < |q| ==> LastUse(es, q[i]) >= 0)
    && (forall i, j :: 0 <= i < j < |q| ==> LastUse(es, q[i]) < LastUse(es, q[j]))
  }

  lemma OrderedDistinct<T>(es: seq<Event<T>>, q: seq<T>)
    requires Ordered(es, q)
    ensures Distinct(q)
  {
    forall i, j | 0 <= i < j < |q|
      ensures q[i] != q[j]
    {
      assert LastUse(es, q[i]) < LastUse(es, q[j]);
    }
  }

  lemma PutOrdered<T>(es: seq<Event<T>>, before: seq<Event<T>>, u: T)
    requires es == before + [PutE(u)] && Ordered(before, Queue(before)) && u !in Queue(before)
    ensures Ordered(es, Queue(before) + [u])
  {
    assert es[..|es| - 1] == before;
    forall v | v in Queue(before)
      ensures LastUse(es, v) == LastUse(before, v)
    {
    }
  }

  lemma GetLastUse<T>(es: seq<Event<T>>, before: seq<Event<T>>, filter: Filter<T>, u: T)
    requires es == before + [GetE(filter)]
    ensures LastUse(es, u) == if Served(Queue(before), filter) == Some(u) then |before| else LastUse(before, u)
  {
    assert es[..|es| - 1] == before;
  }

  lemma GetLastUses<T>(es: seq<Event<T>>, before: seq<Event<T>>, filter: Filter<T>)
    requires es == before + [GetE(filter)] && Distinct(Queue(before))
    ensures var q := Queue(before);
      forall k :: 0 <= k < |q| ==>
        LastUse(es, q[k]) == if k == FirstAccepted(q, filter) then |before| else LastUse(before, q[k])
  {
    hide LastUse, Queue;
    var q := Queue(before);
    var i := FirstAccepted(q, filter);
    hide FirstAccepted;
    forall k | 0 <= k < |q|
      ensures LastUse(es, q[k]) == if k == i then |before| else LastUse(before, q[k])
    {
      GetLastUse(es, before, filter, q[k]);
    }
  }

  lemma GetOrdered<T>(es: seq<Event<T>>, before: seq<Event<T>>, filter: Filter<T>)
    requires es == before + [GetE(filter)] && Ordered(before, Queue(before))
    ensures Ordered(es, AfterGet(Queue(before), filter))
  {
    hide LastUse, Queue, FirstAccepted;
    OrderedDistinct(before, Queue(before));
    GetLastUses(es, before, filter);
  }

  lemma PopOrdered<T>(es: seq<Event<T>>, before: seq<Event<T>>, u: T)
    requires es == before + [PopE(u)] && Ordered(before, Queue(before))
    ensures Ordered(es, AfterPop(Queue(before), u))
  {
    assert es[..|es| - 1] == before;
    forall v
      ensures LastUse(es, v) == LastUse(before, v)
    {
    }
  }

  /** After any run in which units are put once, the queue stands in the order of last use. */
  lemma {:induction false} QueueByLastUse<T>(es: seq<Event<T>>)
    requires PutOnce(es)
    ensures Ordered(es, Queue(es)) && Distinct(Queue(es))
  {
    if es != [] {
      var before, e := es[..|es| - 1], es[|es| - 1];
      assert es == before + [e];
      QueueByLastUse(before);
      match e
      case PutE(u) => PutOrdered(es, before, u);
      case GetE(filter) => GetOrdered(es, before, filter);
      case PopE(u) => PopOrdered(es, before, u);
    }
    OrderedDistinct(es, Queue(es));
  }

  /** A request is served if and only if some queued unit is acceptable; it gets, of the
      acceptable units, the one whose last use is the longest ago. */
  lemma LeastRecentlyUsed<T>(es: seq<Event<T>>, filter: Filter<T>)
    requires PutOnce(es)
    ensures var q := Queue(es);
      match Served(q, filter)
      case None => AfterGet(q, filter) == q && forall u :: u in q ==> !filter.Accepts(u)
      case Some(u) =>
        && u in q && filter.Accepts(u)
        && forall v :: v in q && filter.Accepts(v) && v != u ==> LastUse(es, u) < LastUse(es, v)
  {
    QueueByLastUse(es);
    hide LastUse, Queue, FirstAccepted;
    var q := Queue(es);
    var i := FirstAccepted(q, filter);
    forall j | 0 <= j < |q| && j != i && filter.Accepts(q[j])
      ensures i < |q| && LastUse(es, q[i]) < LastUse(es, q[j])
    {
    }
  }

  // ---------------------------------------------------------------- waiting

  function Gets<T>(es: seq<Event<T>>): nat {
    if es == [] then 0 else (if es[0].GetE? then 1 else 0) + Gets(es[1..])
  }

  /** Is `u` served by one of the events, starting from queue `q`? */
  predicate ServedIn<T(==)>(q: seq<T>, es: seq<Event<T>>, u: T)
    decreases |es|
  {
    es != [] &&
    ((es[0].GetE? && Served(q, es[0].filter) == Some(u)) || ServedIn(AfterEvent(q, es[0]), es[1..], u))
  }

  /** Every request accepts `u`, which is neither put again nor popped. */
  ghost predicate Favours<T>(es: seq<Event<T>>, u: T) {
    forall i :: 0 <= i < |es| ==>
      match es[i]
      case GetE(filter) => filter.Accepts(u)
      case PutE(v) => v != u
      case PopE(v) => v != u
  }

  /** A unit with `p` units ahead of it that every request accepts is served by the `p + 1`st
      request at the latest, whatever else is put or popped in between. */
  lemma {:induction false} WaitIsBounded<T>(q: seq<T>, p: nat, es: seq<Event<T>>, u: T)
    requires p < |q| && q[p] == u && (forall i :: 0 <= i < |q| && i != p ==> q[i] != u)
    requires Favours(es, u) && Gets(es) > p
    ensures ServedIn(q, es, u)
    decreases |es|
  {
    var e := es[0];
    assert forall i :: 0 <= i < |es[1..]| ==> es[1..][i] == es[i + 1];
    match e
    case PutE(v) =>
      WaitIsBounded(q + [v], p, es[1..], u);
    case PopE(v) =>
      var i := IndexOf(q, v);
      WaitIsBounded(AfterPop(q, v), if i < p then p - 1 else p, es[1..], u);
    case GetE(filter) =>
      var i := FirstAccepted(q, filter);
      assert i <= p;
      if i < p { WaitIsBounded(Rotated(q, i), p - 1, es[1..], u); }
  }
}
