/** What each caller of a synchronous request gets, told by the steps of the run alone. */
module Replies {
  import opened RoundRobin
  import opened Correlation
  import C = Correlation

  /** The response that was handled last under sequence number `k`. */
  function LatestTo(es: seq<C.Event>, k: nat): Option<Rsp> {
    if es == [] then None
    else
      var e := es[|es| - 1];
      if e.Store? && e.m.seqNo == k then Some(e.m) else LatestTo(es[..|es| - 1], k)
  }

  /** It is the response of the last step that handled one under that number. */
  lemma {:induction false} LatestToExactly(es: seq<C.Event>, k: nat, m: Rsp)
    ensures LatestTo(es, k) == Some(m) <==>
      exists i :: 0 <= i < |es| && es[i] == Store(m) && m.seqNo == k
        && forall j :: i < j < |es| && es[j].Store? ==> es[j].m.seqNo != k
  {
    if es != [] {
      var front, e := es[..|es| - 1], es[|es| - 1];
      LatestToExactly(front, k, m);
      if e.Store? && e.m.seqNo == k {
        if e.m == m { assert es[|es| - 1] == Store(m); }
      } else if LatestTo(front, k) == Some(m) {
        var i :| 0 <= i < |front| && front[i] == Store(m) && m.seqNo == k
          && forall j :: i < j < |front| && front[j].Store? ==> front[j].m.seqNo != k;
        assert es[i] == Store(m);
      } else {
        assert forall j :: 0 <= j < |front| ==> front[j] == es[j];
      }
    }
  }

  /** Is this a step of caller `c` itself? */
  predicate Own(e: C.Event, c: nat) {
    e == Issue(c) || IsStepOf(e, c)
  }

  predicate Pending(p: Phase) {
    p.Issued? || p.Sent? || p.Waiting? || p.Received?
  }

  /** Did caller `c`, with sequence number `k`, read just this? */
  ghost predicate ReadAs(es: seq<C.Event>, c: nat, k: nat, rsp: Option<Rsp>) {
    exists i :: 0 <= i < |es| && es[i] == Read(c) && LatestTo(es[..i], k) == rsp
  }

  /** What caller `c` holds, against the steps taken. */
  ghost predicate Holds(es: seq<C.Event>, s: State, c: nat)
    requires c in s.callers
  {
    var k, p := s.callers[c].seqNo, s.callers[c].phase;
    if Pending(p) then
      Read(c) !in es && (c in s.slots && s.slots[c].rsp.Some? ==> s.slots[c].rsp == LatestTo(es, k))
    else
      && (p.rsp.Some? <==> Read(c) in es)
      && (p.rsp.Some? ==> ReadAs(es, c, k, p.rsp))
  }

  lemma ReadAsNext(es: seq<C.Event>, e: C.Event, c: nat, k: nat, rsp: Option<Rsp>)
    requires ReadAs(es, c, k, rsp) || (e == Read(c) && LatestTo(es, k) == rsp)
    ensures ReadAs(es + [e], c, k, rsp)
  {
    var all := es + [e];
    if ReadAs(es, c, k, rsp) {
      var i :| 0 <= i < |es| && es[i] == Read(c) && LatestTo(es[..i], k) == rsp;
      assert all[..i] == es[..i] && all[i] == Read(c);
    } else {
      assert all[..|es|] == es && all[|es|] == Read(c);
    }
  }

  lemma LatestNext(es: seq<C.Event>, e: C.Event, k: nat)
    ensures LatestTo(es + [e], k) == if e.Store? && e.m.seqNo == k then Some(e.m) else LatestTo(es, k)
  {
    assert (es + [e])[..|es + [e]| - 1] == es;
  }

  /** A step that is not the caller's own leaves its phase, and stores in its slot at most the
      response handled. */
  lemma OthersLeave(s: State, e: C.Event, c: nat)
    requires Inv(s) && Enabled(s, e) && c in s.callers && !Own(e, c)
    ensures var t := Step(s, e);
      && c in t.callers && t.callers[c] == s.callers[c] && c in t.slots
      && (Pending(s.callers[c].phase) ==>
            t.slots[c].rsp == if e.Store? && e.m.seqNo == s.callers[c].seqNo then Some(e.m) else s.slots[c].rsp)
  {
    assert CallerFits(s, c);
    if e.Store? && e.m.seqNo in s.pending { assert EntryFits(s, e.m.seqNo); }
    if e.Receive? { assert CallerFits(s, e.c); }
  }

  lemma OthersHold(es: seq<C.Event>, s: State, e: C.Event, c: nat)
    requires Inv(s) && Enabled(s, e) && c in s.callers && !Own(e, c) && Holds(es, s, c)
    ensures c in Step(s, e).callers && Holds(es + [e], Step(s, e), c)
  {
    OthersLeave(s, e, c);
    LatestNext(es, e, s.callers[c].seqNo);
    var p := s.callers[c].phase;
    hide Step, Inv, Enabled;
    if !Pending(p) && p.rsp.Some? { ReadAsNext(es, e, c, s.callers[c].seqNo, p.rsp); }
  }

  /** What the caller's own step makes of its phase. */
  lemma OwnStep(s: State, e: C.Event, c: nat)
    requires Inv(s) && Enabled(s, e) && Own(e, c)
    ensures var t := Step(s, e);
      && c in t.callers && c in t.slots
      && (e == Issue(c) ==> t.callers[c].phase == Issued && t.slots[c].rsp.None?)
      && (e != Issue(c) ==> c in s.callers && c in s.slots && t.callers[c].seqNo == s.callers[c].seqNo && t.slots[c].rsp == s.slots[c].rsp)
      && (e == Transmit(c) ==> t.callers[c].phase == if s.closed then Returned(None) else Sent)
      && (e == Lookup(c) ==> t.callers[c].phase == Waiting(c))
      && (e == Receive(c) ==> t.callers[c].phase == if Full(s, c) then Received(c) else Returned(None))
      && (e == Read(c) ==> t.callers[c].phase == Taken(s.slots[c].rsp) && s.slots[c].rsp.Some?)
      && (e == Timeout(c) ==> t.callers[c].phase == Taken(None))
      && (e == Clear(c) ==> s.callers[c].phase.Taken? && t.callers[c].phase == Returned(s.callers[c].phase.rsp))
      && (e != Issue(c) && e != Clear(c) ==> Pending(s.callers[c].phase))
  {
    if e != Issue(c) { assert CallerFits(s, c); }
  }

  lemma OwnHolds(es: seq<C.Event>, s: State, e: C.Event, c: nat)
    requires Inv(s) && Enabled(s, e) && Own(e, c)
    requires if c in s.callers then Holds(es, s, c) else Read(c) !in es
    ensures c in Step(s, e).callers && Holds(es + [e], Step(s, e), c)
  {
    OwnStep(s, e, c);
    assert e == Issue(c) ==> c !in s.callers;
    hide Step, Inv, Enabled;
    if e != Issue(c) {
      var k := s.callers[c].seqNo;
      LatestNext(es, e, k);
      if e == Read(c) {
        ReadAsNext(es, e, c, k, s.slots[c].rsp);
      } else if e == Clear(c) && s.callers[c].phase.rsp.Some? {
        ReadAsNext(es, e, c, k, s.callers[c].phase.rsp);
      }
    }
  }

  lemma {:induction false} RunHolds(es: seq<C.Event>, s: State, c: nat)
    requires Reaches(es, s)
    ensures if c in s.callers then Holds(es, s, c) else Read(c) !in es
  {
    if es != [] {
      var front, e := es[..|es| - 1], es[|es| - 1];
      var before := After(front).value;
      RunHolds(front, before, c);
      RunFits(front, before);
      SameCallers(before, e);
      assert es == front + [e];
      if Own(e, c) {
        OwnHolds(front, before, e, c);
      } else if c in before.callers {
        OthersHold(front, before, e, c);
      }
    }
  }

  /** A caller that has returned has a response if and only if it read one, and then it returns the
      one that was handled last under its own number before it did. */
  lemma ReturnsWhatItRead(es: seq<C.Event>, s: State, c: nat)
    requires Reaches(es, s) && c in s.callers && s.callers[c].phase.Returned?
    ensures s.callers[c].phase.rsp.Some? <==> Read(c) in es
    ensures s.callers[c].phase.rsp.Some? ==>
      exists i :: 0 <= i < |es| && es[i] == Read(c) && LatestTo(es[..i], s.callers[c].seqNo) == s.callers[c].phase.rsp
  {
    RunHolds(es, s, c);
  }

  /** Step `i` is the last one caller `c` took. */
  ghost predicate LastOwn(es: seq<C.Event>, i: nat, c: nat) {
    i < |es| && Own(es[i], c) && forall j :: i < j < |es| ==> !Own(es[j], c)
  }

  lemma StepCloses(s: State, e: C.Event)
    requires Enabled(s, e)
    ensures Step(s, e).closed <==> s.closed || e == MarkClosed
  {
  }

  lemma {:induction false} ClosedExactly(es: seq<C.Event>, s: State)
    requires Reaches(es, s)
    ensures s.closed <==> MarkClosed in es
  {
    if es != [] {
      var front, e := es[..|es| - 1], es[|es| - 1];
      ClosedExactly(front, After(front).value);
      StepCloses(After(front).value, e);
      assert es == front + [e];
      hide Step, Enabled;
    }
  }

  /** Where a caller stands follows from the last step it took: sending fails if and only if the
      connection was marked closed; a lookup always finds its own request; receiving fails if and
      only if no announced response is unread; clearing returns what was taken. */
  lemma {:induction false} StandsExactly(es: seq<C.Event>, s: State, c: nat, i: nat)
    requires Reaches(es, s) && LastOwn(es, i, c)
    ensures c in s.callers
    ensures var p, front := s.callers[c].phase, es[..i];
      match es[i]
      case Issue(_) => p == Issued
      case Transmit(_) => p == if MarkClosed in front then Returned(None) else Sent
      case Lookup(_) => p == Waiting(c)
      case Receive(_) => p == if Unread(front, c) then Received(c) else Returned(None)
      case Read(_) => p == Taken(LatestTo(front, s.callers[c].seqNo)) && p.rsp.Some?
      case Timeout(_) => p == Taken(None)
      case Clear(_) => p.Returned? && (p.rsp.Some? <==> Read(c) in front)
      case _ => false
    decreases |es|
  {
    var front, e := es[..|es| - 1], es[|es| - 1];
    var before := After(front).value;
    RunFits(front, before);
    if i < |front| {
      assert front[..i] == es[..i] && LastOwn(front, i, c);
      StandsExactly(front, before, c, i);
      OthersLeave(before, e, c);
    } else {
      OwnStep(before, e, c);
      ClosedExactly(front, before);
      FullExactly(front, before, c);
      RunHolds(front, before, c);
      hide Step, Inv, Enabled, Unread, CallerFits;
    }
  }
}
