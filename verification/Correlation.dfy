/** Requests to a node and the responses that answer them: callers, the handler of incoming
    messages and the closing of the connection, interleaved at will. Connection.dfy holds the
    objects; every section of code under a lock is one step here. */
module Correlation {
  import opened RoundRobin

  const U32: nat := 0x1_0000_0000

  datatype Rsp = Rsp(seqNo: nat, body: string)

  /** Where a caller of a synchronous request stands; `req` is the pending request it waits for,
      named by the caller that issued it. */
  datatype Phase =
    | Issued
    | Sent
    | Waiting(req: nat)
    | Received(req: nat)
    | Taken(rsp: Option<Rsp>)
    | Returned(rsp: Option<Rsp>)

  datatype Caller = Caller(seqNo: nat, phase: Phase)

  /** A pending request: the response and the channel of one slot. */
  datatype Slot = Slot(rsp: Option<Rsp>, full: bool, shut: bool)

  /** `handler` is the request whose response the handler of incoming messages has stored and is
      about to announce; it holds the lock of the pending requests until then. A panic ends the
      process: `crashed`. */
  datatype State = State(
    seqNo: nat,
    pending: map<nat, nat>,
    callers: map<nat, Caller>,
    slots: map<nat, Slot>,
    handler: Option<nat>,
    closing: bool,
    closed: bool,
    crashed: bool)

  /** Handling a response is two steps: `Store` takes the lock and stores it, `Announce` puts an item
      into the channel and gives the lock back. */
  datatype Event =
    | Issue(c: nat)
    | Transmit(c: nat)
    | Lookup(c: nat)
    | Store(m: Rsp)
    | Announce
    | Receive(c: nat)
    | Read(c: nat)
    | Timeout(c: nat)
    | Clear(c: nat)
    | CloseChannels
    | MarkClosed

  // ---------------------------------------------------------------- steps

  predicate At(s: State, c: nat) {
    c in s.callers && c in s.slots
  }

  /** Must the lock of the pending requests be free? */
  predicate Locks(e: Event) {
    e.Issue? || e.Lookup? || e.Store? || e.Clear? || e.CloseChannels?
  }

  /** Can the step be taken now? A full channel that is not closed makes the handler wait. */
  predicate Enabled(s: State, e: Event) {
    && !s.crashed && (Locks(e) ==> s.handler.None?)
    && match e
       case Issue(c) => c !in s.callers && c !in s.slots
       case Transmit(c) => At(s, c) && s.callers[c].phase.Issued?
       case Lookup(c) => At(s, c) && s.callers[c].phase.Sent?
       case Store(m) => m.seqNo in s.pending ==> s.pending[m.seqNo] in s.slots
       case Announce =>
         s.handler.Some? && s.handler.value in s.slots
         && (s.slots[s.handler.value].full ==> s.slots[s.handler.value].shut)
       case Receive(c) =>
         && At(s, c) && s.callers[c].phase.Waiting?
         && s.callers[c].phase.req in s.slots
         && (s.slots[s.callers[c].phase.req].full || s.slots[s.callers[c].phase.req].shut)
       case Read(c) => At(s, c) && s.callers[c].phase.Received? && s.callers[c].phase.req in s.slots
       case Timeout(c) => At(s, c) && s.callers[c].phase.Waiting?
       case Clear(c) => At(s, c) && s.callers[c].phase.Taken?
       case CloseChannels => true
       case MarkClosed => s.closing
  }

  /** Sequence numbers are 32 bits wide. */
  function NextNo(n: nat): nat {
    (n + 1) % U32
  }

  function Moved(s: State, c: nat, phase: Phase): State
    requires c in s.callers
  {
    s.(callers := s.callers[c := s.callers[c].(phase := phase)])
  }

  /** Is the channel of some pending request closed already? */
  predicate SomeShut(s: State) {
    exists k :: k in s.pending && s.pending[k] in s.slots && s.slots[s.pending[k]].shut
  }

  /** Sending to a closed channel panics, and so does closing one again. */
  function Step(s: State, e: Event): State
    requires Enabled(s, e)
  {
    match e
    case Issue(c) =>
      s.(seqNo := NextNo(s.seqNo),
         pending := s.pending[s.seqNo := c],
         callers := s.callers[c := Caller(s.seqNo, Issued)],
         slots := s.slots[c := Slot(None, false, false)])
    case Transmit(c) => Moved(s, c, if s.closed then Returned(None) else Sent)
    case Lookup(c) =>
      var k := s.callers[c].seqNo;
      Moved(s, c, if k in s.pending then Waiting(s.pending[k]) else Returned(None))
    case Store(m) =>
      if m.seqNo !in s.pending then s
      else
        var r := s.pending[m.seqNo];
        s.(slots := s.slots[r := s.slots[r].(rsp := Some(m))], handler := Some(r))
    case Announce =>
      var r := s.handler.value;
      if s.slots[r].shut then s.(crashed := true)
      else s.(slots := s.slots[r := s.slots[r].(full := true)], handler := None)
    case Receive(c) =>
      var r := s.callers[c].phase.req;
      if s.slots[r].full then Moved(s.(slots := s.slots[r := s.slots[r].(full := false)]), c, Received(r))
      else Moved(s, c, Returned(None))
    case Read(c) => Moved(s, c, Taken(s.slots[s.callers[c].phase.req].rsp))
    case Timeout(c) => Moved(s, c, Taken(None))
    case Clear(c) => Moved(s.(pending := s.pending - {s.callers[c].seqNo}), c, Returned(s.callers[c].phase.rsp))
    case CloseChannels =>
      if SomeShut(s) then s.(crashed := true)
      else s.(closing := true, slots := map r | r in s.slots :: s.slots[r].(shut := s.slots[r].shut || r in s.pending.Values))
    case MarkClosed => s.(closed := true)
  }

  const START := State(0, map[], map[], map[], None, false, false, false)

  // ---------------------------------------------------------------- the invariant

  predicate Unanswered(p: Phase) {
    p.Issued? || p.Sent? || p.Waiting?
  }

  /** What holds of one caller and its request. */
  ghost predicate CallerFits(s: State, c: nat)
    requires c in s.callers
  {
    var k, p := s.callers[c].seqNo, s.callers[c].phase;
    && c in s.slots
    && var slot := s.slots[c];
    && (slot.rsp.Some? ==> slot.rsp.value.seqNo == k)
    && (Unanswered(p) ==> (slot.rsp.Some? <==> slot.full || s.handler == Some(c)))
    && (slot.full || s.handler == Some(c) ==> slot.rsp.Some?)
    && (p.Waiting? || p.Received? ==> p.req == c)
    && (p.Received? ==> slot.rsp.Some?)
    && (p.Taken? || p.Returned? ==> p.rsp.Some? ==> p.rsp.value.seqNo == k)
    && (!p.Returned? ==> k in s.pending && s.pending[k] == c)
    && (s.handler == Some(c) ==> k in s.pending && s.pending[k] == c)
  }

  /** What holds of one entry of the pending requests. */
  ghost predicate EntryFits(s: State, k: nat)
    requires k in s.pending
  {
    var c := s.pending[k];
    && c in s.callers && s.callers[c].seqNo == k && c in s.slots
    && (!s.closing ==> !s.callers[c].phase.Returned? && !s.slots[c].shut)
  }

  ghost predicate Inv(s: State) {
    && s.slots.Keys == s.callers.Keys
    && (forall c :: c in s.callers ==> CallerFits(s, c))
    && (forall k :: k in s.pending ==> EntryFits(s, k))
    && (s.handler.Some? ==> s.handler.value in s.callers)
    && (s.closed ==> s.closing)
  }

  /** A sequence number still pending is not given out again. */
  predicate NoReuse(s: State, e: Event) {
    e.Issue? ==> s.seqNo !in s.pending
  }

  lemma IssueFits(s: State, c: nat)
    requires Inv(s) && Enabled(s, Issue(c)) && s.seqNo !in s.pending
    ensures Inv(Step(s, Issue(c)))
  {
    var t := Step(s, Issue(c));
    forall d | d in t.callers
      ensures CallerFits(t, d)
    {
      assert d != c ==> CallerFits(s, d);
    }
    forall k | k in t.pending
      ensures EntryFits(t, k)
    {
      assert k != s.seqNo ==> EntryFits(s, k);
    }
  }

  lemma StoreFits(s: State, m: Rsp)
    requires Inv(s) && Enabled(s, Store(m))
    ensures Inv(Step(s, Store(m)))
  {
    var t := Step(s, Store(m));
    forall d | d in t.callers
      ensures CallerFits(t, d)
    {
      assert CallerFits(s, d);
      assert m.seqNo in s.pending ==> EntryFits(s, m.seqNo);
    }
    forall k | k in t.pending
      ensures EntryFits(t, k)
    {
      assert EntryFits(s, k);
    }
  }

  lemma AnnounceFits(s: State)
    requires Inv(s) && Enabled(s, Announce)
    ensures Inv(Step(s, Announce))
  {
    var t := Step(s, Announce);
    forall d | d in t.callers
      ensures CallerFits(t, d)
    {
      assert CallerFits(s, d);
    }
    forall k | k in t.pending
      ensures EntryFits(t, k)
    {
      assert EntryFits(s, k);
    }
  }

  lemma CloseFits(s: State, e: Event)
    requires Inv(s) && Enabled(s, e) && (e.CloseChannels? || e.MarkClosed?)
    ensures Inv(Step(s, e))
  {
    var t := Step(s, e);
    forall d | d in t.callers
      ensures CallerFits(t, d)
    {
      assert CallerFits(s, d);
    }
    forall k | k in t.pending
      ensures EntryFits(t, k)
    {
      assert EntryFits(s, k);
    }
  }

  predicate IsStepOf(e: Event, c: nat) {
    e == Transmit(c) || e == Lookup(c) || e == Receive(c) || e == Read(c) || e == Timeout(c) || e == Clear(c)
  }

  lemma OwnStepFits(s: State, e: Event, c: nat)
    requires Inv(s) && Enabled(s, e) && c in s.callers && IsStepOf(e, c)
    ensures c in Step(s, e).callers && CallerFits(Step(s, e), c)
  {
    assert CallerFits(s, c);
  }

  lemma OtherCallerFits(s: State, e: Event, c: nat, d: nat)
    requires Inv(s) && Enabled(s, e) && c in s.callers && d in s.callers && c != d && IsStepOf(e, c)
    ensures d in Step(s, e).callers && CallerFits(Step(s, e), d)
  {
    assert CallerFits(s, c) && CallerFits(s, d);
  }

  lemma CallerStepShape(s: State, e: Event, c: nat)
    requires Inv(s) && Enabled(s, e) && c in s.callers && IsStepOf(e, c)
    ensures var t := Step(s, e);
      && t.callers.Keys == s.callers.Keys && t.slots.Keys == s.slots.Keys
      && t.handler == s.handler && t.closing == s.closing && t.closed == s.closed
      && t.pending.Keys <= s.pending.Keys
  {
    assert CallerFits(s, c);
  }

  lemma CallerStepEntry(s: State, e: Event, c: nat, k: nat)
    requires Inv(s) && Enabled(s, e) && c in s.callers && IsStepOf(e, c) && k in Step(s, e).pending
    ensures EntryFits(Step(s, e), k)
  {
    assert CallerFits(s, c) && EntryFits(s, k);
  }

  /** The steps of one caller touch no other caller. */
  lemma CallerStepFits(s: State, e: Event, c: nat)
    requires Inv(s) && Enabled(s, e) && c in s.callers && IsStepOf(e, c)
    ensures Inv(Step(s, e))
  {
    hide Step, Enabled, CallerFits, EntryFits, IsStepOf;
    var t := Step(s, e);
    CallerStepShape(s, e, c);
    OwnStepFits(s, e, c);
    forall d | d in t.callers
      ensures CallerFits(t, d)
    {
      if d != c { OtherCallerFits(s, e, c, d); }
    }
    forall k | k in t.pending
      ensures EntryFits(t, k)
    {
      CallerStepEntry(s, e, c, k);
    }
  }

  lemma StepFits(s: State, e: Event)
    requires Inv(s) && Enabled(s, e) && NoReuse(s, e)
    ensures Inv(Step(s, e))
  {
    match e
    case Issue(c) => IssueFits(s, c);
    case Store(m) => StoreFits(s, m);
    case Announce => AnnounceFits(s);
    case CloseChannels => CloseFits(s, e);
    case MarkClosed => CloseFits(s, e);
    case Transmit(c) => CallerStepFits(s, e, c);
    case Lookup(c) => CallerStepFits(s, e, c);
    case Receive(c) => CallerStepFits(s, e, c);
    case Read(c) => CallerStepFits(s, e, c);
    case Timeout(c) => CallerStepFits(s, e, c);
    case Clear(c) => CallerStepFits(s, e, c);
  }

  // ---------------------------------------------------------------- runs

  /** The state after the steps `es`, if they can be taken one after the other with no pending
      sequence number being given out again. */
  function After(es: seq<Event>): Option<State> {
    if es == [] then Some(START)
    else match After(es[..|es| - 1])
    case None => None
    case Some(s) =>
      var e := es[|es| - 1];
      if Enabled(s, e) && NoReuse(s, e) then Some(Step(s, e)) else None
  }

  predicate Reaches(es: seq<Event>, s: State) {
    After(es) == Some(s)
  }

  lemma {:induction false} RunFits(es: seq<Event>, s: State)
    requires Reaches(es, s)
    ensures Inv(s)
  {
    if es != [] {
      var before := After(es[..|es| - 1]).value;
      RunFits(es[..|es| - 1], before);
      StepFits(before, es[|es| - 1]);
    }
  }

  /** Every response that a request or a caller holds was handled. */
  ghost predicate Heard(es: seq<Event>, s: State) {
    && (forall r :: r in s.slots && s.slots[r].rsp.Some? ==> Store(s.slots[r].rsp.value) in es)
    && (forall c :: c in s.callers ==> PhaseHeard(es, s.callers[c].phase))
  }

  predicate PhaseHeard(es: seq<Event>, p: Phase) {
    (p.Taken? || p.Returned?) && p.rsp.Some? ==> Store(p.rsp.value) in es
  }

  lemma StepHeard(es: seq<Event>, s: State, e: Event)
    requires Heard(es, s) && Enabled(s, e)
    ensures Heard(es + [e], Step(s, e))
  {
    var t := Step(s, e);
    forall r | r in t.slots && t.slots[r].rsp.Some?
      ensures Store(t.slots[r].rsp.value) in es + [e]
    {
    }
    forall c | c in t.callers
      ensures PhaseHeard(es + [e], t.callers[c].phase)
    {
      assert c in s.callers ==> PhaseHeard(es, s.callers[c].phase);
    }
  }

  lemma {:induction false} RunHeard(es: seq<Event>, s: State)
    requires Reaches(es, s)
    ensures Heard(es, s)
  {
    if es != [] {
      RunHeard(es[..|es| - 1], After(es[..|es| - 1]).value);
      StepHeard(es[..|es| - 1], After(es[..|es| - 1]).value, es[|es| - 1]);
      assert es == es[..|es| - 1] + [es[|es| - 1]];
    }
  }

  /** A caller only ever gets a response that was handled and that carries the caller's own
      sequence number. */
  lemma OwnResponse(es: seq<Event>, s: State, c: nat)
    requires Reaches(es, s) && c in s.callers
    requires s.callers[c].phase.Returned? && s.callers[c].phase.rsp.Some?
    ensures s.callers[c].phase.rsp.value.seqNo == s.callers[c].seqNo
    ensures Store(s.callers[c].phase.rsp.value) in es
  {
    RunFits(es, s);
    RunHeard(es, s);
    hide After;
    assert CallerFits(s, c) && PhaseHeard(es, s.callers[c].phase);
  }

  /** While the connection is open the pending requests are exactly those of the callers that have
      not returned, each under its own sequence number. */
  lemma PendingIsUnreturned(es: seq<Event>, s: State)
    requires Reaches(es, s) && !s.closing
    ensures forall k, c :: k in s.pending && s.pending[k] == c <==>
      c in s.callers && !s.callers[c].phase.Returned? && s.callers[c].seqNo == k
  {
    RunFits(es, s);
    forall k, c
      ensures k in s.pending && s.pending[k] == c <==>
        c in s.callers && !s.callers[c].phase.Returned? && s.callers[c].seqNo == k
    {
      assert k in s.pending ==> EntryFits(s, k);
      assert c in s.callers ==> CallerFits(s, c);
    }
  }

  /** A caller that looks up its request finds it; and if the response came before, it is there to
      be received and is what the caller returns: nothing is lost between sending and waiting. */
  lemma NothingLost(es: seq<Event>, s: State, c: nat)
    requires Reaches(es, s) && !s.crashed && s.handler.None? && c in s.callers && s.callers[c].phase.Sent?
    ensures Enabled(s, Lookup(c)) && Step(s, Lookup(c)).callers[c].phase == Waiting(c)
    ensures s.slots[c].rsp.Some? ==>
      var t := Step(s, Lookup(c));
      && Enabled(t, Receive(c))
      && var u := Step(t, Receive(c));
      && Enabled(u, Read(c)) && Step(u, Read(c)).callers[c].phase == Taken(s.slots[c].rsp)
      && var v := Step(u, Read(c));
      && Enabled(v, Clear(c)) && Step(v, Clear(c)).callers[c].phase == Returned(s.slots[c].rsp)
  {
    RunFits(es, s);
    assert CallerFits(s, c);
  }

  // ---------------------------------------------------------------- the handler waits

  /** The handler waits at a full channel, with the lock. */
  predicate Blocked(s: State) {
    && s.handler.Some? && s.handler.value in s.slots && s.handler.value in s.callers
    && s.slots[s.handler.value].full && !s.slots[s.handler.value].shut
  }

  /** It goes on exactly when it is not blocked. */
  lemma AnnouncesExactly(es: seq<Event>, s: State)
    requires Reaches(es, s) && !s.crashed && s.handler.Some?
    ensures Enabled(s, Announce) <==> !Blocked(s)
  {
    RunFits(es, s);
  }

  /** Was a response to the request of `c` announced by the `i`-th step? */
  predicate Announces(es: seq<Event>, i: nat, c: nat) {
    i < |es| && es[i] == Announce && After(es[..i]).Some? && After(es[..i]).value.handler == Some(c)
  }

  /** Was a response to the request of `c` announced that `c` has not received since? */
  ghost predicate Unread(es: seq<Event>, c: nat) {
    exists i: nat :: Announces(es, i, c) && Receive(c) !in es[i + 1..]
  }

  lemma AnnouncesNext(es: seq<Event>, e: Event, i: nat, c: nat)
    ensures i < |es| ==> (Announces(es + [e], i, c) <==> Announces(es, i, c))
    ensures Announces(es + [e], |es|, c) <==> e == Announce && After(es).Some? && After(es).value.handler == Some(c)
  {
    assert (es + [e])[..|es|] == es;
    if i < |es| { assert (es + [e])[..i] == es[..i]; }
  }

  lemma UnreadNext(es: seq<Event>, e: Event, c: nat)
    ensures Unread(es + [e], c) <==>
      (e == Announce && After(es).Some? && After(es).value.handler == Some(c)) || (Unread(es, c) && e != Receive(c))
  {
    var all := es + [e];
    forall i: nat
      ensures i < |es| ==> (Announces(all, i, c) <==> Announces(es, i, c)) && all[i + 1..] == es[i + 1..] + [e]
    {
      AnnouncesNext(es, e, i, c);
    }
    AnnouncesNext(es, e, |es|, c);
    hide After;
    if Unread(all, c) {
      var i: nat :| Announces(all, i, c) && Receive(c) !in all[i + 1..];
      if i < |es| {
        assert all[i + 1..] == es[i + 1..] + [e];
      } else {
        assert i == |es| by { if i > |es| { NotBeyond(all, i, c); } }
      }
    }
    if Unread(es, c) && e != Receive(c) {
      var i: nat :| Announces(es, i, c) && Receive(c) !in es[i + 1..];
      NotBeyond(es, i, c);
      assert Announces(all, i, c) && all[i + 1..] == es[i + 1..] + [e];
    }
    if Announces(all, |es|, c) { assert Receive(c) !in all[|es| + 1..]; }
  }

  lemma NotBeyond(es: seq<Event>, i: nat, c: nat)
    ensures Announces(es, i, c) ==> i < |es|
  {
  }

  predicate Full(s: State, c: nat) {
    c in s.slots && s.slots[c].full
  }

  /** What one step does to the channel of `c`. */
  lemma StepFills(s: State, e: Event, c: nat)
    requires Inv(s) && Enabled(s, e) && !Step(s, e).crashed
    ensures Full(Step(s, e), c) <==> (e == Announce && s.handler == Some(c)) || (Full(s, c) && e != Receive(c))
  {
    if e.Receive? {
      assert CallerFits(s, e.c);
    } else {
      OtherFills(s, e, c);
    }
  }

  lemma OtherFills(s: State, e: Event, c: nat)
    requires Enabled(s, e) && !Step(s, e).crashed && !e.Receive?
    ensures Full(Step(s, e), c) <==> (e == Announce && s.handler == Some(c)) || Full(s, c)
  {
    hide SomeShut, NextNo;
  }

  /** A channel is full if and only if a response was announced in it that its caller has not
      received. */
  lemma {:induction false} FullExactly(es: seq<Event>, s: State, c: nat)
    requires Reaches(es, s) && !s.crashed
    ensures Full(s, c) <==> Unread(es, c)
  {
    if es != [] {
      var front, e := es[..|es| - 1], es[|es| - 1];
      var before := After(front).value;
      assert es == front + [e];
      RunFits(front, before);
      FullExactly(front, before, c);
      UnreadNext(front, e, c);
      StepFills(before, e, c);
    }
  }

  /** Handling a response makes the handler wait if and only if its request is pending, was there at
      no close, and has an earlier response announced that its caller has not received. */
  lemma BlocksExactly(es: seq<Event>, s: State, m: Rsp)
    requires Reaches(es, s) && Enabled(s, Store(m))
    ensures Blocked(Step(s, Store(m))) <==>
      m.seqNo in s.pending && Unread(es, s.pending[m.seqNo]) && !ClosedOver(es, s.pending[m.seqNo])
  {
    RunFits(es, s);
    if m.seqNo in s.pending {
      var c := s.pending[m.seqNo];
      assert EntryFits(s, m.seqNo) && c in s.pending.Values;
      FullExactly(es, s, c);
      ShutExactly(es, s, c);
    }
  }

  /** Each request is answered at most once: a response is stored only for one that has none. */
  predicate AnsweredOnce(es: seq<Event>) {
    es != [] ==>
      && AnsweredOnce(es[..|es| - 1])
      && match After(es[..|es| - 1])
         case None => true
         case Some(s) =>
           var e := es[|es| - 1];
           e.Store? && e.m.seqNo in s.pending && s.pending[e.m.seqNo] in s.slots ==>
             s.slots[s.pending[e.m.seqNo]].rsp.None?
  }

  ghost predicate RoomForHandler(s: State) {
    s.handler.Some? && s.handler.value in s.slots ==> !s.slots[s.handler.value].full
  }

  /** Where every request is answered at most once the handler never waits. */
  lemma {:induction false} HandlerNeverBlocks(es: seq<Event>, s: State)
    requires Reaches(es, s) && AnsweredOnce(es)
    ensures !Blocked(s)
    ensures s.handler.Some? && !s.crashed ==> Enabled(s, Announce)
  {
    RoomThroughout(es, s);
    if s.handler.Some? && !s.crashed { AnnouncesExactly(es, s); }
  }

  lemma {:induction false} RoomThroughout(es: seq<Event>, s: State)
    requires Reaches(es, s) && AnsweredOnce(es)
    ensures RoomForHandler(s)
  {
    if es != [] {
      var before := After(es[..|es| - 1]).value;
      RoomThroughout(es[..|es| - 1], before);
      RunFits(es[..|es| - 1], before);
      StepKeepsRoom(before, es[|es| - 1]);
    }
  }

  lemma StepKeepsRoom(s: State, e: Event)
    requires Inv(s) && Enabled(s, e) && RoomForHandler(s)
    requires e.Store? && e.m.seqNo in s.pending ==> s.slots[s.pending[e.m.seqNo]].rsp.None?
    ensures RoomForHandler(Step(s, e))
  {
    if e.Store? && e.m.seqNo in s.pending {
      assert EntryFits(s, e.m.seqNo);
      assert CallerFits(s, s.pending[e.m.seqNo]);
    }
  }

  /** A blocked handler whose caller is not waiting at the channel. */
  predicate Stuck(s: State) {
    Blocked(s) && !s.callers[s.handler.value].phase.Waiting?
  }

  /** It never goes on: whatever can still be done, it keeps the lock, and with it no request can be
      issued, looked up or cleared, no response handled and no channel closed. */
  lemma StuckForever(s: State, e: Event)
    requires Inv(s) && Stuck(s) && Enabled(s, e)
    ensures Stuck(Step(s, e)) && !Locks(e)
  {
    var r := s.handler.value;
    assert CallerFits(s, r);
    if e.Receive? {
      assert CallerFits(s, e.c);
    }
  }

  /** A waiting caller lets it go on by receiving. */
  lemma WaitingReleases(s: State)
    requires Inv(s) && !s.crashed && Blocked(s) && !Stuck(s)
    ensures var r := s.handler.value;
      Enabled(s, Receive(r)) && Enabled(Step(s, Receive(r)), Announce)
  {
    assert CallerFits(s, s.handler.value);
  }

  /** A response that comes twice before its caller looks the request up. */
  const DUPLICATED := [Issue(0), Store(Rsp(0, "")), Announce, Store(Rsp(0, ""))]

  lemma HandlerCanGetStuck()
    ensures After(DUPLICATED).Some? && Stuck(After(DUPLICATED).value)
  {
    var s1 := State(1, map[0 := 0], map[0 := Caller(0, Issued)], map[0 := EMPTY], None, false, false, false);
    var s2 := s1.(slots := map[0 := EMPTY.(rsp := Some(Rsp(0, "")))], handler := Some(0));
    var s3 := s1.(slots := map[0 := Slot(Some(Rsp(0, "")), true, false)]);
    var s4 := s3.(handler := Some(0));
    assert After([]) == Some(START);
    hide After;
    Extend([], Issue(0), START);
    assert Step(START, Issue(0)) == s1;
    Extend([] + [Issue(0)], Store(Rsp(0, "")), s1);
    assert Step(s1, Store(Rsp(0, ""))) == s2;
    Extend([] + [Issue(0)] + [Store(Rsp(0, ""))], Announce, s2);
    assert Step(s2, Announce) == s3;
    Extend([] + [Issue(0)] + [Store(Rsp(0, ""))] + [Announce], Store(Rsp(0, "")), s3);
    assert Step(s3, Store(Rsp(0, ""))) == s4;
    assert DUPLICATED == [] + [Issue(0)] + [Store(Rsp(0, ""))] + [Announce] + [Store(Rsp(0, ""))];
  }

  // ---------------------------------------------------------------- closing twice

  /** Was the request of `c` issued before the connection was closed, some time ago? */
  predicate ClosedOver(es: seq<Event>, c: nat) {
    exists i, j :: 0 <= i < j < |es| && es[i] == Issue(c) && es[j] == CloseChannels
  }

  lemma {:induction false} CallersIssued(es: seq<Event>, s: State, c: nat)
    requires Reaches(es, s)
    ensures c in s.callers <==> Issue(c) in es
  {
    if es != [] {
      var front, e := es[..|es| - 1], es[|es| - 1];
      CallersIssued(front, After(front).value, c);
      assert es == front + [e];
      SameCallers(After(front).value, e);
    }
  }

  lemma SameCallers(s: State, e: Event)
    requires Enabled(s, e)
    ensures Step(s, e).callers.Keys == s.callers.Keys + if e.Issue? then {e.c} else {}
  {
  }

  lemma ClosedOverNext(es: seq<Event>, e: Event, c: nat)
    ensures ClosedOver(es + [e], c) <==> ClosedOver(es, c) || (e == CloseChannels && Issue(c) in es)
  {
    var all := es + [e];
    if ClosedOver(all, c) {
      var i, j :| 0 <= i < j < |all| && all[i] == Issue(c) && all[j] == CloseChannels;
      assert all[i] == es[i];
      assert j < |es| ==> all[j] == es[j];
    }
    if ClosedOver(es, c) {
      var i, j :| 0 <= i < j < |es| && es[i] == Issue(c) && es[j] == CloseChannels;
      assert all[i] == Issue(c) && all[j] == CloseChannels;
    }
    if e == CloseChannels && Issue(c) in es {
      var i :| 0 <= i < |es| && es[i] == Issue(c);
      assert all[i] == Issue(c) && all[|es|] == CloseChannels;
    }
  }

  /** What one step does to the channel of a pending request. */
  lemma StepShuts(s: State, e: Event, c: nat)
    requires Enabled(s, e) && c in s.slots && c in s.pending.Values
    ensures var t := Step(s, e);
      !t.crashed ==> c in t.slots && (t.slots[c].shut <==> s.slots[c].shut || e.CloseChannels?)
  {
  }

  lemma StillPending(s: State, e: Event, c: nat)
    requires Inv(s) && Enabled(s, e) && c in Step(s, e).pending.Values
    ensures c in s.pending.Values || e == Issue(c)
  {
    var t := Step(s, e);
    var k :| k in t.pending && t.pending[k] == c;
    assert (k in s.pending && s.pending[k] == c) || e == Issue(c);
  }

  /** The channel of a pending request is closed if and only if the request was there when the
      connection was closed. */
  lemma {:induction false} ShutExactly(es: seq<Event>, s: State, c: nat)
    requires Reaches(es, s) && !s.crashed && c in s.pending.Values
    ensures c in s.slots && (s.slots[c].shut <==> ClosedOver(es, c))
  {
    if es != [] {
      var front, e := es[..|es| - 1], es[|es| - 1];
      var before := After(front).value;
      assert es == front + [e];
      RunFits(front, before);
      StillPending(before, e, c);
      ClosedOverNext(front, e, c);
      CallersIssued(front, before, c);
      if e == Issue(c) {
        NotClosedOver(front, c);
      } else {
        ShutExactly(front, before, c);
        StepShuts(before, e, c);
      }
    }
  }

  lemma NotClosedOver(es: seq<Event>, c: nat)
    requires Issue(c) !in es
    ensures !ClosedOver(es, c)
  {
  }

  /** Closing the connection panics if and only if some request that was there when it was closed
      before is still pending. */
  lemma CloseCrashesExactly(es: seq<Event>, s: State)
    requires Reaches(es, s) && Enabled(s, CloseChannels)
    ensures Step(s, CloseChannels).crashed <==> exists k :: k in s.pending && ClosedOver(es, s.pending[k])
  {
    RunFits(es, s);
    forall k | k in s.pending
      ensures s.pending[k] in s.slots && (s.slots[s.pending[k]].shut <==> ClosedOver(es, s.pending[k]))
    {
      assert s.pending[k] in s.pending.Values;
      ShutExactly(es, s, s.pending[k]);
    }
    hide After, ClosedOver;
  }

  /** Announcing a response panics if and only if its request was there when the connection was
      closed. */
  lemma AnnounceCrashesExactly(es: seq<Event>, s: State)
    requires Reaches(es, s) && Enabled(s, Announce)
    ensures Step(s, Announce).crashed <==> ClosedOver(es, s.handler.value)
  {
    RunFits(es, s);
    var r := s.handler.value;
    assert CallerFits(s, r);
    assert s.pending[s.callers[r].seqNo] == r;
    ShutExactly(es, s, r);
    hide After, ClosedOver;
  }

  /** A caller waits when its node logs in again: the old connection is closed, the caller returns
      without clearing its entry, and the end of the connection closes it a second time. */
  const CLOSED_TWICE := [Issue(0), Transmit(0), Lookup(0), CloseChannels, Receive(0), MarkClosed, CloseChannels]

  lemma Extend(es: seq<Event>, e: Event, s: State)
    requires After(es) == Some(s) && Enabled(s, e) && NoReuse(s, e)
    ensures After(es + [e]) == Some(Step(s, e))
  {
    assert (es + [e])[..|es + [e]| - 1] == es;
  }

  lemma SecondCloseCanCrash()
    ensures After(CLOSED_TWICE).Some? && After(CLOSED_TWICE).value.crashed
  {
    var s3 := State(1, map[0 := 0], map[0 := Caller(0, Waiting(0))], map[0 := EMPTY], None, false, false, false);
    var s4 := s3.(slots := map[0 := EMPTY.(shut := true)], closing := true);
    var es3 := [] + [Issue(0)] + [Transmit(0)] + [Lookup(0)];
    CallerWaits(es3, s3);
    Closes(s3, s4);
    hide After, SomeShut;
    Extend(es3, CloseChannels, s3);
    Extend(es3 + [CloseChannels], Receive(0), s4);
    var s5 := Step(s4, Receive(0));
    assert s5 == s4.(callers := map[0 := Caller(0, Returned(None))]);
    Extend(es3 + [CloseChannels] + [Receive(0)], MarkClosed, s5);
    var es6 := es3 + [CloseChannels] + [Receive(0)] + [MarkClosed];
    ClosesAgain(s5.(closed := true));
    Extend(es6, CloseChannels, s5.(closed := true));
    assert CLOSED_TWICE == es6 + [CloseChannels];
  }

  const EMPTY := Slot(None, false, false)

  lemma CallerWaits(es: seq<Event>, s: State)
    requires es == [] + [Issue(0)] + [Transmit(0)] + [Lookup(0)]
    requires s == State(1, map[0 := 0], map[0 := Caller(0, Waiting(0))], map[0 := EMPTY], None, false, false, false)
    ensures After(es) == Some(s)
  {
    var s1 := s.(callers := map[0 := Caller(0, Issued)]);
    var s2 := s.(callers := map[0 := Caller(0, Sent)]);
    assert After([]) == Some(START);
    hide After;
    Extend([], Issue(0), START);
    assert Step(START, Issue(0)) == s1;
    Extend([] + [Issue(0)], Transmit(0), s1);
    assert Step(s1, Transmit(0)) == s2;
    Extend([] + [Issue(0)] + [Transmit(0)], Lookup(0), s2);
    assert Step(s2, Lookup(0)) == s;
  }

  lemma ClosesAgain(s: State)
    requires s.pending == map[0 := 0] && s.slots == map[0 := EMPTY.(shut := true)] && s.handler.None? && !s.crashed
    ensures Enabled(s, CloseChannels) && Step(s, CloseChannels).crashed
  {
    assert s.pending[0] == 0;
  }

  lemma Closes(s: State, t: State)
    requires s.pending == map[0 := 0] && s.slots == map[0 := EMPTY] && s.handler.None? && !s.crashed
    requires t == s.(slots := map[0 := EMPTY.(shut := true)], closing := true)
    ensures Step(s, CloseChannels) == t
  {
    assert s.pending[0] in s.pending.Values;
  }

  // ---------------------------------------------------------------- sequence numbers

  ghost predicate Numbered(s: State) {
    && s.seqNo == |s.callers| % U32
    && (|s.callers| < U32 ==> forall c :: c in s.callers ==> s.callers[c].seqNo < |s.callers|)
  }

  lemma OneMoreCaller(a: map<nat, Caller>, c: nat, v: Caller)
    requires c !in a
    ensures |a[c := v]| == |a| + 1
  {
    assert a[c := v].Keys == a.Keys + {c};
    assert |a| == |a.Keys| && |a[c := v]| == |a[c := v].Keys|;
  }

  lemma NextIsMore(n: nat)
    ensures NextNo(n % U32) == (n + 1) % U32
  {
  }

  lemma IssueNumbered(s: State, c: nat)
    requires Enabled(s, Issue(c)) && Numbered(s)
    ensures Numbered(Step(s, Issue(c)))
  {
    NextIsMore(|s.callers|);
    OneMoreCaller(s.callers, c, Caller(s.seqNo, Issued));
    hide NextNo;
    assert Step(s, Issue(c)).callers == s.callers[c := Caller(s.seqNo, Issued)];
  }

  lemma StepNumbered(s: State, e: Event)
    requires Enabled(s, e) && Numbered(s)
    ensures Numbered(Step(s, e))
  {
    if e.Issue? {
      IssueNumbered(s, e.c);
    } else {
      SameNumbers(s, e);
      hide Step, Enabled;
      var t := Step(s, e);
      assert |t.callers| == |t.callers.Keys| && |s.callers| == |s.callers.Keys|;
    }
  }

  lemma SameNumbers(s: State, e: Event)
    requires Enabled(s, e) && !e.Issue?
    ensures var t := Step(s, e);
      && t.callers.Keys == s.callers.Keys && t.seqNo == s.seqNo
      && forall c :: c in t.callers ==> t.callers[c].seqNo == s.callers[c].seqNo
  {
  }

  lemma {:induction false} RunNumbered(es: seq<Event>, s: State)
    requires Reaches(es, s)
    ensures Numbered(s)
  {
    if es != [] {
      RunNumbered(es[..|es| - 1], After(es[..|es| - 1]).value);
      StepNumbered(After(es[..|es| - 1]).value, es[|es| - 1]);
    }
  }

  /** Requests are numbered in the order in which they are issued, modulo 2^32. */
  lemma NumberedInOrder(es: seq<Event>, s: State, c: nat)
    requires Reaches(es, s) && Enabled(s, Issue(c))
    ensures Step(s, Issue(c)).callers[c].seqNo == |s.callers| % U32
    ensures |Step(s, Issue(c)).callers| == |s.callers| + 1
  {
    RunNumbered(es, s);
    OneMoreCaller(s.callers, c, Caller(s.seqNo, Issued));
  }

  /** The first 2^32 requests get different numbers, so nothing is reused among them. */
  lemma FewRequestsNoReuse(es: seq<Event>, s: State, e: Event)
    requires Reaches(es, s) && |s.callers| < U32
    ensures NoReuse(s, e)
  {
    RunFits(es, s);
    RunNumbered(es, s);
    hide After;
    assert s.seqNo in s.pending ==> EntryFits(s, s.seqNo);
  }
}
