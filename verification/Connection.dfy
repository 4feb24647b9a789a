/** The request table of a node's connection. Every method is one section of code under a lock, or
    one operation on a channel; `model` is the state that Correlation.dfy reasons about. */
module Connections {
  import opened RoundRobin
  import C = Correlation

  /** A request that waits for its response, with a channel of one slot. */
  class PendingReq {
    var rsp: Option<C.Rsp>
    var full: bool
    var shut: bool

    constructor ()
      ensures View() == C.Slot(None, false, false)
    {
      rsp, full, shut := None, false, false;
    }

    ghost function View(): C.Slot
      reads this
    {
      C.Slot(rsp, full, shut)
    }
  }

  class Connection {
    var seqNo: nat
    var pendingReqs: map<nat, PendingReq>
    var closed: bool
    /** What the handler is about to announce a response to, under the lock. */
    var handling: PendingReq?
    ghost var requests: map<nat, PendingReq>
    ghost var model: C.State

    /** The objects hold the slots. */
    ghost predicate Views(slots: map<nat, C.Slot>)
      reads `requests, requests.Values
    {
      requests.Keys == slots.Keys && forall c :: c in requests ==> requests[c].View() == slots[c]
    }

    /** The fields are those of the model. */
    ghost predicate Fields()
      reads this
    {
      && seqNo == model.seqNo && closed == model.closed
      && pendingReqs.Keys == model.pending.Keys
      && (forall k :: k in pendingReqs ==> model.pending[k] in requests && pendingReqs[k] == requests[model.pending[k]])
      && (forall c, d :: c in requests && d in requests && c != d ==> requests[c] != requests[d])
      && (if model.handler.None? then handling == null
          else model.handler.value in requests && handling == requests[model.handler.value])
    }

    /** The objects are the state of the model, until a panic ends the process. */
    ghost predicate Valid()
      reads this, requests.Values
    {
      !model.crashed ==> Fields() && Views(model.slots)
    }

    constructor ()
      ensures Valid() && model == C.START
    {
      seqNo, pendingReqs, closed, handling := 0, map[], false, null;
      requests, model := map[], C.START;
    }

    /** SendRequest, up to the transmission. */
    method Issue(ghost c: nat) returns (k: nat)
      requires Valid() && C.Enabled(model, C.Issue(c))
      modifies this
      ensures Valid() && fresh(requests.Values - old(requests.Values))
      ensures model == C.Step(old(model), C.Issue(c)) && k == model.callers[c].seqNo
    {
      k := seqNo;
      var req := new PendingReq();
      pendingReqs := pendingReqs[k := req];
      seqNo := C.NextNo(seqNo);
      requests, model := requests[c := req], C.Step(model, C.Issue(c));
    }

    /** SendMessage. */
    method SendMessage(ghost c: nat) returns (ok: bool)
      requires Valid() && C.Enabled(model, C.Transmit(c))
      modifies `model
      ensures Valid() && model == C.Step(old(model), C.Transmit(c))
      ensures ok <==> model.callers[c].phase.Sent?
    {
      model := C.Step(model, C.Transmit(c));
      ok := !closed;
    }

    method LookupPending(k: nat, ghost c: nat) returns (req: PendingReq?)
      requires Valid() && C.Enabled(model, C.Lookup(c)) && k == model.callers[c].seqNo
      modifies `model
      ensures Valid() && model == C.Step(old(model), C.Lookup(c))
      ensures var p := model.callers[c].phase;
        if req == null then p == C.Returned(None)
        else p.Waiting? && p.req in requests && req == requests[p.req]
    {
      model := C.Step(model, C.Lookup(c));
      req := if k in pendingReqs then pendingReqs[k] else null;
    }

    /** HandleMsg, for a response: it is stored if its request is pending. */
    method StoreResponse(m: C.Rsp) returns (found: bool)
      requires Valid() && C.Enabled(model, C.Store(m))
      modifies `model, `handling, requests.Values
      ensures Valid() && requests == old(requests)
      ensures model == C.Step(old(model), C.Store(m)) && (found <==> model.handler.Some?)
    {
      StoreEffect(model, m);
      hide C.Step, C.Enabled;
      found := m.seqNo in pendingReqs;
      if found {
        handling := pendingReqs[m.seqNo];
        handling.rsp := Some(m);
      }
      model := C.Step(model, C.Store(m));
    }

    static lemma StoreEffect(s: C.State, m: C.Rsp)
      requires C.Enabled(s, C.Store(m))
      ensures var t := C.Step(s, C.Store(m));
        && t.seqNo == s.seqNo && t.pending == s.pending && t.closed == s.closed && !t.crashed && !s.crashed
        && s.handler.None? && (t.handler.Some? <==> m.seqNo in s.pending)
        && (m.seqNo !in s.pending ==> t.slots == s.slots)
        && (m.seqNo in s.pending ==>
              var r := s.pending[m.seqNo];
              r in s.slots && t.handler == Some(r) && t.slots == s.slots[r := s.slots[r].(rsp := Some(m))])
    {
    }

    /** HandleMsg, once the channel has room or is closed. */
    method AnnounceResponse() returns (panics: bool)
      requires Valid() && C.Enabled(model, C.Announce)
      modifies `model, `handling, requests.Values
      ensures Valid() && requests == old(requests)
      ensures model == C.Step(old(model), C.Announce) && (panics <==> model.crashed)
    {
      AnnounceEffect(model);
      hide C.Step, C.Enabled;
      panics := handling.shut;
      if !panics {
        handling.full := true;
        handling := null;
      }
      model := C.Step(model, C.Announce);
    }

    static lemma AnnounceEffect(s: C.State)
      requires C.Enabled(s, C.Announce)
      ensures var t := C.Step(s, C.Announce);
        && s.handler.Some? && s.handler.value in s.slots && !s.crashed
        && var r := s.handler.value;
        && (t.crashed <==> s.slots[r].shut)
        && (!t.crashed ==>
              && t.seqNo == s.seqNo && t.pending == s.pending && t.closed == s.closed && t.handler.None?
              && t.slots == s.slots[r := s.slots[r].(full := true)])
    {
    }

    /** Receives from the channel. */
    method Take(req: PendingReq, ghost r: nat, ghost slots: map<nat, C.Slot>) returns (alive: bool)
      requires Views(slots) && r in slots && req == requests[r]
      requires forall c, d :: c in requests && d in requests && c != d ==> requests[c] != requests[d]
      modifies req
      ensures Views(if slots[r].full then slots[r := slots[r].(full := false)] else slots) && alive == slots[r].full
    {
      alive := req.full;
      if alive {
        req.full := false;
      }
    }

    /** The channel of the request has something to receive, or is closed. */
    method Receive(req: PendingReq, ghost c: nat) returns (alive: bool)
      requires Valid() && C.Enabled(model, C.Receive(c))
      requires var p := model.callers[c].phase; p.req in requests && req == requests[p.req]
      modifies `model, req
      ensures Valid() && model == C.Step(old(model), C.Receive(c))
      ensures alive == old(model.slots[model.callers[c].phase.req].full)
    {
      ReceiveEffect(model, c);
      hide C.Step, C.Enabled, Views;
      alive := Take(req, model.callers[c].phase.req, model.slots);
      model := C.Step(model, C.Receive(c));
    }

    static lemma ReceiveEffect(s: C.State, c: nat)
      requires C.Enabled(s, C.Receive(c))
      ensures var t, r := C.Step(s, C.Receive(c)), s.callers[c].phase.req;
        && t.slots == (if s.slots[r].full then s.slots[r := s.slots[r].(full := false)] else s.slots)
        && t.seqNo == s.seqNo && t.pending == s.pending && t.closed == s.closed
        && t.handler == s.handler && t.crashed == s.crashed
    {
    }

    method Read(req: PendingReq, ghost c: nat) returns (rsp: Option<C.Rsp>)
      requires Valid() && C.Enabled(model, C.Read(c))
      requires var p := model.callers[c].phase; p.req in requests && req == requests[p.req]
      modifies `model
      ensures Valid() && model == C.Step(old(model), C.Read(c))
      ensures model.callers[c].phase == C.Taken(rsp)
    {
      rsp := req.rsp;
      model := C.Step(model, C.Read(c));
    }

    /** The caller returns what it has read, if anything. */
    method Clear(k: nat, rsp: Option<C.Rsp>, ghost c: nat) returns (r: Option<C.Rsp>)
      requires Valid() && C.Enabled(model, C.Clear(c)) && k == model.callers[c].seqNo
      requires model.callers[c].phase == C.Taken(rsp)
      modifies `model, `pendingReqs
      ensures Valid() && model == C.Step(old(model), C.Clear(c))
      ensures r == rsp && model.callers[c].phase == C.Returned(r)
    {
      pendingReqs := pendingReqs - {k};
      model := C.Step(model, C.Clear(c));
      r := rsp;
    }

    /** Closes one channel after the other; closing one that is closed already panics. */
    static method ShutAll(open: set<PendingReq>) returns (panics: bool)
      modifies open`shut
      ensures panics <==> exists r :: r in open && old(r.shut)
      ensures !panics ==> forall r :: r in open ==> r.shut
    {
      var todo := open;
      while todo != {}
        invariant todo <= open
        invariant forall r :: r in todo ==> r.shut == old(r.shut)
        invariant forall r :: r in open - todo ==> r.shut && !old(r.shut)
      {
        var r :| r in todo;
        if r.shut {
          return true;
        }
        r.shut := true;
        todo := todo - {r};
      }
      panics := false;
    }

    /** The first half of Close. By `PendingApart` no channel is closed twice by one call. */
    method CloseChannels() returns (panics: bool)
      requires Valid() && C.Enabled(model, C.CloseChannels)
      modifies `model, requests.Values
      ensures Valid() && requests == old(requests)
      ensures model == C.Step(old(model), C.CloseChannels) && (panics <==> model.crashed)
    {
      ghost var was := model;
      ShutBefore();
      panics := ShutAll(pendingReqs.Values);
      model := C.Step(model, C.CloseChannels);
      if !panics {
        forall c | c in requests
          ensures requests[c].View() == model.slots[c]
        {
          ShutExactly(was, c);
        }
      }
    }

    lemma ShutBefore()
      requires Valid() && !model.crashed
      ensures C.SomeShut(model) <==> exists r :: r in pendingReqs.Values && r.shut
    {
      if C.SomeShut(model) {
        var k :| k in model.pending && model.pending[k] in model.slots && model.slots[model.pending[k]].shut;
        assert pendingReqs[k] in pendingReqs.Values;
      }
      if r :| r in pendingReqs.Values && r.shut {
        var k :| k in pendingReqs && pendingReqs[k] == r;
        assert model.slots[model.pending[k]].shut;
      }
    }

    /** A request is the object of a pending entry if and only if its caller is pending. */
    lemma ShutExactly(m: C.State, c: nat)
      requires c in requests && pendingReqs.Keys == m.pending.Keys
      requires forall k :: k in pendingReqs ==> m.pending[k] in requests && pendingReqs[k] == requests[m.pending[k]]
      requires forall a, b :: a in requests && b in requests && a != b ==> requests[a] != requests[b]
      ensures requests[c] in pendingReqs.Values <==> c in m.pending.Values
    {
      if requests[c] in pendingReqs.Values {
        var k :| k in pendingReqs && pendingReqs[k] == requests[c];
        assert m.pending[k] == c;
      }
      if c in m.pending.Values {
        var k :| k in m.pending && m.pending[k] == c;
        assert pendingReqs[k] == requests[c];
      }
    }

    /** No two entries share a request. */
    lemma PendingApart()
      requires Valid() && C.Inv(model) && !model.crashed
      ensures forall j, k :: j in pendingReqs && k in pendingReqs && j != k ==> pendingReqs[j] != pendingReqs[k]
    {
      forall j, k | j in pendingReqs && k in pendingReqs && j != k
        ensures pendingReqs[j] != pendingReqs[k]
      {
        assert C.EntryFits(model, j) && C.EntryFits(model, k);
      }
    }

    /** The second half. */
    method MarkClosed()
      requires Valid() && C.Enabled(model, C.MarkClosed)
      modifies `model, `closed
      ensures Valid() && model == C.Step(old(model), C.MarkClosed)
    {
      closed := true;
      model := C.Step(model, C.MarkClosed);
    }
  }
}
