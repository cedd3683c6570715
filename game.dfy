/**
 One peer's signalling actor (package `game`).

 The dispatcher task is the only owner of the pending table. Each turn of its
 select loop handles one event: cancellation, an inbound frame from the
 reader task, or a connect request from the request queue. `Step` is that one
 turn over the dispatcher's state (`Table`), and `Dispatch` is a sequence of turns
 that stops at the first one that returns. The class `Server` holds the same
 state in fields and has one method per event, each specified by `Step`.

 A request's `res`/`errored` channel pair, together with the waiter goroutine
 that links the pending entry to it, is named by a `Caller` handle. What the
 waiters have sent to the callers is the `delivered` log. The waiter is taken
 to run as soon as its entry is matched (`Resolve`).
 */
module Game {
  import opened Protocol

  /** Names one connect request's result and error channels. */
  type Caller = nat

  datatype ConnectRequest = ConnectRequest(sd: SessionDescription, caller: Caller)

  /** What a caller is sent: a decoded answer on `res`, or an error on `errored`. */
  datatype Delivery = Answered(caller: Caller, sd: SessionDescription) | Failed(caller: Caller, error: CodecError)

  /** Whether the dispatcher loop goes on, or returns (nil, or a fatal error). */
  datatype Control = Continue | Return(err: Option<CodecError>)

  datatype Event =
    | Cancelled
    | Inbound(frame: Bytes)
    | Requested(freshId: string, req: ConnectRequest)

  /**
   The dispatcher's state: the pending table, the frames handed to the writer
   task, the outcomes sent to callers and the number of unknown-id warnings.
   */
  datatype Table = Table(pending: map<string, Caller>, out: seq<Bytes>, delivered: seq<Delivery>, warnings: nat)

  /** The waiter of a matched request: decode the reply's payload, then tell the caller. */
  function Resolve(json: Json, caller: Caller, payload: Bytes): (d: Delivery)
    ensures d.caller == caller
    ensures d.Answered? <==> json.unmarshalDescription(payload).Ok?
    ensures d.Answered? ==> d.sd == json.unmarshalDescription(payload).value
    ensures d.Failed? ==> d.error == json.unmarshalDescription(payload).error
  {
    match json.unmarshalDescription(payload)
    case Ok(sd) => Answered(caller, sd)
    case Err(e) => Failed(caller, e)
  }

  /** One turn of the dispatcher loop. */
  function Step(json: Json, t: Table, e: Event): (r: (Table, Control))
    // the outbound queue and the delivery log only grow, by at most one entry
    ensures t.out <= r.0.out && |r.0.out| <= |t.out| + 1
    ensures t.delivered <= r.0.delivered && |r.0.delivered| <= |t.delivered| + 1
    // at most one of them grows
    ensures |r.0.out| == |t.out| || |r.0.delivered| == |t.delivered|
    // no id but the fresh one can become pending
    ensures e.Requested? ==> r.0.pending.Keys <= t.pending.Keys + {e.freshId}
    ensures !e.Requested? ==> r.0.pending.Keys <= t.pending.Keys
    // only a request can put a frame on the outbound queue
    ensures !e.Requested? ==> r.0.out == t.out
    // the loop returns exactly on cancellation and on a frame that does not decode
    ensures r.1.Return? <==> e.Cancelled? || (e.Inbound? && json.unmarshalMessage(e.frame).Err?)
  {
    match e
    case Cancelled =>
      (t.(pending := map[]), Return(None))
    case Inbound(frame) =>
      (match json.unmarshalMessage(frame)
       case Err(err) => (t, Return(Some(err)))
       case Ok(m) =>
         if m.id !in t.pending then
           (t.(warnings := t.warnings + 1), Continue)
         else
           (t.(pending := t.pending - {m.id},
               delivered := t.delivered + [Resolve(json, t.pending[m.id], m.payload)]), Continue))
    case Requested(freshId, req) =>
      match MarshalMessage(json, freshId, req.sd)
      case Err(err) => (t.(delivered := t.delivered + [Failed(req.caller, err)]), Continue)
      case Ok(b) => (t.(out := t.out + [b], pending := t.pending[freshId := req.caller]), Continue)
  }

  /** Turns of the dispatcher loop over `events`, up to the first that returns. */
  function Dispatch(json: Json, t: Table, events: seq<Event>): (r: (Table, Control))
    ensures t.out <= r.0.out && |r.0.out| <= |t.out| + |events|
    ensures t.delivered <= r.0.delivered && |r.0.delivered| <= |t.delivered| + |events|
    decreases |events|
  {
    if events == [] then (t, Continue)
    else
      var (t', c) := Step(json, t, events[0]);
      if c.Return? then (t', c) else Dispatch(json, t', events[1..])
  }

  // ---------------------------------------------------------------------------
  // One turn, case by case

  /** A request that encodes puts exactly one frame, carrying the fresh id, on
      the outbound queue and records the fresh id as pending for its caller. */
  lemma RequestAdmitted(json: Json, t: Table, freshId: string, req: ConnectRequest)
    requires freshId !in t.pending
    requires MarshalMessage(json, freshId, req.sd).Ok?
    ensures var (t', c) := Step(json, t, Requested(freshId, req));
      && c == Continue
      && t'.out == t.out + [MarshalMessage(json, freshId, req.sd).value]
      && t'.pending.Keys == t.pending.Keys + {freshId}
      && t'.pending[freshId] == req.caller
      && (forall id :: id in t.pending ==> t'.pending[id] == t.pending[id])
      && |t'.pending| == |t.pending| + 1
      && t'.delivered == t.delivered && t'.warnings == t.warnings
    ensures EnvelopeRoundTrips(json) ==>
      json.unmarshalMessage(Step(json, t, Requested(freshId, req)).0.out[|t.out|]).value.id == freshId
  {
  }

  /** A request that fails to encode is reported to its own caller only; nothing
      is queued and the pending table is unchanged. */
  lemma RequestRejected(json: Json, t: Table, freshId: string, req: ConnectRequest)
    requires MarshalMessage(json, freshId, req.sd).Err?
    ensures Step(json, t, Requested(freshId, req)) ==
      (t.(delivered := t.delivered + [Failed(req.caller, MarshalMessage(json, freshId, req.sd).error)]), Continue)
  {
  }

  /** A reply whose id is pending removes exactly that entry and sends the
      outcome to that entry's caller only. */
  lemma ReplyRouted(json: Json, t: Table, frame: Bytes, m: Message)
    requires json.unmarshalMessage(frame) == Ok(m)
    requires m.id in t.pending
    ensures var (t', c) := Step(json, t, Inbound(frame));
      && c == Continue
      && t'.pending.Keys == t.pending.Keys - {m.id}
      && (forall id :: id in t'.pending ==> t'.pending[id] == t.pending[id])
      && t'.delivered == t.delivered + [Resolve(json, t.pending[m.id], m.payload)]
      && t'.delivered[|t.delivered|].caller == t.pending[m.id]
      && t'.out == t.out && t'.warnings == t.warnings
  {
  }

  /** A reply whose id is not pending changes nothing but the warning count. */
  lemma UnknownReplyIgnored(json: Json, t: Table, frame: Bytes, m: Message)
    requires json.unmarshalMessage(frame) == Ok(m)
    requires m.id !in t.pending
    ensures Step(json, t, Inbound(frame)) == (t.(warnings := t.warnings + 1), Continue)
  {
  }

  /** A frame that does not decode ends the loop with the decode error. */
  lemma MalformedFrameIsFatal(json: Json, t: Table, frame: Bytes)
    requires json.unmarshalMessage(frame).Err?
    ensures Step(json, t, Inbound(frame)) == (t, Return(Some(json.unmarshalMessage(frame).error)))
  {
  }

  /** Cancellation empties the pending table, sends nothing to anyone and ends
      the loop with no error. */
  lemma CancelEmptiesTable(json: Json, t: Table)
    ensures Step(json, t, Cancelled) == (t.(pending := map[]), Return(None))
  {
  }

  // ---------------------------------------------------------------------------
  // Several turns

  /** A second reply with an already answered id falls into the unknown-id case:
      the id is delivered at most once. */
  lemma ReplyConsumedOnce(json: Json, t: Table, first: Bytes, second: Bytes, m1: Message, m2: Message)
    requires json.unmarshalMessage(first) == Ok(m1) && json.unmarshalMessage(second) == Ok(m2)
    requires m1.id == m2.id && m1.id in t.pending
    ensures Dispatch(json, t, [Inbound(first), Inbound(second)]) ==
      (t.(pending := t.pending - {m1.id},
          delivered := t.delivered + [Resolve(json, t.pending[m1.id], m1.payload)],
          warnings := t.warnings + 1), Continue)
  {
    var t1 := Step(json, t, Inbound(first)).0;
    assert [Inbound(first), Inbound(second)][1..] == [Inbound(second)];
    assert Dispatch(json, t1, [Inbound(second)]) == Step(json, t1, Inbound(second));
  }

  /** A request followed by the peer's reply carrying the request's id ends with
      the reply's outcome sent to that request's caller and the table as before. */
  lemma RequestThenReply(json: Json, t: Table, freshId: string, req: ConnectRequest, frame: Bytes, answer: Bytes)
    requires freshId !in t.pending
    requires MarshalMessage(json, freshId, req.sd).Ok?
    requires json.unmarshalMessage(frame) == Ok(Message(freshId, answer))
    ensures Dispatch(json, t, [Requested(freshId, req), Inbound(frame)]) ==
      (t.(out := t.out + [MarshalMessage(json, freshId, req.sd).value],
          delivered := t.delivered + [Resolve(json, req.caller, answer)]), Continue)
  {
    var t1 := Step(json, t, Requested(freshId, req)).0;
    assert [Requested(freshId, req), Inbound(frame)][1..] == [Inbound(frame)];
    assert Dispatch(json, t1, [Inbound(frame)]) == Step(json, t1, Inbound(frame));
    assert t1.pending - {freshId} == t.pending;
  }

  /** Replies are routed by id, not by arrival order: two requests A then B,
      answered B then A, each get their own reply. */
  lemma RepliesRoutedById(json: Json, t: Table, a: string, ra: ConnectRequest, b: string, rb: ConnectRequest,
                          fa: Bytes, pa: Bytes, fb: Bytes, pb: Bytes)
    requires a != b && a !in t.pending && b !in t.pending
    requires MarshalMessage(json, a, ra.sd).Ok? && MarshalMessage(json, b, rb.sd).Ok?
    requires json.unmarshalMessage(fa) == Ok(Message(a, pa)) && json.unmarshalMessage(fb) == Ok(Message(b, pb))
    ensures var (t', c) := Dispatch(json, t, [Requested(a, ra), Requested(b, rb), Inbound(fb), Inbound(fa)]);
      && c == Continue
      && t'.pending == t.pending
      && t'.delivered == t.delivered + [Resolve(json, rb.caller, pb), Resolve(json, ra.caller, pa)]
      && t'.warnings == t.warnings
  {
    var events := [Requested(a, ra), Requested(b, rb), Inbound(fb), Inbound(fa)];
    var t1 := Step(json, t, events[0]).0;
    var t2 := Step(json, t1, events[1]).0;
    var t3 := Step(json, t2, events[2]).0;
    assert t2.pending == t.pending[a := ra.caller][b := rb.caller];
    assert t3.pending == t.pending[a := ra.caller];
    assert Dispatch(json, t, events) == Dispatch(json, t1, events[1..]);
    assert Dispatch(json, t1, events[1..]) == Dispatch(json, t2, events[2..]);
    assert Dispatch(json, t2, events[2..]) == Dispatch(json, t3, events[3..]);
    assert events[3..][1..] == [];
    assert Dispatch(json, t3, events[3..]) == Step(json, t3, Inbound(fa));
    assert t3.pending - {a} == t.pending;
  }

  // ---------------------------------------------------------------------------
  // Every request gets at most one outcome, and none is lost while the loop runs

  ghost function Callers(d: seq<Delivery>): set<Caller> {
    set i | 0 <= i < |d| :: d[i].caller
  }

  ghost predicate DistinctCallers(d: seq<Delivery>) {
    forall i, j :: 0 <= i < j < |d| ==> d[i].caller != d[j].caller
  }

  ghost predicate Injective(p: map<string, Caller>) {
    forall x, y :: x in p && y in p && x != y ==> p[x] != p[y]
  }

  /** The callers the dispatcher answers for: still pending, or already told. */
  ghost function Accounted(t: Table): set<Caller> {
    t.pending.Values + Callers(t.delivered)
  }

  /** No caller is told twice, pending twice, or both pending and told. */
  ghost predicate Valid(t: Table) {
    && DistinctCallers(t.delivered)
    && Injective(t.pending)
    && t.pending.Values !! Callers(t.delivered)
  }

  /** A request carries an id that is not pending and a caller never seen before. */
  ghost predicate Fresh(t: Table, e: Event) {
    e.Requested? ==> e.freshId !in t.pending && e.req.caller !in Accounted(t)
  }

  /** Every request in the run that the loop gets to is fresh when it arrives. */
  ghost predicate FreshDispatch(json: Json, t: Table, events: seq<Event>)
    decreases |events|
  {
    events == [] ||
    (Fresh(t, events[0]) &&
     var (t', c) := Step(json, t, events[0]);
     c.Return? || FreshDispatch(json, t', events[1..]))
  }

  ghost function RequestCallers(events: seq<Event>): set<Caller> {
    set i | 0 <= i < |events| && events[i].Requested? :: events[i].req.caller
  }

  lemma AppendCaller(d: seq<Delivery>, x: Delivery)
    requires DistinctCallers(d) && x.caller !in Callers(d)
    ensures DistinctCallers(d + [x]) && Callers(d + [x]) == Callers(d) + {x.caller}
  {
    var d' := d + [x];
    forall i, j | 0 <= i < j < |d'| ensures d'[i].caller != d'[j].caller {
      if j == |d| {
        assert d'[i] == d[i];
      } else {
        assert d'[i] == d[i] && d'[j] == d[j];
      }
    }
    forall c | c in Callers(d') ensures c in Callers(d) + {x.caller} {
      var i :| 0 <= i < |d'| && d'[i].caller == c;
      if i < |d| { assert d'[i] == d[i]; }
    }
    forall c | c in Callers(d) + {x.caller} ensures c in Callers(d') {
      if c == x.caller {
        assert d'[|d|] == x;
      } else {
        var i :| 0 <= i < |d| && d[i].caller == c;
        assert d'[i] == d[i];
      }
    }
  }

  /** One turn keeps `Valid`, and moves callers only from pending to told, except
      that a request adds its caller and cancellation drops every pending one. */
  lemma StepAccounts(json: Json, t: Table, e: Event)
    requires Valid(t) && Fresh(t, e)
    ensures Valid(Step(json, t, e).0)
    ensures e.Requested? ==> Accounted(Step(json, t, e).0) == Accounted(t) + {e.req.caller}
    ensures e.Inbound? ==> Accounted(Step(json, t, e).0) == Accounted(t)
    ensures e.Cancelled? ==> Accounted(Step(json, t, e).0) == Callers(t.delivered)
  {
    var t' := Step(json, t, e).0;
    match e
    case Cancelled =>
      assert t'.pending.Values == {};
    case Inbound(frame) =>
      var decoded := json.unmarshalMessage(frame);
      if decoded.Ok? && decoded.value.id in t.pending {
        var m := decoded.value;
        var c := t.pending[m.id];
        AppendCaller(t.delivered, Resolve(json, c, m.payload));
        assert t'.pending.Values == t.pending.Values - {c} by {
          forall v | v in t.pending.Values ensures v in t'.pending.Values + {c} {
            var k :| k in t.pending && t.pending[k] == v;
            if k != m.id { assert t'.pending[k] == v; }
          }
        }
      }
    case Requested(freshId, req) =>
      match MarshalMessage(json, freshId, req.sd)
      case Err(err) =>
        AppendCaller(t.delivered, Failed(req.caller, err));
      case Ok(b) =>
        assert t'.pending == t.pending[freshId := req.caller];
        assert t'.pending.Values == t.pending.Values + {req.caller} by {
          forall v | v in t'.pending.Values ensures v in t.pending.Values + {req.caller} {
            var k :| k in t'.pending && t'.pending[k] == v;
            if k != freshId { assert t.pending[k] == v; }
          }
          forall v | v in t.pending.Values ensures v in t'.pending.Values {
            var k :| k in t.pending && t.pending[k] == v;
            assert t'.pending[k] == v;
          }
          assert t'.pending[freshId] == req.caller;
        }
  }

  /** Over any run from a valid table with fresh requests, no caller is ever
      told twice. */
  lemma {:induction false} DispatchKeepsValid(json: Json, t: Table, events: seq<Event>)
    requires Valid(t) && FreshDispatch(json, t, events)
    ensures Valid(Dispatch(json, t, events).0)
    decreases |events|
  {
    if events != [] {
      StepAccounts(json, t, events[0]);
      var (t', c) := Step(json, t, events[0]);
      if !c.Return? {
        DispatchKeepsValid(json, t', events[1..]);
      }
    }
  }

  /** Over a run without cancellation, every caller that was pending or told is
      still pending or told, and no caller appears that did not ask. */
  lemma {:induction false} DispatchLosesNoCaller(json: Json, t: Table, events: seq<Event>)
    requires Valid(t) && FreshDispatch(json, t, events)
    requires forall i :: 0 <= i < |events| ==> !events[i].Cancelled?
    ensures Accounted(t) <= Accounted(Dispatch(json, t, events).0) <= Accounted(t) + RequestCallers(events)
    decreases |events|
  {
    if events != [] {
      StepAccounts(json, t, events[0]);
      var (t', c) := Step(json, t, events[0]);
      assert Accounted(t') <= Accounted(t) + RequestCallers(events) by {
        if events[0].Requested? { assert events[0].req.caller in RequestCallers(events); }
      }
      if !c.Return? {
        DispatchLosesNoCaller(json, t', events[1..]);
        assert RequestCallers(events[1..]) <= RequestCallers(events) by {
          forall x | x in RequestCallers(events[1..]) ensures x in RequestCallers(events) {
            var i :| 0 <= i < |events[1..]| && events[1..][i].Requested? && events[1..][i].req.caller == x;
            assert events[i + 1] == events[1..][i];
          }
        }
      }
    }
  }

  /** Cancellation leaves every pending caller without an outcome: the waiters
      return on cancellation without telling their callers. */
  lemma CancelStrandsPending(json: Json, t: Table, c: Caller)
    requires Valid(t) && c in t.pending.Values
    ensures c !in Accounted(Step(json, t, Cancelled).0)
  {
  }

  // ---------------------------------------------------------------------------
  // The actor's state in place

  class Server {
    const id: string
    const json: Json
    var pending: map<string, Caller>
    var out: seq<Bytes>
    var delivered: seq<Delivery>
    var warnings: nat
    /** The dispatcher loop has returned; it handles no further event. */
    var stopped: bool

    /** The dispatcher state held in this object's fields. */
    function State(): Table
      reads this
    {
      Table(pending, out, delivered, warnings)
    }

    /** `NewServer`: the id is minted by the caller; the table and queues start empty. */
    constructor (id: string, json: Json)
      ensures this.id == id && this.json == json
      ensures State() == Table(map[], [], [], 0) && !stopped
    {
      this.id := id;
      this.json := json;
      pending := map[];
      out := [];
      delivered := [];
      warnings := 0;
      stopped := false;
    }

    method ID() returns (r: string)
      ensures r == id
    {
      r := id;
    }

    /** The `ctx.Done()` case. */
    method OnCancel() returns (c: Control)
      requires !stopped
      modifies this
      ensures (State(), c) == Step(json, old(State()), Cancelled)
      ensures pending == map[] && c == Return(None) && stopped
      ensures Valid(old(State())) ==> Valid(State())
    {
      if Valid(State()) {
        StepAccounts(json, State(), Cancelled);
      }
      pending := map[];
      stopped := true;
      c := Return(None);
    }

    /** The inbound-frame case, with the waiter of a matched request run at once. */
    method OnInbound(frame: Bytes) returns (c: Control)
      requires !stopped
      modifies this
      ensures (State(), c) == Step(json, old(State()), Inbound(frame))
      ensures stopped <==> c.Return?
      ensures Valid(old(State())) ==> Valid(State())
    {
      if Valid(State()) {
        StepAccounts(json, State(), Inbound(frame));
      }
      var decoded := json.unmarshalMessage(frame);
      if decoded.Err? {
        stopped := true;
        return Return(Some(decoded.error));
      }
      var m := decoded.value;
      if m.id !in pending {
        warnings := warnings + 1;
        return Continue;
      }
      var caller := pending[m.id];
      pending := pending - {m.id};
      var answer := json.unmarshalDescription(m.payload);
      if answer.Ok? {
        delivered := delivered + [Answered(caller, answer.value)];
      } else {
        delivered := delivered + [Failed(caller, answer.error)];
      }
      c := Continue;
    }

    /** The connect-request case; `freshId` stands for the newly minted uuid. */
    method OnConnectRequest(freshId: string, req: ConnectRequest) returns (c: Control)
      requires !stopped && freshId !in pending
      modifies this
      ensures (State(), c) == Step(json, old(State()), Requested(freshId, req))
      ensures !stopped && c == Continue
      ensures Valid(old(State())) && Fresh(old(State()), Requested(freshId, req)) ==> Valid(State())
    {
      ghost var before := State();
      if Valid(before) && Fresh(before, Requested(freshId, req)) {
        StepAccounts(json, before, Requested(freshId, req));
      }
      var encoded := MarshalMessage(json, freshId, req.sd);
      if encoded.Err? {
        delivered := delivered + [Failed(req.caller, encoded.error)];
        return Continue;
      }
      out := out + [encoded.value];
      pending := pending[freshId := req.caller];
      c := Continue;
    }
  }
}
