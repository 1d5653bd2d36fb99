/** Exactly-once handling of requests (section 17.2 of RFC 3261): a retransmission is answered from the cache
    and otherwise changes nothing, in any run. */
module Duplicates {
  import opened Options
  import opened UserAgents
  import opened Dialogs

  // ---- History ----

  /** The latest response of a transaction that a server transaction remembers. */
  function Latest(log: seq<Mark>, k: Key): Option<Entry>
    decreases |log|
  {
    if log == [] then None
    else
      var m := log[|log| - 1];
      if m.Sent? && Cacheable(m.response) && m.response.to.Txn() == k then Some(Entry(m.response, m.at))
      else Latest(log[..|log| - 1], k)
  }

  /** A request, other than an ACK, repeating one of its transaction within 32 s of the transaction's last response. */
  predicate Repeats(log: seq<Mark>, req: Request, now: real) {
    && req.cseqVerb == req.verb && req.verb != Ack
    && var latest := Latest(log, req.Txn());
       latest.Some? && now - latest.value.at <= TIMER_B
  }

  /** The history without the answers given from the cache. */
  function Fresh(log: seq<Mark>): seq<Mark>
    decreases |log|
  {
    if log == [] then []
    else
      var m := log[|log| - 1];
      Fresh(log[..|log| - 1]) + (if m.Replayed? then [] else [m])
  }

  /** The cache tells the truth about the history, up to entries older than 32 s. */
  ghost predicate Truthful(w: Wire, now: real) {
    forall k :: Remembered(w, k, now)
  }

  predicate Remembered(w: Wire, k: Key, now: real) {
    if k in w.cache then Latest(w.log, k) == Some(w.cache[k]) && w.cache[k].at <= now
    else Latest(w.log, k).Some? ==> now - Latest(w.log, k).value.at > TIMER_B
  }

  lemma LatestSnoc(log: seq<Mark>, m: Mark, k: Key)
    ensures Latest(log + [m], k)
            == if m.Sent? && Cacheable(m.response) && m.response.to.Txn() == k then Some(Entry(m.response, m.at))
               else Latest(log, k)
  {
    assert (log + [m])[..|log|] == log;
  }

  lemma FreshSnoc(log: seq<Mark>, m: Mark)
    ensures Fresh(log + [m]) == Fresh(log) + (if m.Replayed? then [] else [m])
  {
    assert (log + [m])[..|log|] == log;
  }

  lemma RespondTruthful(w: Wire, r: Response, now: real)
    requires Truthful(w, now)
    ensures Truthful(Respond(w, r, now), now)
  {
    hide Latest, Cacheable;
    forall k ensures Remembered(Respond(w, r, now), k, now) {
      LatestSnoc(w.log, Sent(r, now), k);
      assert Remembered(w, k, now);
    }
  }

  lemma MarkTruthful(w: Wire, m: Mark, now: real)
    requires Truthful(w, now) && !m.Sent?
    ensures Truthful(Wire(w.cache, w.log + [m]), now)
  {
    hide Latest;
    forall k ensures Remembered(Wire(w.cache, w.log + [m]), k, now) {
      LatestSnoc(w.log, m, k);
      assert Remembered(w, k, now);
    }
  }

  lemma LaterTruthful(w: Wire, now: real, later: real)
    requires Truthful(w, now) && now <= later
    ensures Truthful(w, later)
  {
    hide Latest;
    forall k ensures Remembered(w, k, later) {
      assert Remembered(w, k, now);
    }
  }

  lemma PurgeTruthful(w: Wire, now: real)
    requires Truthful(w, now)
    ensures Truthful(Wire(Purge(w.cache, now), w.log), now)
  {
    hide Latest;
    forall k ensures Remembered(Wire(Purge(w.cache, now), w.log), k, now) {
      assert Remembered(w, k, now);
    }
  }

  /** A request is answered from the cache exactly when it repeats a recent one, and with the latest response. */
  lemma AbsorbedIffRepeats(a: Account, req: Request, port: bool, now: real)
    requires Indexed(a) && Truthful(a.wire, now)
    ensures Absorbed(a, req, now) <==> Repeats(a.wire.log, req, now)
    ensures Absorbed(a, req, now) ==>
              Receive(a, req, port, now)
              == Marked(Swept(a, now), Replayed(Latest(a.wire.log, req.Txn()).value.response))
  {
    hide Latest, Dispatch;
    assert Remembered(a.wire, req.Txn(), now);
  }

  // ---- Two runs side by side ----

  /** The same history but for cached answers; the same cache but for stale entries. */
  predicate TwinWire(x: Wire, y: Wire, now: real) {
    && Purge(x.cache, now) == Purge(y.cache, now)
    && Fresh(x.log) == y.log
  }

  predicate Twin(a: Account, b: Account, now: real) {
    && a.udp == b.udp && a.hook == b.hook
    && a.objs == b.objs && a.calls == b.calls && a.upcalls == b.upcalls
    && TwinWire(a.wire, b.wire, now)
  }

  lemma PurgeLater(cache: map<Key, Entry>, now: real, later: real)
    requires now <= later
    ensures Purge(Purge(cache, now), later) == Purge(cache, later)
  {
  }

  lemma PurgeUpdate(cache: map<Key, Entry>, k: Key, e: Entry)
    ensures Purge(cache[k := e], e.at) == Purge(cache, e.at)[k := e]
  {
  }

  lemma TwinLater(a: Account, b: Account, now: real, later: real)
    requires Twin(a, b, now) && now <= later
    ensures Twin(a, b, later)
  {
    hide Purge, Fresh;
    PurgeLater(a.wire.cache, now, later);
    PurgeLater(b.wire.cache, now, later);
  }

  lemma RespondTwin(x: Wire, y: Wire, r: Response, now: real)
    requires TwinWire(x, y, now)
    ensures TwinWire(Respond(x, r, now), Respond(y, r, now), now)
  {
    hide Purge, Fresh;
    PurgeUpdate(x.cache, r.to.Txn(), Entry(r, now));
    PurgeUpdate(y.cache, r.to.Txn(), Entry(r, now));
    FreshSnoc(x.log, Sent(r, now));
  }

  lemma MarkTwin(a: Account, b: Account, m: Mark, now: real)
    requires Twin(a, b, now) && !m.Replayed?
    ensures Twin(Marked(a, m), Marked(b, m), now)
  {
    hide Purge, Fresh;
    FreshSnoc(a.wire.log, m);
  }

  // ---- What the operations on one call do to the wire ----

  /** Whatever an operation does, it does to both wires, and the cache stays truthful. */
  ghost predicate Even(before: Wire, after: Wire, twin: Wire, twinAfter: Wire, now: real) {
    && (Truthful(before, now) ==> Truthful(after, now))
    && (TwinWire(before, twin, now) ==> TwinWire(after, twinAfter, now))
  }

  lemma RespondEven(x: Wire, y: Wire, r: Response, now: real)
    ensures Even(x, Respond(x, r, now), y, Respond(y, r, now), now)
  {
    hide Truthful, TwinWire, Respond;
    if Truthful(x, now) {
      RespondTruthful(x, r, now);
    }
    if TwinWire(x, y, now) {
      RespondTwin(x, y, r, now);
    }
  }

  ghost predicate EvenSides(w: Wire, s: Side, v: Wire, t: Side, now: real) {
    s.call == t.call && Even(w, s.wire, v, t.wire, now)
  }

  lemma RingEven(c: Call, w: Wire, v: Wire, now: real, udp: bool)
    ensures EvenSides(w, Ring(c, w, now), v, Ring(c, v, now), now)
    ensures EvenSides(w, Answer(c, w, now, udp), v, Answer(c, v, now, udp), now)
  {
    hide Respond, Truthful, TwinWire;
    if c.invite.Some? {
      RespondEven(w, v, Response(c.invite.value, 180, 0), now);
      RespondEven(w, v, Response(c.invite.value, 200, c.version), now);
    }
  }

  lemma RejectEven(c: Call, w: Wire, v: Wire, code: FinalCode, now: real, udp: bool)
    ensures EvenSides(w, Reject(c, w, code, now, udp), v, Reject(c, v, code, now, udp), now)
    ensures EvenSides(w, Hangup(c, w, code, now, udp), v, Hangup(c, v, code, now, udp), now)
  {
    hide Respond, Truthful, TwinWire, Terminate;
    if c.invite.Some? {
      RespondEven(w, v, Response(c.invite.value, code, 0), now);
    }
  }

  lemma FireEven(c: Call, w: Wire, v: Wire, now: real, udp: bool)
    ensures EvenSides(w, Fire(c, w, now, udp), v, Fire(c, v, now, udp), now)
  {
    hide Respond, Truthful, TwinWire, Hangup;
    RejectEven(c.(timer := None), w, v, 486, now, udp);
    if c.lastFinal.Some? {
      RespondEven(w, v, c.lastFinal.value, now);
    }
  }

  lemma OnCallEven(c: Call, w: Wire, v: Wire, e: Event, now: real, udp: bool)
    requires !e.Arrives? && !e.Dial?
    ensures EvenSides(w, OnCall(c, w, e, now, udp), v, OnCall(c, v, e, now, udp), now)
  {
    hide Ring, Answer, Reject, Hangup, Fire, Terminate, Truthful, TwinWire, SetPhase;
    RingEven(c, w, v, now, udp);
    FireEven(c, w, v, now, udp);
    if e.RejectIt? || e.HangUp? {
      RejectEven(c, w, v, e.code, now, udp);
    }
  }

  lemma ReinviteEven(c: Call, w: Wire, v: Wire, req: Request, now: real, udp: bool)
    ensures EvenSides(w, Reinvite(c, w, req, now, udp), v, Reinvite(c, v, req, now, udp), now)
  {
    hide Respond, Truthful, TwinWire;
    RespondEven(w, v, Response(req, 491, 0), now);
    RespondEven(w, v, Response(req, 200, c.version), now);
    RespondEven(w, v, Response(req, 200, c.version + 1), now);
  }

  lemma CancelEven(c: Call, w: Wire, v: Wire, req: Request, now: real)
    ensures EvenSides(w, CancelOpen(c, w, req, now), v, CancelOpen(c, v, req, now), now)
  {
    hide Respond, Truthful, TwinWire, Terminate;
    var x, y := Respond(w, Response(req, 200, 0), now), Respond(v, Response(req, 200, 0), now);
    RespondEven(w, v, Response(req, 200, 0), now);
    if c.invite.Some? {
      RespondEven(x, y, Response(c.invite.value, 487, 0), now);
    }
  }

  // ---- The account ----

  ghost predicate EvenAccounts(a: Account, after: Account, b: Account, twinAfter: Account, now: real) {
    && (Truthful(a.wire, now) ==> Truthful(after.wire, now))
    && (Twin(a, b, now) ==> Twin(after, twinAfter, now))
  }

  lemma PutEven(a: Account, b: Account, i: nat, s: Side, t: Side, now: real)
    requires i < |a.objs| && i < |b.objs| && EvenSides(a.wire, s, b.wire, t, now)
    ensures EvenAccounts(a, Put(a, i, s), b, Put(b, i, t), now)
  {
    hide Truthful, TwinWire;
  }

  lemma ReplyEven(a: Account, b: Account, req: Request, code: nat, now: real)
    ensures EvenAccounts(a, Reply(a, req, code, now), b, Reply(b, req, code, now), now)
  {
    hide Truthful, TwinWire, Respond;
    RespondEven(a.wire, b.wire, Response(req, code, 0), now);
  }

  lemma NewInviteEven(a: Account, b: Account, req: Request, port: bool, now: real)
    requires Twin(a, b, now)
    ensures EvenAccounts(a, NewInvite(a, req, port, now), b, NewInvite(b, req, port, now), now)
  {
    hide Truthful, TwinWire, Respond, Reject;
    var x, y := Reply(a, req, 100, now), Reply(b, req, 100, now);
    ReplyEven(a, b, req, 488, now);
    ReplyEven(a, b, req, 100, now);
    ReplyEven(x, y, req, 503, now);
    ReplyEven(x, y, req, 488, now);
    var c := Call(req.callId, true, New, Some(req), None, false, None, T1, 0.0, true, None, None, false, false, 0);
    var objs, calls := a.objs + [c], a.calls[req.callId := |a.objs|];
    var s, t := Reject(c, x.wire, 480, now, a.udp), Reject(c, y.wire, 480, now, a.udp);
    RejectEven(c, x.wire, y.wire, 480, now, a.udp);
    PutEven(x.(objs := objs, calls := calls), y.(objs := objs, calls := calls), |a.objs|, s, t, now);
  }

  lemma DispatchEven(a: Account, b: Account, req: Request, port: bool, now: real)
    requires Indexed(a) && Indexed(b) && Twin(a, b, now)
    ensures EvenAccounts(a, Dispatch(a, req, port, now), b, Dispatch(b, req, port, now), now)
  {
    hide Indexed, Truthful, TwinWire, Respond, Reinvite, CancelOpen, Acked, NewInvite, Put, Terminate;
    IndexedAt(a, req.callId);
    IndexedAt(b, req.callId);
    match req.verb {
      case Invite =>
        if req.callId in a.calls {
          var i := a.calls[req.callId];
          ReinviteEven(a.objs[i], a.wire, b.wire, req, now, a.udp);
          PutEven(a, b, i, Reinvite(a.objs[i], a.wire, req, now, a.udp), Reinvite(b.objs[i], b.wire, req, now, b.udp),
                  now);
        } else {
          NewInviteEven(a, b, req, port, now);
        }
      case Ack =>
        if req.callId in a.calls {
          var i := a.calls[req.callId];
          PutEven(a, b, i, Side(Acked(a.objs[i]), a.wire), Side(Acked(b.objs[i]), b.wire), now);
        }
      case Cancel =>
        CancelDispatchEven(a, b, req, port, now);
      case Bye =>
        ByeEven(a, b, req, port, now);
      case Update =>
        UpdateEven(a, b, req, port, now);
      case _ =>
        ReplyEven(a, b, req, 200, now);
        ReplyEven(a, b, req, 501, now);
        ReplyEven(a, b, req, 405, now);
    }
  }

  lemma IndexedAt(a: Account, id: Name)
    requires Indexed(a)
    ensures id in a.calls ==> a.calls[id] < |a.objs|
  {
  }

  lemma CancelDispatchEven(a: Account, b: Account, req: Request, port: bool, now: real)
    requires Indexed(a) && Indexed(b) && Twin(a, b, now) && req.verb == Cancel
    ensures EvenAccounts(a, Dispatch(a, req, port, now), b, Dispatch(b, req, port, now), now)
  {
    hide Indexed, Truthful, TwinWire, Respond, CancelOpen, Put, NewInvite, Reinvite, Acked;
    IndexedAt(a, req.callId);
    IndexedAt(b, req.callId);
    ReplyEven(a, b, req, 481, now);
    if req.callId in a.calls {
      var i := a.calls[req.callId];
      CancelEven(a.objs[i], a.wire, b.wire, req, now);
      PutEven(a, b, i, CancelOpen(a.objs[i], a.wire, req, now), CancelOpen(b.objs[i], b.wire, req, now), now);
    }
  }

  lemma ByeEven(a: Account, b: Account, req: Request, port: bool, now: real)
    requires Indexed(a) && Indexed(b) && Twin(a, b, now) && req.verb == Bye
    ensures EvenAccounts(a, Dispatch(a, req, port, now), b, Dispatch(b, req, port, now), now)
  {
    hide Indexed, Truthful, TwinWire, Respond, Terminate, Put, NewInvite, Reinvite, Acked, CancelOpen;
    IndexedAt(a, req.callId);
    IndexedAt(b, req.callId);
    ReplyEven(a, b, req, 481, now);
    ReplyEven(a, b, req, 200, now);
    if req.callId in a.calls {
      var i := a.calls[req.callId];
      var x, y := Reply(a, req, 200, now), Reply(b, req, 200, now);
      PutEven(x, y, i, Side(Terminate(a.objs[i], 0), x.wire), Side(Terminate(b.objs[i], 0), y.wire), now);
    }
  }

  lemma UpdateEven(a: Account, b: Account, req: Request, port: bool, now: real)
    requires Indexed(a) && Indexed(b) && Twin(a, b, now) && req.verb == Update
    ensures EvenAccounts(a, Dispatch(a, req, port, now), b, Dispatch(b, req, port, now), now)
  {
    hide Indexed, Truthful, TwinWire, Respond, Put, NewInvite, Reinvite, Acked, CancelOpen;
    IndexedAt(a, req.callId);
    IndexedAt(b, req.callId);
    ReplyEven(a, b, req, 200, now);
    if req.callId in a.calls {
      var i := a.calls[req.callId];
      var c := a.objs[i];
      var r := Response(req, 200, c.version + 1);
      RespondEven(a.wire, b.wire, r, now);
      var bumped := c.(version := c.version + 1);
      PutEven(a, b, i, Side(bumped, Respond(a.wire, r, now)), Side(bumped, Respond(b.wire, r, now)), now);
    }
  }

  lemma SweptEven(a: Account, b: Account, now: real)
    ensures EvenAccounts(a, Swept(a, now), b, Swept(b, now), now)
  {
    hide Fresh, Latest;
    if Truthful(a.wire, now) {
      PurgeTruthful(a.wire, now);
    }
    PurgeLater(a.wire.cache, now, now);
    PurgeLater(b.wire.cache, now, now);
  }

  lemma MarkedEven(a: Account, b: Account, k: Key, now: real)
    ensures EvenAccounts(a, Marked(a, Handled(k, now)), b, Marked(b, Handled(k, now)), now)
  {
    hide Truthful, TwinWire;
    if Truthful(a.wire, now) {
      MarkTruthful(a.wire, Handled(k, now), now);
    }
    if Twin(a, b, now) {
      MarkTwin(a, b, Handled(k, now), now);
    }
  }

  /** A request that is taken up does the same to both. */
  lemma TakenEven(a: Account, b: Account, req: Request, port: bool, now: real)
    requires Indexed(a) && Indexed(b) && Twin(a, b, now) && !Absorbed(a, req, now)
    ensures EvenAccounts(a, Receive(a, req, port, now), b, Receive(b, req, port, now), now)
  {
    hide Dispatch, Truthful, Fresh, Purge;
    var x, y := Swept(a, now), Swept(b, now);
    SweptEven(a, b, now);
    if req.verb == Ack {
      DispatchEven(x, y, req, port, now);
    } else {
      var p, q := Marked(x, Handled(req.Txn(), now)), Marked(y, Handled(req.Txn(), now));
      MarkedEven(x, y, req.Txn(), now);
      DispatchEven(p, q, req, port, now);
    }
  }

  /** A request answered from the cache is as if it had never come. */
  lemma AbsorbedTwin(a: Account, b: Account, req: Request, port: bool, now: real)
    requires Indexed(a) && Twin(a, b, now) && Absorbed(a, req, now)
    ensures Twin(Receive(a, req, port, now), b, now)
    ensures Truthful(a.wire, now) ==> Truthful(Receive(a, req, port, now).wire, now)
  {
    hide Dispatch, Purge, Fresh, Truthful;
    var p := Swept(a, now);
    var m := Replayed(p.wire.cache[req.Txn()].response);
    PurgeLater(a.wire.cache, now, now);
    FreshSnoc(a.wire.log, m);
    SweptEven(a, a, now);
    if Truthful(a.wire, now) {
      MarkTruthful(p.wire, m, now);
    }
  }

  lemma StepEven(a: Account, b: Account, e: Event, now: real)
    requires Indexed(a) && Indexed(b) && Twin(a, b, now)
    requires e.Arrives? ==> !Absorbed(a, e.req, now)
    ensures EvenAccounts(a, Step(a, e, now), b, Step(b, e, now), now)
  {
    hide Receive, Put, OnCall, Truthful, TwinWire, Absorbed, Indexed;
    match e {
      case Arrives(req, port) =>
        TakenEven(a, b, req, port, now);
      case Dial(id) =>
      case _ =>
        if e.call < |a.objs| {
          var c := a.objs[e.call];
          OnCallEven(c, a.wire, b.wire, e, now, a.udp);
          PutEven(a, b, e.call, OnCall(c, a.wire, e, now, a.udp), OnCall(c, b.wire, e, now, b.udp), now);
        }
    }
  }

  // ---- Runs ----

  predicate Ordered(events: seq<Timed>, from: real)
    decreases |events|
  {
    events == [] || (from <= events[0].at && Ordered(events[1..], events[0].at))
  }

  function End(events: seq<Timed>, from: real): real {
    if events == [] then from else events[|events| - 1].at
  }

  /** The run without the requests that repeat a recent one. */
  function Deduplicated(a: Account, events: seq<Timed>): seq<Timed>
    requires Keeps(a)
    decreases |events|
  {
    if events == [] then []
    else
      StepKeeps(a, events[0].event, events[0].at);
      KeepsIndexed(a);
      var e := events[0];
      var repeat := e.event.Arrives? && Repeats(a.wire.log, e.event.req, e.at);
      (if repeat then [] else [e]) + Deduplicated(Step(a, e.event, e.at), events[1..])
  }

  lemma {:induction false} TwinRuns(a: Account, b: Account, events: seq<Timed>, from: real)
    requires Keeps(a) && Keeps(b) && Twin(a, b, from) && Truthful(a.wire, from) && Ordered(events, from)
    ensures Twin(Run(a, events), Run(b, Deduplicated(a, events)), End(events, from))
    ensures Truthful(Run(a, events).wire, End(events, from))
    decreases |events|
  {
    hide Step, Keeps, Twin, Truthful, Repeats, Absorbed;
    if events != [] {
      var e, now := events[0].event, events[0].at;
      KeepsIndexed(a);
      KeepsIndexed(b);
      StepKeeps(a, e, now);
      StepKeeps(b, e, now);
      TwinLater(a, b, from, now);
      LaterTruthful(a.wire, from, now);
      OneStep(a, b, e, now);
      var rest := Deduplicated(Step(a, e, now), events[1..]);
      EndTail(events, from);
      if e.Arrives? && Repeats(a.wire.log, e.req, now) {
        assert Deduplicated(a, events) == rest;
        TwinRuns(Step(a, e, now), b, events[1..], now);
      } else {
        assert Deduplicated(a, events) == [events[0]] + rest;
        assert ([events[0]] + rest)[1..] == rest;
        TwinRuns(Step(a, e, now), Step(b, e, now), events[1..], now);
      }
    }
  }

  lemma EndTail(events: seq<Timed>, from: real)
    requires events != []
    ensures End(events[1..], events[0].at) == End(events, from)
  {
  }

  lemma OneStep(a: Account, b: Account, e: Event, now: real)
    requires Indexed(a) && Indexed(b) && Twin(a, b, now) && Truthful(a.wire, now)
    ensures Truthful(Step(a, e, now).wire, now)
    ensures if e.Arrives? && Repeats(a.wire.log, e.req, now) then Twin(Step(a, e, now), b, now)
            else Twin(Step(a, e, now), Step(b, e, now), now)
  {
    hide Receive, Put, OnCall, Truthful, Twin, Absorbed, Indexed, Repeats;
    if e.Arrives? {
      AbsorbedIffRepeats(a, e.req, e.port, now);
    }
    if e.Arrives? && Absorbed(a, e.req, now) {
      AbsorbedTwin(a, b, e.req, e.port, now);
    } else {
      StepEven(a, b, e, now);
    }
  }

  lemma InitialTwin(udp: bool, hook: bool, now: real)
    ensures Keeps(Initial(udp, hook)) && Truthful(Initial(udp, hook).wire, now)
    ensures Twin(Initial(udp, hook), Initial(udp, hook), now)
  {
    InitialKeeps(udp, hook);
  }

  /** Every run ends with the same calls, the same dialogs and the same upcalls as the run without its duplicates, and
      has sent the same responses but for those given from the cache. */
  lemma ExactlyOnce(udp: bool, hook: bool, events: seq<Timed>, from: real)
    requires Ordered(events, from)
    ensures Keeps(Initial(udp, hook))
    ensures var once := Deduplicated(Initial(udp, hook), events);
            var a, b := Run(Initial(udp, hook), events), Run(Initial(udp, hook), once);
            && a.objs == b.objs && a.calls == b.calls && a.upcalls == b.upcalls
            && Fresh(a.wire.log) == b.wire.log
            && Purge(a.wire.cache, End(events, from)) == Purge(b.wire.cache, End(events, from))
  {
    hide Step, Keeps, Truthful, Fresh, Purge;
    InitialTwin(udp, hook, from);
    TwinRuns(Initial(udp, hook), Initial(udp, hook), events, from);
  }

  /** In every run, a request that repeats a recent one is answered with its transaction's latest response, and nothing
      else about the account changes. */
  lemma DuplicatesGetTheLatest(udp: bool, hook: bool, events: seq<Timed>, from: real, req: Request, port: bool,
                               now: real)
    requires Ordered(events, from) && End(events, from) <= now
    ensures Keeps(Initial(udp, hook))
    ensures var a := Run(Initial(udp, hook), events);
            Indexed(a) && (Repeats(a.wire.log, req, now) ==>
              var b := Step(a, Arrives(req, port), now);
              && b.wire.log == a.wire.log + [Replayed(Latest(a.wire.log, req.Txn()).value.response)]
              && b.objs == a.objs && b.calls == a.calls && b.upcalls == a.upcalls)
  {
    hide Keeps, Truthful, Fresh, Purge, Dispatch, Latest, Repeats, Absorbed, Indexed;
    InitialTwin(udp, hook, from);
    TwinRuns(Initial(udp, hook), Initial(udp, hook), events, from);
    var a := Run(Initial(udp, hook), events);
    KeepsIndexed(a);
    LaterTruthful(a.wire, End(events, from), now);
    AbsorbedIffRepeats(a, req, port, now);
  }
}
