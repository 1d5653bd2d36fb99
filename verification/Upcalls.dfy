/** What the user agent tells the gateway, in any run: of every incoming call once, and of every digit, text and
    transfer report that was taken up, and nothing else (sipgram/sip/account.py:762-882). */
module Upcalls {
  import opened Options
  import opened Sequences
  import opened UserAgents
  import opened Dialogs
  import opened Duplicates

  // ---- Incoming calls ----

  /** The calls told of. */
  function CallsTold(upcalls: seq<Upcall>): seq<nat> {
    if upcalls == [] then []
    else
      var last := upcalls[|upcalls| - 1];
      CallsTold(upcalls[..|upcalls| - 1]) + if last.IncomingCall? then [last.call] else []
  }

  /** The indices of the incoming calls, in order. */
  function IncomingCalls(objs: seq<Call>): seq<nat> {
    if objs == [] then []
    else IncomingCalls(objs[..|objs| - 1]) + if objs[|objs| - 1].incoming then [|objs| - 1] else []
  }

  lemma ToldSnoc(upcalls: seq<Upcall>, u: Upcall)
    ensures CallsTold(upcalls + [u]) == CallsTold(upcalls) + if u.IncomingCall? then [u.call] else []
  {
    assert (upcalls + [u])[..|upcalls|] == upcalls;
  }

  lemma IncomingSnoc(objs: seq<Call>, c: Call)
    ensures IncomingCalls(objs + [c]) == IncomingCalls(objs) + if c.incoming then [|objs|] else []
  {
    assert (objs + [c])[..|objs|] == objs;
  }

  lemma {:induction false} IncomingSame(objs: seq<Call>, later: seq<Call>)
    requires |later| == |objs| && forall i :: 0 <= i < |objs| ==> later[i].incoming == objs[i].incoming
    ensures IncomingCalls(later) == IncomingCalls(objs)
  {
    if objs != [] {
      IncomingSame(objs[..|objs| - 1], later[..|objs| - 1]);
    }
  }

  /** With a hook it has been told of every incoming call, each once and in order; without one, of none, and each
      has been refused with 480 on the spot. */
  predicate Announced(a: Account) {
    && CallsTold(a.upcalls) == (if a.hook then IncomingCalls(a.objs) else [])
    && (!a.hook ==> forall i :: 0 <= i < |a.objs| && a.objs[i].incoming ==> Unwanted(a.objs[i]))
  }

  predicate Unwanted(c: Call) {
    c.phase == Terminated && c.ended == Some(480) && c.answered == Some(480)
  }

  lemma StaysUnwanted(c: Call, later: Call)
    requires Unwanted(c) && Follows(c, later)
    ensures Unwanted(later)
  {
  }

  // ---- Reports ----

  /** The live call with that Call-ID. */
  predicate LiveAs(a: Account, id: Name, i: nat) {
    i < |a.objs| && a.objs[i].id == id && a.objs[i].phase != Terminated
  }

  predicate Known(a: Account, id: Name) {
    exists i :: 0 <= i < |a.objs| && LiveAs(a, id, i)
  }

  /** A request that is handled, not answered from memory: the history of responses decides. */
  predicate TakenUp(a: Account, req: Request, now: real) {
    req.verb != Ack && !Repeats(a.wire.log, req, now)
  }

  /** The live call that a request belongs to, by the calls themselves. */
  ghost function Subject(a: Account, id: Name): nat
    requires Known(a, id)
  {
    var i :| LiveAs(a, id, i);
    i
  }

  /** What one event should make the user agent say. */
  ghost function Says(a: Account, e: Timed): seq<Upcall> {
    if !e.event.Arrives? || !TakenUp(a, e.event.req, e.at) then []
    else
      var req := e.event.req;
      match req.verb
      case Invite =>
        if a.hook && e.event.port && req.body == Offer(true) && !Known(a, req.callId) then [IncomingCall(|a.objs|)]
        else []
      case Info => if Known(a, req.callId) && req.body == Digit then [InfoDigit(Subject(a, req.callId), req)] else []
      case Notify =>
        if Known(a, req.callId) && req.body == Fragment then [ReferProgress(Subject(a, req.callId), req)] else []
      case Text => [TextReceived(req)]
      case _ => []
  }

  ghost function SaysAll(a: Account, events: seq<Timed>): seq<Upcall>
    requires Keeps(a)
    decreases |events|
  {
    if events == [] then []
    else
      var e := events[0];
      StepKeeps(a, e.event, e.at);
      KeepsIndexed(a);
      Says(a, e) + SaysAll(Step(a, e.event, e.at), events[1..])
  }

  lemma SubjectIs(a: Account, id: Name)
    requires Keeps(a)
    ensures Known(a, id) <==> id in a.calls
    ensures id in a.calls ==> Subject(a, id) == a.calls[id]
  {
    if id in a.calls {
      assert LiveAs(a, id, a.calls[id]);
    }
    if i :| LiveAs(a, id, i) {
      assert a.calls[id] == i;
    }
  }

  lemma PutSilent(a: Account, i: nat, side: Side)
    requires i < |a.objs|
    ensures Put(a, i, side).upcalls == a.upcalls
  {
  }

  lemma DispatchSays(a: Account, req: Request, port: bool, now: real)
    requires Keeps(a) && req.verb != Ack
    ensures Indexed(a)
    ensures Dispatch(a, req, port, now).upcalls
            == a.upcalls
               + (var known := req.callId in a.calls;
                  match req.verb
                  case Invite =>
                    if a.hook && port && req.body == Offer(true) && !known then [IncomingCall(|a.objs|)] else []
                  case Info => if known && req.body == Digit then [InfoDigit(a.calls[req.callId], req)] else []
                  case Notify => if known && req.body == Fragment then [ReferProgress(a.calls[req.callId], req)] else []
                  case Text => [TextReceived(req)]
                  case _ => [])
  {
    hide Keeps, Respond, Reinvite, CancelOpen, Terminate, Reject, Acked;
    KeepsIndexed(a);
    assert a.upcalls + [] == a.upcalls;
  }

  lemma StepSays(a: Account, e: Timed)
    requires Keeps(a) && Truthful(a.wire, e.at)
    ensures Indexed(a) && Step(a, e.event, e.at).upcalls == a.upcalls + Says(a, e)
  {
    hide Keeps, Truthful, Dispatch, OnCall, Repeats, Absorbed, Known;
    KeepsIndexed(a);
    assert a.upcalls + [] == a.upcalls;
    if e.event.Arrives? {
      var req := e.event.req;
      AbsorbedIffRepeats(a, req, e.event.port, e.at);
      SubjectIs(a, req.callId);
      var p := Swept(a, e.at);
      QuietKeeps(a, p);
      if req.verb == Ack {
        AckSilent(p, req, e.event.port, e.at);
      } else if !Absorbed(a, req, e.at) {
        var q := Marked(p, Handled(req.Txn(), e.at));
        QuietKeeps(a, q);
        DispatchSays(q, req, e.event.port, e.at);
      }
    } else if !e.event.Dial? && e.event.call < |a.objs| {
      PutSilent(a, e.event.call, OnCall(a.objs[e.event.call], a.wire, e.event, e.at, a.udp));
    }
  }

  lemma AckSilent(a: Account, req: Request, port: bool, now: real)
    requires Indexed(a) && req.verb == Ack
    ensures Dispatch(a, req, port, now).upcalls == a.upcalls
  {
  }

  lemma {:induction false} RunSays(a: Account, events: seq<Timed>, from: real)
    requires Keeps(a) && Truthful(a.wire, from) && Ordered(events, from)
    ensures Run(a, events).upcalls == a.upcalls + SaysAll(a, events)
    decreases |events|
  {
    hide Keeps, Truthful, Step, Says;
    if events == [] {
      assert a.upcalls + [] == a.upcalls;
    } else {
      var e := events[0];
      KeepsIndexed(a);
      StepKeeps(a, e.event, e.at);
      LaterTruthful(a.wire, from, e.at);
      StepSays(a, e);
      StepTrue(a, e);
      var b := Step(a, e.event, e.at);
      RunSays(b, events[1..], e.at);
      Regroup(a.upcalls, Says(a, e), SaysAll(b, events[1..]));
    }
  }

  lemma StepTrue(a: Account, e: Timed)
    requires Keeps(a) && Truthful(a.wire, e.at)
    ensures Indexed(a) && Truthful(Step(a, e.event, e.at).wire, e.at)
  {
    hide Keeps, Truthful, Step, Fresh;
    KeepsIndexed(a);
    OneStep(a, a.(wire := Wire(a.wire.cache, Fresh(a.wire.log))), e.event, e.at);
  }

  /** In every run the gateway is told exactly this: of a call when an INVITE for a new dialog is taken up that can be
      served, of a digit, a text and a transfer report when the request that brings it is, in this order and nothing
      else. */
  lemma ToldExactly(udp: bool, hook: bool, events: seq<Timed>, from: real)
    requires Ordered(events, from)
    ensures Keeps(Initial(udp, hook))
    ensures Run(Initial(udp, hook), events).upcalls == SaysAll(Initial(udp, hook), events)
  {
    hide Keeps, Truthful, Step;
    InitialTwin(udp, hook, from);
    RunSays(Initial(udp, hook), events, from);
    assert [] + SaysAll(Initial(udp, hook), events) == SaysAll(Initial(udp, hook), events);
  }

  // ---- Every incoming call ----

  /** What a step adds: at most one call, and with an incoming one the word of it or its refusal. */
  predicate Adds(a: Account, b: Account) {
    && b.hook == a.hook && |a.objs| <= |b.objs| <= |a.objs| + 1
    && if |b.objs| == |a.objs| || !b.objs[|a.objs|].incoming then CallsTold(b.upcalls) == CallsTold(a.upcalls)
       else if a.hook then CallsTold(b.upcalls) == CallsTold(a.upcalls) + [|a.objs|]
       else CallsTold(b.upcalls) == CallsTold(a.upcalls) && Unwanted(b.objs[|a.objs|])
  }

  lemma NewInviteAdds(a: Account, req: Request, port: bool, now: real)
    ensures Adds(a, NewInvite(a, req, port, now))
  {
    hide Respond, CallsTold;
    ToldSnoc(a.upcalls, IncomingCall(|a.objs|));
  }

  lemma DispatchAdds(a: Account, req: Request, port: bool, now: real)
    requires Indexed(a)
    ensures Adds(a, Dispatch(a, req, port, now))
  {
    hide Respond, CallsTold, NewInvite, Reinvite, CancelOpen, Terminate, Acked, Unwanted;
    var b := Dispatch(a, req, port, now);
    if req.verb == Invite && req.callId !in a.calls {
      NewInviteAdds(a, req, port, now);
    } else {
      ToldSnoc(a.upcalls, TextReceived(req));
      assert CallsTold(a.upcalls) + [] == CallsTold(a.upcalls);
      if req.callId in a.calls {
        ToldSnoc(a.upcalls, InfoDigit(a.calls[req.callId], req));
        ToldSnoc(a.upcalls, ReferProgress(a.calls[req.callId], req));
      }
    }
  }

  lemma StepAdds(a: Account, e: Timed)
    requires Indexed(a)
    ensures Adds(a, Step(a, e.event, e.at))
  {
    hide CallsTold, Dispatch, OnCall, Absorbed, Unwanted;
    if e.event.Arrives? {
      var p := Swept(a, e.at);
      DispatchAdds(p, e.event.req, e.event.port, e.at);
      DispatchAdds(Marked(p, Handled(e.event.req.Txn(), e.at)), e.event.req, e.event.port, e.at);
    }
  }

  lemma AddsAnnounced(a: Account, b: Account)
    requires Announced(a) && Adds(a, b) && Develops(a, b)
    ensures Announced(b)
  {
    hide CallsTold, IncomingCalls, Unwanted;
    var n := |a.objs|;
    forall i | 0 <= i < n ensures Follows(a.objs[i], b.objs[i]) {
    }
    IncomingSame(a.objs, b.objs[..n]);
    if |b.objs| == n {
      assert b.objs[..n] == b.objs;
    } else {
      assert b.objs[..n] + [b.objs[n]] == b.objs;
      IncomingSnoc(b.objs[..n], b.objs[n]);
      assert IncomingCalls(b.objs[..n]) + [] == IncomingCalls(b.objs[..n]);
    }
    if !a.hook {
      forall i | 0 <= i < |b.objs| && b.objs[i].incoming ensures Unwanted(b.objs[i]) {
        if i < n {
          StaysUnwanted(a.objs[i], b.objs[i]);
        }
      }
    }
  }

  lemma {:induction false} RunAnnounced(a: Account, events: seq<Timed>)
    requires Keeps(a) && Announced(a)
    ensures Announced(Run(a, events))
    decreases |events|
  {
    hide Keeps, Step, Announced, Adds, Develops;
    if events != [] {
      var e := events[0];
      KeepsIndexed(a);
      StepKeeps(a, e.event, e.at);
      StepAdds(a, e);
      AddsAnnounced(a, Step(a, e.event, e.at));
      RunAnnounced(Step(a, e.event, e.at), events[1..]);
    }
  }

  /** In every run: with a hook it has been told of the incoming calls, of all of them, once each and in the order in
      which they came; without one it has been told of none, and each has ended with 480. */
  lemma EveryCallAnnounced(udp: bool, hook: bool, events: seq<Timed>)
    ensures Keeps(Initial(udp, hook))
    ensures var a := Run(Initial(udp, hook), events);
            && CallsTold(a.upcalls) == (if hook then IncomingCalls(a.objs) else [])
            && (!hook ==> forall i :: 0 <= i < |a.objs| && a.objs[i].incoming ==>
                 a.objs[i].phase == Terminated && a.objs[i].ended == Some(480) && a.objs[i].answered == Some(480))
  {
    hide Keeps, Step;
    InitialKeeps(udp, hook);
    RunAnnounced(Initial(udp, hook), events);
    SameHook(Initial(udp, hook), events);
  }

  lemma {:induction false} SameHook(a: Account, events: seq<Timed>)
    requires Keeps(a)
    ensures Run(a, events).hook == a.hook
    decreases |events|
  {
    hide Keeps, Step;
    if events != [] {
      KeepsIndexed(a);
      StepKeeps(a, events[0].event, events[0].at);
      StepAdds(a, events[0]);
      SameHook(Step(a, events[0].event, events[0].at), events[1..]);
    }
  }
}
