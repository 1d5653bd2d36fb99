/** An answered call whose ACK never comes, in any run and whatever else the user agent does meanwhile
    (section 13.3.1.4 of RFC 3261). */
module Unacknowledged {
  import opened Options
  import opened Sequences
  import opened UserAgents
  import opened Dialogs
  import opened Duplicates
  import opened SingleFinal
  import opened Retransmission

  // ---- What a run does about one response ----

  /** When a response was sent, answers from the cache not counted. */
  function SentTimes(log: seq<Mark>, r: Response): seq<real>
    decreases |log|
  {
    if log == [] then []
    else
      var m := log[|log| - 1];
      SentTimes(log[..|log| - 1], r) + if m.Sent? && m.response == r then [m.at] else []
  }

  lemma TimesSnoc(log: seq<Mark>, m: Mark, r: Response)
    ensures SentTimes(log + [m], r) == SentTimes(log, r) + if m.Sent? && m.response == r then [m.at] else []
  {
    assert (log + [m])[..|log|] == log;
  }

  lemma QuietTimes(log: seq<Mark>, m: Mark, r: Response)
    requires m.Sent? ==> m.response != r
    ensures SentTimes(log + [m], r) == SentTimes(log, r)
  {
    hide SentTimes;
    TimesSnoc(log, m, r);
    assert SentTimes(log, r) + [] == SentTimes(log, r);
  }

  lemma RespondTimes(w: Wire, s: Response, now: real, r: Response)
    requires s != r
    ensures SentTimes(Respond(w, s, now).log, r) == SentTimes(w.log, r)
  {
    hide SentTimes;
    QuietTimes(w.log, Sent(s, now), r);
  }

  /** The retransmission timer of call i fires when it is due. */
  predicate Expires(a: Account, i: nat, e: Timed) {
    && e.event == TimerFires(i) && i < |a.objs|
    && a.objs[i].timer.Some? && e.at >= a.objs[i].timer.value
  }

  /** When it does, in a run. */
  function Fires(a: Account, i: nat, events: seq<Timed>): seq<real>
    requires Keeps(a)
    decreases |events|
  {
    if events == [] then []
    else
      var e := events[0];
      StepKeeps(a, e.event, e.at);
      KeepsIndexed(a);
      (if Expires(a, i, e) then [e.at] else []) + Fires(Step(a, e.event, e.at), i, events[1..])
  }

  /** No ACK, BYE or re-INVITE for the call, unless it repeats a request already answered, and no hang-up from here. */
  predicate Spared(a: Account, i: nat, e: Timed) {
    && i < |a.objs|
    && match e.event
       case Arrives(req, _) =>
         req.callId == a.objs[i].id && (req.verb == Invite || req.verb == Ack || req.verb == Bye) ==>
           Absorbed(a, req, e.at)
       case HangUp(j, _) => j != i
       case _ => true
  }

  predicate AllSpared(a: Account, i: nat, events: seq<Timed>)
    requires Keeps(a)
    decreases |events|
  {
    events == [] ||
    (var e := events[0];
     StepKeeps(a, e.event, e.at);
     KeepsIndexed(a);
     Spared(a, i, e) && AllSpared(Step(a, e.event, e.at), i, events[1..]))
  }

  /** Nothing happens before a timer of call i that is due has fired. */
  predicate OnTime(a: Account, i: nat, events: seq<Timed>)
    requires Keeps(a)
    decreases |events|
  {
    events == [] ||
    (var e := events[0];
     StepKeeps(a, e.event, e.at);
     KeepsIndexed(a);
     && (i < |a.objs| && a.objs[i].timer.Some? ==> e.at <= a.objs[i].timer.value)
     && OnTime(Step(a, e.event, e.at), i, events[1..]))
  }

  // ---- One step ----

  /** Nothing that matters to the retransmission has changed. */
  predicate Alike(c: Call, later: Call) {
    && later.id == c.id && later.phase == c.phase && later.timer == c.timer && later.interval == c.interval
    && later.deadline == c.deadline && later.acked == c.acked && later.lastFinal == c.lastFinal
  }

  /** r is a response of call i, and of no other live call. */
  predicate Alone(a: Account, i: nat, r: Response) {
    && i < |a.objs| && r.code == 200 && r.to.verb == Invite && r.to.callId == a.objs[i].id
    && forall j :: 0 <= j < |a.objs| && j != i ==> Stranger(a.objs[j], r)
  }

  predicate Stranger(c: Call, r: Response) {
    c.id == r.to.callId && c.phase != Terminated ==> c.invite.None?
  }

  /** The call still waits for the ACK of r, or has ended. */
  predicate Stage(c: Call, r: Response) {
    c.phase == Terminated || (AwaitsAck(c) && c.lastFinal == Some(r))
  }

  lemma StrangerSilent(c: Call, w: Wire, e: Event, now: real, udp: bool, r: Response)
    requires Sound(c) && Stranger(c, r) && !e.Arrives? && !e.Dial?
    ensures var side := OnCall(c, w, e, now, udp);
            SentTimes(side.wire.log, r) == SentTimes(w.log, r) && Stranger(side.call, r)
  {
    hide Respond, SentTimes;
    if c.phase != Terminated && c.invite.Some? {
      var to := c.invite.value;
      RespondTimes(w, Response(to, 180, 0), now, r);
      RespondTimes(w, Response(to, 200, c.version), now, r);
      RespondTimes(w, Response(to, 486, 0), now, r);
      if e.RejectIt? || e.HangUp? {
        RespondTimes(w, Response(to, e.code, 0), now, r);
      }
      if c.lastFinal.Some? && c.timer.Some? {
        RespondTimes(w, c.lastFinal.value, now, r);
      }
    }
  }

  lemma SelfQuiet(c: Call, w: Wire, e: Event, now: real, udp: bool, r: Response)
    requires Sound(c) && Stage(c, r) && !e.Arrives? && !e.Dial? && !e.HangUp?
    requires e.TimerFires? && c.timer.Some? ==> now < c.timer.value
    ensures var side := OnCall(c, w, e, now, udp); Alike(c, side.call) && side.wire == w
  {
    hide Respond;
  }

  lemma DispatchTimes(a: Account, req: Request, port: bool, now: real, r: Response)
    requires Indexed(a) && req.verb != Ack && req != r.to && r.code == 200
    ensures SentTimes(Dispatch(a, req, port, now).wire.log, r) == SentTimes(a.wire.log, r)
  {
    hide Respond, SentTimes, LaterCall, Reject;
    if req.verb != Invite {
      ForeignTimes(a, req, port, now, r);
    } else if req.callId in a.calls {
      var c := a.objs[a.calls[req.callId]];
      RespondTimes(a.wire, Response(req, 491, 0), now, r);
      RespondTimes(a.wire, Response(req, 200, c.version), now, r);
      RespondTimes(a.wire, Response(req, 200, c.version + 1), now, r);
    } else {
      var w := Respond(a.wire, Response(req, 100, 0), now);
      RespondTimes(a.wire, Response(req, 488, 0), now, r);
      RespondTimes(a.wire, Response(req, 100, 0), now, r);
      RespondTimes(w, Response(req, 488, 0), now, r);
      RespondTimes(w, Response(req, 503, 0), now, r);
      var c := Call(req.callId, true, New, Some(req), None, false, None, T1, 0.0, true, None, None, false, false, 0);
      RejectTimes(c, w, 480, now, a.udp, r);
    }
  }

  lemma RejectTimes(c: Call, w: Wire, code: FinalCode, now: real, udp: bool, r: Response)
    requires r.code == 200
    ensures SentTimes(Reject(c, w, code, now, udp).wire.log, r) == SentTimes(w.log, r)
  {
    hide Respond, SentTimes;
    if c.invite.Some? {
      RespondTimes(w, Response(c.invite.value, code, 0), now, r);
    }
  }

  lemma ForeignTimes(a: Account, req: Request, port: bool, now: real, r: Response)
    requires Indexed(a) && req.verb != Ack && req.verb != Invite && req != r.to && r.code == 200
    ensures SentTimes(Dispatch(a, req, port, now).wire.log, r) == SentTimes(a.wire.log, r)
  {
    hide Respond, SentTimes, FirstResponse, Dispatch;
    FirstIsFinal(a, req);
    DispatchWire(a, req, port, now);
    var first := FirstResponse(a, req);
    RespondTimes(a.wire, first, now, r);
    if req.callId in a.calls && a.objs[a.calls[req.callId]].invite.Some? {
      RespondTimes(Respond(a.wire, first, now), Response(a.objs[a.calls[req.callId]].invite.value, 487, 0), now, r);
    }
  }

  /** What any request leaves of call i and the strangers. */
  predicate Undisturbed(a: Account, b: Account, i: nat, r: Response) {
    Alone(b, i, r) && i < |a.objs| && Alike(a.objs[i], b.objs[i])
  }

  lemma SameCallsUndisturbed(a: Account, b: Account, i: nat, r: Response)
    requires Alone(a, i, r) && b.objs == a.objs
    ensures Undisturbed(a, b, i, r)
  {
  }

  lemma ChangeUndisturbed(a: Account, b: Account, i: nat, j: nat, later: Call, r: Response)
    requires Alone(a, i, r) && j < |a.objs| && b.objs == a.objs[j := later]
    requires if j == i then Alike(a.objs[i], later) else Stranger(later, r)
    ensures Undisturbed(a, b, i, r)
  {
    hide Stranger;
  }

  lemma JoinUndisturbed(a: Account, b: Account, i: nat, c: Call, r: Response)
    requires Alone(a, i, r) && b.objs == a.objs + [c] && Stranger(c, r)
    ensures Undisturbed(a, b, i, r)
  {
    hide Stranger;
  }

  lemma OtherCall(a: Account, i: nat, id: Name)
    requires Keeps(a) && i < |a.objs| && id in a.calls && id != a.objs[i].id
    ensures a.calls[id] < |a.objs| && a.calls[id] != i && a.objs[a.calls[id]].id == id
  {
  }

  /** An INVITE or an ACK for another call. */
  lemma OtherDialog(a: Account, i: nat, req: Request, port: bool, now: real, r: Response)
    requires Keeps(a) && Alone(a, i, r) && (req.verb == Invite || req.verb == Ack) && req.callId != a.objs[i].id
    ensures Indexed(a) && Undisturbed(a, Dispatch(a, req, port, now), i, r)
  {
    hide Respond, Keeps, Undisturbed, Alone, Alike, Reject;
    KeepsIndexed(a);
    var b := Dispatch(a, req, port, now);
    OwnId(a, i, r);
    if req.callId in a.calls {
      OtherCall(a, i, req.callId);
      ChangeUndisturbed(a, b, i, a.calls[req.callId], b.objs[a.calls[req.callId]], r);
    } else if |b.objs| > |a.objs| {
      RejectId(Call(req.callId, true, New, Some(req), None, false, None, T1, 0.0, true, None, None, false, false, 0),
               Respond(a.wire, Response(req, 100, 0), now), 480, now, a.udp);
      JoinUndisturbed(a, b, i, b.objs[|a.objs|], r);
    } else {
      SameCallsUndisturbed(a, b, i, r);
    }
  }

  lemma OwnId(a: Account, i: nat, r: Response)
    requires Alone(a, i, r)
    ensures i < |a.objs| && r.to.callId == a.objs[i].id
  {
  }

  lemma RejectId(c: Call, w: Wire, code: FinalCode, now: real, udp: bool)
    ensures Reject(c, w, code, now, udp).call.id == c.id
  {
    hide Respond;
  }

  /** Any other request. */
  lemma OtherRequest(a: Account, i: nat, req: Request, port: bool, now: real, r: Response)
    requires Keeps(a) && Alone(a, i, r) && Stage(a.objs[i], r) && req.verb != Invite && req.verb != Ack
    requires req.verb == Bye ==> req.callId != a.objs[i].id
    ensures Indexed(a) && Undisturbed(a, Dispatch(a, req, port, now), i, r)
  {
    hide Respond, Keeps, Undisturbed, Alike, Dispatch, LaterCall, Stranger, Stage;
    KeepsIndexed(a);
    var b := Dispatch(a, req, port, now);
    DispatchCalls(a, req, port, now);
    if req.callId in a.calls {
      KnownSound(a, req.callId);
      var j := a.calls[req.callId];
      LaterStranger(a.objs[j], req, r);
      ChangeUndisturbed(a, b, i, j, LaterCall(a.objs[j], req), r);
    } else {
      SameCallsUndisturbed(a, b, i, r);
    }
  }

  lemma LaterStranger(c: Call, req: Request, r: Response)
    ensures Stranger(c, r) ==> Stranger(LaterCall(c, req), r)
    ensures Stage(c, r) && c.phase != Terminated && req.verb != Bye ==> Alike(c, LaterCall(c, req))
  {
  }

  lemma ArrivesQuiet(a: Account, i: nat, req: Request, port: bool, now: real, r: Response)
    requires Keeps(a) && Alone(a, i, r) && Stage(a.objs[i], r) && Spared(a, i, Timed(Arrives(req, port), now))
    ensures Indexed(a)
    ensures var b := Receive(a, req, port, now);
            Undisturbed(a, b, i, r) && SentTimes(b.wire.log, r) == SentTimes(a.wire.log, r)
  {
    hide Keeps, Undisturbed, Stranger, Stage, Dispatch, SentTimes, Purge, Absorbed;
    KeepsIndexed(a);
    var p := Swept(a, now);
    QuietKeeps(a, p);
    if Absorbed(a, req, now) {
      SameCallsUndisturbed(a, Receive(a, req, port, now), i, r);
      HitTimes(a, req, port, now, r);
    } else if req.verb == Ack {
      OtherDialog(p, i, req, port, now, r);
      SameUndisturbed(a, p, Dispatch(p, req, port, now), i, r);
      AckSilent(p, req, port, now);
    } else {
      var q := Marked(p, Handled(req.Txn(), now));
      QuietKeeps(a, q);
      KeepsIndexed(q);
      QuietTimes(a.wire.log, Handled(req.Txn(), now), r);
      DispatchTimes(q, req, port, now, r);
      if req.verb == Invite {
        OtherDialog(q, i, req, port, now, r);
      } else {
        OtherRequest(q, i, req, port, now, r);
      }
      SameUndisturbed(a, q, Dispatch(q, req, port, now), i, r);
    }
  }

  lemma SameUndisturbed(a: Account, q: Account, b: Account, i: nat, r: Response)
    requires a.objs == q.objs && Undisturbed(q, b, i, r)
    ensures Undisturbed(a, b, i, r)
  {
  }

  lemma HitTimes(a: Account, req: Request, port: bool, now: real, r: Response)
    requires Indexed(a) && Absorbed(a, req, now)
    ensures SentTimes(Receive(a, req, port, now).wire.log, r) == SentTimes(a.wire.log, r)
  {
    hide Dispatch, SentTimes;
    QuietTimes(a.wire.log, Replayed(Swept(a, now).wire.cache[req.Txn()].response), r);
  }

  lemma AckSilent(a: Account, req: Request, port: bool, now: real)
    requires Indexed(a) && req.verb == Ack
    ensures Dispatch(a, req, port, now).wire == a.wire
  {
  }

  /** Every step but the firing of the call's own timer. */
  lemma QuietStep(a: Account, i: nat, e: Timed, r: Response)
    requires Keeps(a) && Alone(a, i, r) && Stage(a.objs[i], r) && Spared(a, i, e) && !Expires(a, i, e)
    ensures Indexed(a)
    ensures var b := Step(a, e.event, e.at);
            Undisturbed(a, b, i, r) && SentTimes(b.wire.log, r) == SentTimes(a.wire.log, r)
  {
    hide Keeps, Undisturbed, Stranger, Stage, SentTimes, Receive, OnCall, Absorbed, Alike;
    KeepsIndexed(a);
    var b := Step(a, e.event, e.at);
    if e.event.Arrives? {
      ArrivesQuiet(a, i, e.event.req, e.event.port, e.at, r);
    } else if e.event.Dial? {
      if e.event.id in a.calls {
        SameCallsUndisturbed(a, b, i, r);
      } else {
        DialStranger(b.objs[|a.objs|], r);
        JoinUndisturbed(a, b, i, b.objs[|a.objs|], r);
      }
    } else if e.event.call >= |a.objs| {
      SameCallsUndisturbed(a, b, i, r);
    } else {
      var j := e.event.call;
      var side := OnCall(a.objs[j], a.wire, e.event, e.at, a.udp);
      SoundAt(a, j);
      if j == i {
        SelfQuiet(a.objs[i], a.wire, e.event, e.at, a.udp, r);
      } else {
        StrangerSilent(a.objs[j], a.wire, e.event, e.at, a.udp, r);
      }
      ChangeUndisturbed(a, b, i, j, side.call, r);
    }
  }

  lemma DialStranger(c: Call, r: Response)
    requires c.invite.None?
    ensures Stranger(c, r)
  {
  }

  lemma StageStays(c: Call, later: Call, r: Response)
    requires Stage(c, r) && Alike(c, later)
    ensures Stage(later, r) && (c.phase != Terminated ==> RetryOf(later) == RetryOf(c))
  {
  }

  /** The firing of the call's own timer. */
  lemma ExpiresStep(a: Account, i: nat, e: Timed, r: Response)
    requires Keeps(a) && Alone(a, i, r) && AwaitsAck(a.objs[i]) && a.objs[i].lastFinal == Some(r) && Expires(a, i, e)
    ensures Indexed(a)
    ensures var c := a.objs[i]; var b := Step(a, e.event, e.at);
            && Alone(b, i, r)
            && (e.at > c.deadline ==>
                b.objs[i].phase == Terminated && SentTimes(b.wire.log, r) == SentTimes(a.wire.log, r))
            && (e.at <= c.deadline ==>
                && AwaitsAck(b.objs[i]) && b.objs[i].lastFinal == Some(r)
                && RetryOf(b.objs[i]) == Next(RetryOf(c), T2, e.at)
                && SentTimes(b.wire.log, r) == SentTimes(a.wire.log, r) + [e.at])
  {
    hide Keeps, SentTimes, Fire, Stranger;
    KeepsIndexed(a);
    SoundAt(a, i);
    FireOnce(a.objs[i], a.wire, e.at, a.udp);
    TimesSnoc(a.wire.log, Sent(r, e.at), r);
    FireId(a.objs[i], a.wire, e.at, a.udp);
  }

  lemma FireId(c: Call, w: Wire, now: real, udp: bool)
    ensures Fire(c, w, now, udp).call.id == c.id
  {
    hide Respond;
  }

  // ---- Runs ----

  lemma FiresCons(a: Account, i: nat, events: seq<Timed>)
    requires Keeps(a) && events != []
    ensures Indexed(a) && Keeps(Step(a, events[0].event, events[0].at))
    ensures var e := events[0];
            Fires(a, i, events) == (if Expires(a, i, e) then [e.at] else [])
                                   + Fires(Step(a, e.event, e.at), i, events[1..])
  {
    hide Step, Keeps, Expires;
    StepKeeps(a, events[0].event, events[0].at);
    KeepsIndexed(a);
  }

  /** Once the call has ended nothing more is sent. */
  lemma {:induction false} RunEnded(a: Account, i: nat, events: seq<Timed>, r: Response)
    requires Keeps(a) && Alone(a, i, r) && a.objs[i].phase == Terminated && AllSpared(a, i, events)
    ensures var b := Run(a, events);
            && i < |b.objs| && b.objs[i].phase == Terminated && SentTimes(b.wire.log, r) == SentTimes(a.wire.log, r)
    ensures Fires(a, i, events) == []
    decreases |events|
  {
    hide Step, Keeps, Spared, SentTimes, Stranger;
    if events != [] {
      var e := events[0];
      FiresCons(a, i, events);
      SoundAt(a, i);
      QuietStep(a, i, e, r);
      RunEnded(Step(a, e.event, e.at), i, events[1..], r);
    }
  }

  /** The 200 goes out when the timer of the call fires before the deadline, and at no other time; the call ends when it
      fires past it. */
  lemma {:induction false} RunSends(a: Account, i: nat, events: seq<Timed>, r: Response)
    requires Keeps(a) && Alone(a, i, r) && AwaitsAck(a.objs[i]) && a.objs[i].lastFinal == Some(r)
    requires AllSpared(a, i, events)
    ensures var b, fires, retry := Run(a, events), Fires(a, i, events), RetryOf(a.objs[i]);
            && SentTimes(b.wire.log, r) == SentTimes(a.wire.log, r) + Sends(retry, T2, fires)
            && Timely(retry, T2, fires) && i < |b.objs|
            && (b.objs[i].phase == Terminated <==> fires != [] && fires[|fires| - 1] > retry.deadline)
    decreases |events|
  {
    hide Step, Keeps, Spared, SentTimes, Stranger, Fires, Expires, Alike;
    if events == [] {
      NoFires(a, i);
      assert SentTimes(a.wire.log, r) + [] == SentTimes(a.wire.log, r);
    } else {
      var e, retry := events[0], RetryOf(a.objs[i]);
      FiresCons(a, i, events);
      var b := Step(a, e.event, e.at);
      var rest := Fires(b, i, events[1..]);
      if !Expires(a, i, e) {
        QuietStep(a, i, e, r);
        StageStays(a.objs[i], b.objs[i], r);
        assert b.objs[i].phase == Connected by {
          AlikePhase(a.objs[i], b.objs[i]);
        }
        RunSends(b, i, events[1..], r);
        assert [] + rest == rest;
      } else {
        ExpiresStep(a, i, e, r);
        DueBy(a, i, e);
        assert ([e.at] + rest)[1..] == rest;
        if e.at > retry.deadline {
          RunEnded(b, i, events[1..], r);
          assert SentTimes(a.wire.log, r) + [] == SentTimes(a.wire.log, r);
        } else {
          RunSends(b, i, events[1..], r);
          Regroup(SentTimes(a.wire.log, r), [e.at], Sends(Next(retry, T2, e.at), T2, rest));
        }
      }
    }
  }

  lemma NoFires(a: Account, i: nat)
    requires Keeps(a)
    ensures Fires(a, i, []) == []
  {
  }

  lemma AlikePhase(c: Call, later: Call)
    requires Alike(c, later)
    ensures later.phase == c.phase
  {
  }

  lemma DueBy(a: Account, i: nat, e: Timed)
    requires Expires(a, i, e)
    ensures i < |a.objs| && a.objs[i].timer.Some? && e.at >= a.objs[i].timer.value
  {
  }

  /** With its timer on time the call ends on schedule. */
  lemma {:induction false} RunOnTime(a: Account, i: nat, events: seq<Timed>, r: Response, from: real)
    requires Keeps(a) && Alone(a, i, r) && AwaitsAck(a.objs[i]) && a.objs[i].lastFinal == Some(r)
    requires AllSpared(a, i, events) && OnTime(a, i, events) && Ordered(events, from)
    requires var retry := RetryOf(a.objs[i]);
             0.0 < retry.interval <= T2 && from <= retry.due <= retry.deadline + T2
    ensures var retry := RetryOf(a.objs[i]);
            || Exact(retry, T2, Fires(a, i, events))
            || (End(events, from) <= retry.deadline + T2
                && i < |Run(a, events).objs| && Run(a, events).objs[i].phase != Terminated)
    decreases |events|
  {
    hide Step, Keeps, Spared, SentTimes, Stranger, Fires, Expires, Alike;
    if events != [] {
      var e, retry := events[0], RetryOf(a.objs[i]);
      FiresCons(a, i, events);
      EndTail(events, from);
      var b := Step(a, e.event, e.at);
      var rest := Fires(b, i, events[1..]);
      if !Expires(a, i, e) {
        QuietStep(a, i, e, r);
        StageStays(a.objs[i], b.objs[i], r);
        assert b.objs[i].phase == Connected by {
          AlikePhase(a.objs[i], b.objs[i]);
        }
        RunOnTime(b, i, events[1..], r, e.at);
        assert [] + rest == rest;
      } else {
        ExpiresStep(a, i, e, r);
        DueBy(a, i, e);
        assert ([e.at] + rest)[1..] == rest;
        if e.at > retry.deadline {
          RunEnded(b, i, events[1..], r);
        } else {
          RunOnTime(b, i, events[1..], r, e.at);
        }
      }
    }
  }

  // ---- The promise ----

  /** The call sent its 200 at `now`, which led from a to b, and then came the events: however late its timer, the 200
      goes out at most eleven times, on the schedule and not after the deadline; the call is hung up by the first timer
      past the deadline and by nothing else. With the timer on time it ends 35.5 s after the first 200, having sent
      eleven; and it has ended when a run has come further than T2 past the deadline. */
  ghost predicate RunsOut(a: Account, b: Account, i: nat, r: Response, now: real, events: seq<Timed>)
    requires Keeps(b)
  {
    var c, fires := Run(b, events), Fires(b, i, events);
    var sends := Sends(Begin(now, T1, TIMER_B), T2, fires);
    && SentTimes(c.wire.log, r) == SentTimes(a.wire.log, r) + ([now] + sends)
    && 1 + |sends| <= 11
    && (forall k :: 0 <= k < |sends| ==> now + Elapsed(T1, T2, k + 1) <= sends[k] <= now + TIMER_B)
    && i < |c.objs|
    && (c.objs[i].phase == Terminated <==> fires != [] && fires[|fires| - 1] > now + TIMER_B)
    && (OnTime(b, i, events) ==>
        && (c.objs[i].phase == Terminated ==> 1 + |sends| == 11 && fires[|fires| - 1] == now + 35.5)
        && (End(events, now) > now + TIMER_B + T2 ==> c.objs[i].phase == Terminated))
  }

  /** The call has just sent r. */
  predicate Began(a: Account, b: Account, i: nat, r: Response, now: real) {
    && Alone(b, i, r) && AwaitsAck(b.objs[i]) && b.objs[i].lastFinal == Some(r)
    && RetryOf(b.objs[i]) == Begin(now, T1, TIMER_B)
    && SentTimes(b.wire.log, r) == SentTimes(a.wire.log, r) + [now]
  }

  lemma BeganRunsOut(a: Account, b: Account, i: nat, r: Response, now: real, events: seq<Timed>)
    requires Keeps(b) && Began(a, b, i, r, now) && AllSpared(b, i, events) && Ordered(events, now)
    ensures RunsOut(a, b, i, r, now, events)
  {
    hide Keeps, Alone, AllSpared, Fires, Sends, Timely, Exact, Elapsed, Count, OnTime, SentTimes, Reaches, Doubled, End;
    var begin, fires := Begin(now, T1, TIMER_B), Fires(b, i, events);
    RunSends(b, i, events, r);
    RetransmissionBound(now, T1, T2, TIMER_B, fires);
    DefaultCount();
    Regroup(SentTimes(a.wire.log, r), [now], Sends(begin, T2, fires));
    if OnTime(b, i, events) {
      RunOnTime(b, i, events, r, now);
      if Exact(begin, T2, fires) {
        DefaultSchedule(now, fires);
        ExactFires(begin, T2, fires);
      }
    }
  }

  lemma OneLive(a: Account, i: nat, j: nat)
    requires Keeps(a) && i < |a.objs| && j < |a.objs| && i != j && a.objs[i].phase != Terminated
    ensures a.objs[j].id == a.objs[i].id ==> a.objs[j].phase == Terminated
  {
    if a.objs[j].phase != Terminated {
      assert a.calls[a.objs[j].id] == j && a.calls[a.objs[i].id] == i;
    }
  }

  lemma AloneWhenLive(a: Account, i: nat, r: Response)
    requires Keeps(a) && i < |a.objs| && a.objs[i].phase != Terminated
    requires r.code == 200 && r.to.verb == Invite && r.to.callId == a.objs[i].id
    ensures Alone(a, i, r)
  {
    forall j | 0 <= j < |a.objs| && j != i ensures Stranger(a.objs[j], r) {
      OneLive(a, i, j);
    }
  }

  /** An answered call, from any state a run can reach and in any continuation in which it gets no ACK, BYE or
      re-INVITE and is not hung up from here, whatever becomes of all other calls and requests. */
  lemma AnswerRunsOut(a: Account, i: nat, now: real, events: seq<Timed>)
    requires Keeps(a) && a.udp && i < |a.objs| && Answerable(a.objs[i])
    ensures Indexed(a) && Keeps(Step(a, AnswerIt(i), now))
    ensures var b := Step(a, AnswerIt(i), now);
            AllSpared(b, i, events) && Ordered(events, now) ==>
              RunsOut(a, b, i, Response(a.objs[i].invite.value, 200, a.objs[i].version), now, events)
  {
    hide Keeps, RunsOut, AllSpared, Alone, SentTimes;
    KeepsIndexed(a);
    StepKeeps(a, AnswerIt(i), now);
    SoundAt(a, i);
    var b, r := Step(a, AnswerIt(i), now), Response(a.objs[i].invite.value, 200, a.objs[i].version);
    TimesSnoc(a.wire.log, Sent(r, now), r);
    AloneWhenLive(b, i, r);
    if AllSpared(b, i, events) && Ordered(events, now) {
      BeganRunsOut(a, b, i, r, now, events);
    }
  }

  /** The same for a re-INVITE that is accepted. */
  lemma ReinviteRunsOut(a: Account, req: Request, port: bool, now: real, events: seq<Timed>)
    requires Keeps(a) && a.udp && req.verb == Invite && !Absorbed(a, req, now) && req.callId in a.calls
    requires Indexed(a) && var c := a.objs[a.calls[req.callId]]; c.phase == Connected && !c.pending
    ensures Keeps(Step(a, Arrives(req, port), now))
    ensures var i, b := a.calls[req.callId], Step(a, Arrives(req, port), now);
            AllSpared(b, i, events) && Ordered(events, now) ==>
              RunsOut(a, b, i, FirstResponse(a, req), now, events)
  {
    hide Keeps, RunsOut, AllSpared, Alone, SentTimes, Absorbed, Purge;
    StepKeeps(a, Arrives(req, port), now);
    KnownSound(a, req.callId);
    var i, b, r := a.calls[req.callId], Step(a, Arrives(req, port), now), FirstResponse(a, req);
    var q := Marked(Swept(a, now), Handled(req.Txn(), now));
    QuietTimes(a.wire.log, Handled(req.Txn(), now), r);
    TimesSnoc(q.wire.log, Sent(r, now), r);
    AloneWhenLive(b, i, r);
    if AllSpared(b, i, events) && Ordered(events, now) {
      BeganRunsOut(a, b, i, r, now, events);
    }
  }
}
