/** Every step of the user agent once more, observed from a call: when it ends and with which code, what state it is
    in, and which session version it has told its peer (sipgram/sip/account.py:158-386, 762-932). */
module CallsAfter {
  import opened Options
  import opened UserAgents
  import opened Dialogs
  import opened SingleFinal

  /** A request for the call that is handled, not answered from the cache. */
  predicate Gets(a: Account, e: Event, now: real, i: nat, verb: Verb)
    requires i < |a.objs|
  {
    && e.Arrives? && e.req.verb == verb && e.req.callId == a.objs[i].id && a.objs[i].phase != Terminated
    && !Absorbed(a, e.req, now)
  }

  /** The deadline for the ACK of its 200 has passed when the timer fires. */
  predicate GivesUp(c: Call, now: real) {
    && c.timer.Some? && c.timer.value <= now && !c.acked && c.deadline < now
    && c.lastFinal.Some? && c.lastFinal.value.code == 200
  }

  function CodeOf(e: Event): nat
    requires e.RejectIt? || e.HangUp? || e.Fail?
  {
    e.code
  }

  /** The code with which a step ends the call: as it is rejected; 487 when its caller cancels it or we cancel one that
      has not been answered; the code of a failure; and 0 when either side hangs up. */
  function Ends(a: Account, e: Event, now: real, i: nat): Option<nat>
    requires i < |a.objs|
  {
    var c := a.objs[i];
    if c.phase == Terminated then None
    else if Gets(a, e, now, i, Cancel) && Open(c) then Some(487)
    else if Gets(a, e, now, i, Bye) then Some(0)
    else if e.RejectIt? && e.call == i && Open(c) then Some(CodeOf(e))
    else if e.HangUp? && e.call == i then
      if Open(c) then Some(CodeOf(e)) else if !c.incoming && c.phase != Connected then Some(487) else Some(0)
    else if e == TimerFires(i) && GivesUp(c, now) then Some(0)
    else if e.Fail? && e.call == i && !c.incoming && c.phase != Connected then Some(CodeOf(e))
    else None
  }

  function PhaseAfter(a: Account, e: Event, now: real, i: nat): Phase
    requires i < |a.objs|
  {
    var c := a.objs[i];
    if Ends(a, e, now, i).Some? then Terminated
    else if e == RingIt(i) && Open(c) then Ringing
    else if e == AnswerIt(i) && Open(c) then Connected
    else if e.Progress? && e.call == i && !c.incoming && c.phase != Connected && c.phase != Terminated
            && e.phase != New && e.phase != Terminated then e.phase
    else c.phase
  }

  /** A hold of our own is under way from when it is begun on a connected call until it is over. */
  function PendingAfter(a: Account, e: Event, i: nat): bool
    requires i < |a.objs|
  {
    var c := a.objs[i];
    if e.Hold? && e.call == i then e.pending && (c.pending || c.phase == Connected) else c.pending
  }

  /** Each description that changes the session is one version on: an accepted re-INVITE or UPDATE with an offer, or a
      hold of our own. */
  function VersionAfter(a: Account, e: Event, now: real, i: nat): nat
    requires i < |a.objs|
  {
    var c := a.objs[i];
    var offered := Gets(a, e, now, i, Invite) && e.req.body != Empty && c.phase == Connected && !c.pending;
    var updated := Gets(a, e, now, i, Update) && e.req.body != Empty;
    var holds := e.Hold? && e.call == i && e.pending && c.phase == Connected && !c.pending;
    if offered || updated || holds then c.version + 1 else c.version
  }

  predicate Seen(a: Account, e: Event, now: real, i: nat, c: Call)
    requires i < |a.objs|
  {
    && c.phase == PhaseAfter(a, e, now, i)
    && c.ended == (if Ends(a, e, now, i).Some? then Ends(a, e, now, i) else a.objs[i].ended)
    && c.pending == PendingAfter(a, e, i) && c.version == VersionAfter(a, e, now, i)
    && c.incoming == a.objs[i].incoming && c.id == a.objs[i].id
  }

  // ---- Events at the call ----

  lemma AnswerSeen(a: Account, e: Event, now: real, i: nat)
    requires i < |a.objs| && Sound(a.objs[i]) && (e == RingIt(i) || e == AnswerIt(i))
    ensures Seen(a, e, now, i, OnCall(a.objs[i], a.wire, e, now, a.udp).call)
  {
    hide Respond;
  }

  lemma EndSeen(a: Account, e: Event, now: real, i: nat)
    requires i < |a.objs| && Sound(a.objs[i]) && (e.RejectIt? || e.HangUp?) && e.call == i
    ensures Seen(a, e, now, i, OnCall(a.objs[i], a.wire, e, now, a.udp).call)
  {
    hide Respond;
  }

  lemma TimerSeen(a: Account, e: Event, now: real, i: nat)
    requires i < |a.objs| && Sound(a.objs[i]) && e == TimerFires(i)
    ensures Seen(a, e, now, i, OnCall(a.objs[i], a.wire, e, now, a.udp).call)
  {
    hide Respond;
  }

  lemma ProgressSeen(a: Account, e: Event, now: real, i: nat)
    requires i < |a.objs| && Sound(a.objs[i]) && (e.Progress? || e.Fail? || e.Hold?) && e.call == i
    ensures Seen(a, e, now, i, OnCall(a.objs[i], a.wire, e, now, a.udp).call)
  {
  }

  lemma OnCallSeen(a: Account, e: Event, now: real, i: nat)
    requires i < |a.objs| && Sound(a.objs[i]) && !e.Arrives? && !e.Dial? && e.call == i
    ensures Seen(a, e, now, i, OnCall(a.objs[i], a.wire, e, now, a.udp).call)
  {
    hide Seen, OnCall, Sound;
    if e.RingIt? || e.AnswerIt? {
      AnswerSeen(a, e, now, i);
    } else if e.RejectIt? || e.HangUp? {
      EndSeen(a, e, now, i);
    } else if e.TimerFires? {
      TimerSeen(a, e, now, i);
    } else {
      ProgressSeen(a, e, now, i);
    }
  }

  lemma Elsewhere(a: Account, e: Event, now: real, i: nat)
    requires i < |a.objs| && Sound(a.objs[i])
    requires if e.Arrives? then e.req.callId != a.objs[i].id || Absorbed(a, e.req, now) || a.objs[i].phase == Terminated
             else e.Dial? || e.call != i
    ensures Seen(a, e, now, i, a.objs[i])
  {
    hide Absorbed;
  }

  lemma DialogSeen(a: Account, req: Request, port: bool, now: real, i: nat)
    requires i < |a.objs| && Sound(a.objs[i]) && a.objs[i].phase != Terminated && req.callId == a.objs[i].id
    requires !Absorbed(a, req, now)
    ensures var e := Arrives(req, port); var c := a.objs[i];
            && (req.verb == Invite ==> Seen(a, e, now, i, Reinvite(c, a.wire, req, now, a.udp).call))
            && (req.verb == Ack ==> Seen(a, e, now, i, Acked(c)))
  {
    hide Respond, Absorbed;
  }

  lemma OtherSeen(a: Account, req: Request, port: bool, now: real, i: nat)
    requires i < |a.objs| && Sound(a.objs[i]) && a.objs[i].phase != Terminated && req.callId == a.objs[i].id
    requires !Absorbed(a, req, now) && req.verb != Invite && req.verb != Ack
    ensures Seen(a, Arrives(req, port), now, i, LaterCall(a.objs[i], req))
  {
    hide Respond, Absorbed;
  }

  // ---- Requests ----

  lemma SwappedObjs(a: Account, m: nat, side: Side, i: nat)
    requires m < |a.objs| && i < |a.objs|
    ensures Put(a, m, side).objs[i] == if i == m then side.call else a.objs[i]
  {
  }

  /** What a request that is taken up does to call i: it is about that call, or about another. */
  lemma DispatchTo(a: Account, req: Request, port: bool, now: real, i: nat)
    requires Keeps(a) && i < |a.objs|
    ensures Indexed(a) && |a.objs| <= |Dispatch(a, req, port, now).objs|
    ensures var c := a.objs[i]; var later := Dispatch(a, req, port, now).objs[i];
            if req.callId != c.id || c.phase == Terminated then later == c
            else if req.verb == Invite then later == Reinvite(c, a.wire, req, now, a.udp).call
            else if req.verb == Ack then later == Acked(c)
            else later == LaterCall(c, req)
  {
    hide Keeps, Respond, Reinvite, Acked, LaterCall, Terminate, Reject, Dispatch, Put;
    KeepsIndexed(a);
    Belongs(a, req.callId, i);
    if req.verb != Invite && req.verb != Ack {
      DispatchCalls(a, req, port, now);
    } else {
      DialogTo(a, req, port, now, i);
    }
  }

  lemma Belongs(a: Account, id: Name, i: nat)
    requires Keeps(a) && i < |a.objs|
    ensures id in a.calls ==> a.calls[id] < |a.objs|
    ensures id in a.calls && a.calls[id] == i <==> id == a.objs[i].id && a.objs[i].phase != Terminated
  {
  }

  lemma DialogTo(a: Account, req: Request, port: bool, now: real, i: nat)
    requires Indexed(a) && i < |a.objs| && (req.verb == Invite || req.verb == Ack)
    ensures var b := Dispatch(a, req, port, now);
            && |a.objs| <= |b.objs|
            && b.objs[i] == if req.callId !in a.calls || a.calls[req.callId] != i then a.objs[i]
                            else if req.verb == Invite then Reinvite(a.objs[i], a.wire, req, now, a.udp).call
                            else Acked(a.objs[i])
  {
    hide Respond, Reinvite, Acked, Reject;
  }

  lemma SameCall(c: Call, w: Wire, v: Wire, req: Request, now: real, udp: bool)
    ensures Reinvite(c, w, req, now, udp).call == Reinvite(c, v, req, now, udp).call
  {
    hide Respond;
  }

  lemma ArrivesSeen(a: Account, req: Request, port: bool, now: real, i: nat)
    requires Keeps(a) && i < |a.objs|
    ensures Indexed(a) && i < |Receive(a, req, port, now).objs|
    ensures Seen(a, Arrives(req, port), now, i, Receive(a, req, port, now).objs[i])
  {
    hide Keeps, Dispatch, Seen, Reinvite, Acked, LaterCall, Absorbed, Purge;
    KeepsIndexed(a);
    SoundAt(a, i);
    var c := a.objs[i];
    if Absorbed(a, req, now) {
      Elsewhere(a, Arrives(req, port), now, i);
    } else {
      var p := Swept(a, now);
      var q := if req.verb == Ack then p else Marked(p, Handled(req.Txn(), now));
      QuietKeeps(a, q);
      DispatchTo(q, req, port, now, i);
      SameCall(c, q.wire, a.wire, req, now, a.udp);
      if req.callId != c.id || c.phase == Terminated {
        Elsewhere(a, Arrives(req, port), now, i);
      } else if req.verb == Invite || req.verb == Ack {
        DialogSeen(a, req, port, now, i);
      } else {
        OtherSeen(a, req, port, now, i);
      }
    }
  }

  /** What any step makes of any call. */
  lemma CallAfter(a: Account, e: Event, now: real, i: nat)
    requires Keeps(a) && i < |a.objs|
    ensures Indexed(a) && i < |Step(a, e, now).objs| && Seen(a, e, now, i, Step(a, e, now).objs[i])
  {
    hide Keeps, Receive, OnCall, Seen, Put;
    KeepsIndexed(a);
    SoundAt(a, i);
    if e.Arrives? {
      ArrivesSeen(a, e.req, e.port, now, i);
    } else if e.Dial? || e.call != i {
      Elsewhere(a, e, now, i);
      if !e.Dial? && e.call < |a.objs| {
        SwappedObjs(a, e.call, OnCall(a.objs[e.call], a.wire, e, now, a.udp), i);
        PutSize(a, e.call, OnCall(a.objs[e.call], a.wire, e, now, a.udp));
      }
    } else {
      OnCallSeen(a, e, now, i);
      SwappedObjs(a, i, OnCall(a.objs[i], a.wire, e, now, a.udp), i);
      PutSize(a, i, OnCall(a.objs[i], a.wire, e, now, a.udp));
    }
  }

  lemma PutSize(a: Account, m: nat, side: Side)
    requires m < |a.objs|
    ensures |Put(a, m, side).objs| == |a.objs|
  {
  }

  // ---- What is sent ----

  /** What an INVITE for a new dialog is answered at once, after the first response. */
  function Second(a: Account, req: Request, port: bool): seq<Response> {
    if req.verb == Invite && Peer(a, req).None? && req.body != Empty then
      if !port then [Response(req, 503, 0)]
      else if req.body != Offer(true) then [Response(req, 488, 0)]
      else if !a.hook then [Response(req, 480, 0)]
      else []
    else if req.verb == Cancel && Peer(a, req).Some? && Open(Peer(a, req).value) && Peer(a, req).value.invite.Some? then
      [Response(Peer(a, req).value.invite.value, 487, 0)]
    else []
  }

  /** The responses that an event sends: 180 and the session's version for a ringing and an answered call, the code of a
      rejection, a copy of the 200 whose ACK is due, and for a request what it is met with. */
  function Says(a: Account, e: Event, now: real): seq<Response> {
    if e.Arrives? then
      if e.req.verb == Ack || Absorbed(a, e.req, now) then []
      else [FirstResponse(a, e.req)] + Second(a, e.req, e.port)
    else if e.Dial? || e.call >= |a.objs| then []
    else CallSays(a.objs[e.call], e, now)
  }

  function CallSays(c: Call, e: Event, now: real): seq<Response> {
    match e
    case RingIt(_) => if Open(c) && c.invite.Some? then [Response(c.invite.value, 180, 0)] else []
    case AnswerIt(_) => if Answerable(c) then [Response(c.invite.value, 200, c.version)] else []
    case RejectIt(_, code) => if Answerable(c) then [Response(c.invite.value, CodeOf(e), 0)] else []
    case HangUp(_, code) => if Open(c) && c.invite.Some? then [Response(c.invite.value, CodeOf(e), 0)] else []
    case TimerFires(_) =>
      if c.timer.Some? && c.timer.value <= now <= c.deadline && !c.acked && c.lastFinal.Some? && c.phase != Terminated
      then [c.lastFinal.value]
      else []
    case _ => []
  }

  function Marks(responses: seq<Response>, now: real): seq<Mark> {
    if responses == [] then [] else [Sent(responses[0], now)] + Marks(responses[1..], now)
  }

  lemma OneMark(r: Response, now: real)
    ensures Marks([r], now) == [Sent(r, now)]
  {
    assert [r][1..] == [];
  }

  lemma TwoMarks(r: Response, s: Response, now: real)
    ensures Marks([r] + [s], now) == [Sent(r, now)] + [Sent(s, now)]
  {
    hide Marks;
    OneMark(s, now);
    UnfoldMarks(r, [s], now);
  }

  lemma UnfoldMarks(r: Response, rest: seq<Response>, now: real)
    ensures Marks([r] + rest, now) == [Sent(r, now)] + Marks(rest, now)
  {
    assert ([r] + rest)[1..] == rest;
  }

  lemma NoMarks(w: Wire, now: real)
    ensures w.log + Marks([], now) == w.log
  {
  }

  lemma OnCallSays(c: Call, w: Wire, e: Event, now: real, udp: bool)
    requires !e.Arrives? && !e.Dial? && Sound(c)
    ensures OnCall(c, w, e, now, udp).wire.log == w.log + Marks(CallSays(c, e, now), now)
  {
    hide Marks;
    NoMarks(w, now);
    var says := CallSays(c, e, now);
    if says != [] {
      OneMark(says[0], now);
      assert says == [says[0]];
    }
  }

  lemma NewInviteSays(a: Account, req: Request, port: bool, now: real)
    requires req.verb == Invite && Peer(a, req).None?
    ensures NewInvite(a, req, port, now).wire.log
            == a.wire.log + Marks([FirstResponse(a, req)] + Second(a, req, port), now)
  {
    hide Marks;
    var first, second := FirstResponse(a, req), Second(a, req, port);
    if second == [] {
      OneMark(first, now);
      assert [first] + second == [first];
    } else {
      TwoMarks(first, second[0], now);
      assert second == [second[0]];
      assert (a.wire.log + [Sent(first, now)]) + [Sent(second[0], now)]
          == a.wire.log + ([Sent(first, now)] + [Sent(second[0], now)]);
    }
  }

  lemma DispatchSays(a: Account, req: Request, port: bool, now: real)
    requires Indexed(a) && req.verb != Ack
    ensures Dispatch(a, req, port, now).wire.log
            == a.wire.log + Marks([FirstResponse(a, req)] + Second(a, req, port), now)
  {
    hide Marks, Dispatch, LaterCall, FirstResponse, Second, NewInvite, Reinvite;
    var first, second := FirstResponse(a, req), Second(a, req, port);
    if req.verb == Invite {
      if req.callId in a.calls {
        ReinviteSays(a, req, port, now);
      } else {
        NewInviteSays(a, req, port, now);
        NewDialog(a, req, port, now);
      }
    } else {
      DispatchWire(a, req, port, now);
      SecondIs(a, req, port);
      if second == [] {
        OneMark(first, now);
        assert [first] + second == [first];
      } else {
        TwoMarks(first, second[0], now);
        assert second == [second[0]];
        assert (a.wire.log + [Sent(first, now)]) + [Sent(second[0], now)]
            == a.wire.log + ([Sent(first, now)] + [Sent(second[0], now)]);
      }
    }
  }

  lemma NewDialog(a: Account, req: Request, port: bool, now: real)
    requires Indexed(a) && req.verb == Invite && req.callId !in a.calls
    ensures Dispatch(a, req, port, now) == NewInvite(a, req, port, now)
  {
    hide NewInvite;
  }

  lemma ReinviteSays(a: Account, req: Request, port: bool, now: real)
    requires Indexed(a) && req.verb == Invite && req.callId in a.calls
    ensures Dispatch(a, req, port, now).wire.log
            == a.wire.log + Marks([FirstResponse(a, req)] + Second(a, req, port), now)
  {
    hide Marks;
    OneMark(FirstResponse(a, req), now);
    assert [FirstResponse(a, req)] + [] == [FirstResponse(a, req)];
  }

  lemma SecondIs(a: Account, req: Request, port: bool)
    requires Indexed(a) && req.verb != Invite
    ensures Second(a, req, port)
            == if req.verb == Cancel && req.callId in a.calls && Open(a.objs[a.calls[req.callId]])
                   && a.objs[a.calls[req.callId]].invite.Some?
               then [Response(a.objs[a.calls[req.callId]].invite.value, 487, 0)] else []
  {
  }

  /** What any step sends, over and above a copy from the cache: exactly these responses in this order. */
  lemma StepSays(a: Account, e: Event, now: real)
    requires Keeps(a)
    ensures Indexed(a)
    ensures var log := Step(a, e, now).wire.log;
            if e.Arrives? && Absorbed(a, e.req, now) then
              log == a.wire.log + [Replayed(a.wire.cache[e.req.Txn()].response)]
            else if e.Arrives? && e.req.verb != Ack then
              log == (a.wire.log + [Handled(e.req.Txn(), now)]) + Marks(Says(a, e, now), now)
            else log == a.wire.log + Marks(Says(a, e, now), now)
  {
    hide Keeps, Marks, OnCall, Dispatch, CallSays, Second, FirstResponse;
    KeepsIndexed(a);
    NoMarks(a.wire, now);
    if e.Arrives? {
      var p := Swept(a, now);
      if e.req.verb == Ack {
        AckSays(p, e.req, e.port, now);
      } else if !Absorbed(a, e.req, now) {
        var q := Marked(p, Handled(e.req.Txn(), now));
        DispatchSays(q, e.req, e.port, now);
        SameAnswers(a, q, e.req, e.port);
      }
    } else if !e.Dial? && e.call < |a.objs| {
      SoundAt(a, e.call);
      OnCallSays(a.objs[e.call], a.wire, e, now, a.udp);
    }
  }

  lemma AckSays(a: Account, req: Request, port: bool, now: real)
    requires Indexed(a) && req.verb == Ack
    ensures Dispatch(a, req, port, now).wire == a.wire
  {
  }

  lemma SameAnswers(a: Account, q: Account, req: Request, port: bool)
    requires q.objs == a.objs && q.calls == a.calls && q.hook == a.hook
    ensures FirstResponse(q, req) == FirstResponse(a, req) && Second(q, req, port) == Second(a, req, port)
  {
  }
}
