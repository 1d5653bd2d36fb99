/** The ways a server transaction gets two different final responses: an INVITE comes back more than 32 s after the last
    provisional response, while its call is still ringing, or a request whose CSeq header names another method is taken
    up on a transaction that has had, or has yet to get, its final response. */
module LateRepeats {
  import opened Options
  import opened UserAgents
  import opened Dialogs
  import opened Duplicates
  import opened SingleFinal

  // ---- A late repeat spoils the transaction ----

  /** An INVITE that the cache no longer answers, on the transaction of a call that is still ringing. */
  predicate LateRepeat(a: Account, req: Request, now: real) {
    && req.verb == Invite && req.cseqVerb == Invite
    && !Absorbed(a, req, now)
    && exists i :: 0 <= i < |a.objs| && OpenOn(a.objs[i], req.Txn())
  }

  predicate Spoiled(responses: seq<Response>) {
    exists i :: 0 <= i < |responses| - 1 && responses[i].code >= 200 && responses[i] != responses[i + 1]
  }

  lemma SpoiledIsNotSingle(responses: seq<Response>)
    requires Spoiled(responses)
    ensures !OneFinal(responses)
  {
  }

  lemma SpoiledStays(responses: seq<Response>, r: Response)
    requires Spoiled(responses)
    ensures Spoiled(responses + [r])
  {
    var i :| 0 <= i < |responses| - 1 && responses[i].code >= 200 && responses[i] != responses[i + 1];
    var all := responses + [r];
    assert all[i] == responses[i] && all[i + 1] == responses[i + 1];
  }

  lemma SpoiledBy(responses: seq<Response>, r: Response)
    requires responses != [] && responses[|responses| - 1].code >= 200 && responses[|responses| - 1] != r
    ensures Spoiled(responses + [r])
  {
    var all := responses + [r];
    assert all[|responses| - 1] == responses[|responses| - 1] && all[|responses|] == r;
  }

  /** The transaction's last response is final and not a 486. */
  predicate Closed(responses: seq<Response>) {
    responses != [] && responses[|responses| - 1].code >= 200 && responses[|responses| - 1].code != 486
  }

  lemma RespondEmits(w: Wire, r: Response, now: real, k: Key)
    ensures Emitted(Respond(w, r, now).log, k) == Emitted(w.log, k) + if r.to.Txn() == k then [r] else []
  {
    hide Respond, Emitted;
    RespondTrack(w, r, now, k);
  }

  lemma RespondSpoiled(w: Wire, r: Response, now: real, k: Key)
    requires Spoiled(Emitted(w.log, k))
    ensures Spoiled(Emitted(Respond(w, r, now).log, k))
  {
    hide Respond, Emitted, Spoiled;
    RespondEmits(w, r, now, k);
    SpoiledStays(Emitted(w.log, k), r);
    assert Emitted(w.log, k) + [] == Emitted(w.log, k);
  }

  lemma RejectTrack(c: Call, w: Wire, code: FinalCode, k: Key, now: real, udp: bool)
    requires OpenOn(c, k)
    ensures Emitted(Reject(c, w, code, now, udp).wire.log, k)
            == Emitted(w.log, k) + [Response(c.invite.value, code, 0)]
  {
    hide Respond, Emitted;
    RespondEmits(w, Response(c.invite.value, code, 0), now, k);
  }

  /** What is left of call i and the transaction once the request has been handled: two finals already, or a final while
      call i is still open, or two open calls. */
  predicate Aftermath(objs: seq<Call>, i: nat, b: Account, k: Key) {
    || Spoiled(Emitted(b.wire.log, k))
    || (i < |objs| <= |b.objs| && OpenOn(b.objs[i], k)
        && (Closed(Emitted(b.wire.log, k)) || (|b.objs| == |objs| + 1 && OpenOn(b.objs[|objs|], k))))
  }

  lemma ReinviteAftermath(a: Account, i: nat, m: nat, req: Request, now: real)
    requires Keeps(a) && i < |a.objs| && OpenOn(a.objs[i], req.Txn()) && m < |a.objs|
    ensures Aftermath(a.objs, i, Put(a, m, Reinvite(a.objs[m], a.wire, req, now, a.udp)), req.Txn())
  {
    hide Respond, Emitted, Keeps;
    var c := a.objs[m];
    RespondEmits(a.wire, Response(req, 491, 0), now, req.Txn());
    RespondEmits(a.wire, Response(req, 200, c.version), now, req.Txn());
    RespondEmits(a.wire, Response(req, 200, c.version + 1), now, req.Txn());
  }

  lemma InviteAftermath(a: Account, i: nat, req: Request, port: bool, now: real)
    requires Keeps(a) && i < |a.objs| && OpenOn(a.objs[i], req.Txn())
    ensures Aftermath(a.objs, i, NewInvite(a, req, port, now), req.Txn())
  {
    hide Respond, Emitted, Keeps, Reject;
    var k := req.Txn();
    var trying := Respond(a.wire, Response(req, 100, 0), now);
    RespondEmits(a.wire, Response(req, 488, 0), now, k);
    RespondEmits(trying, Response(req, 488, 0), now, k);
    RespondEmits(trying, Response(req, 503, 0), now, k);
    var c := Call(req.callId, true, New, Some(req), None, false, None, T1, 0.0, true, None, None, false, false, 0);
    RejectTrack(c, trying, 480, k, now, a.udp);
  }

  lemma ForeignAftermath(a: Account, i: nat, req: Request, port: bool, now: real)
    requires Keeps(a) && req.verb != Invite && req.verb != Ack
    requires i < |a.objs| && OpenOn(a.objs[i], req.Txn()) && !EndsItself(a, req, i)
    ensures Indexed(a) && Aftermath(a.objs, i, Dispatch(a, req, port, now), req.Txn())
  {
    hide Respond, Emitted, Keeps, Spoiled, LaterCall, FirstResponse, Dispatch;
    var k := req.Txn();
    var first := FirstResponse(a, req);
    KeepsIndexed(a);
    FirstIsClosed(a, req);
    DispatchCalls(a, req, port, now);
    DispatchWire(a, req, port, now);
    RespondEmits(a.wire, first, now, k);
    if req.callId in a.calls {
      KnownSound(a, req.callId);
      var m := a.calls[req.callId];
      if req.verb != Bye && (req.verb == Cancel ==> !Open(a.objs[m])) {
        LaterOpen(a.objs[m], req, k);
      }
      if req.verb == Cancel && Open(a.objs[m]) {
        var last := Response(a.objs[m].invite.value, 487, 0);
        RespondEmits(Respond(a.wire, first, now), last, now, k);
        if OpenOn(a.objs[m], k) {
          SpoiledBy(Emitted(Respond(a.wire, first, now).log, k), last);
        }
      }
    }
  }

  lemma FirstIsClosed(a: Account, req: Request)
    requires req.verb != Ack && req.verb != Invite
    ensures FirstResponse(a, req).to == req
    ensures FirstResponse(a, req).code >= 200 && FirstResponse(a, req).code != 486 && FirstResponse(a, req).code != 487
  {
  }

  /** Only BYE and CANCEL end an open call. */
  lemma LaterOpen(c: Call, req: Request, k: Key)
    requires req.verb != Bye && (req.verb == Cancel ==> !Open(c))
    ensures OpenOn(c, k) ==> OpenOn(LaterCall(c, req), k)
  {
  }

  lemma OpenAftermath(a: Account, i: nat, req: Request, port: bool, now: real)
    requires Keeps(a) && req.verb != Ack && !Absorbed(a, req, now)
    requires i < |a.objs| && OpenOn(a.objs[i], req.Txn()) && !EndsItself(a, req, i)
    ensures Indexed(a) && Aftermath(a.objs, i, Receive(a, req, port, now), req.Txn())
  {
    hide Keeps, Purge, Absorbed, Put, Reinvite, NewInvite, OpenOn, Aftermath;
    KeepsIndexed(a);
    var q := Marked(Swept(a, now), Handled(req.Txn(), now));
    QuietKeeps(a, q);
    if req.verb != Invite {
      ForeignAftermath(q, i, req, port, now);
    } else if req.callId in q.calls {
      KnownSound(q, req.callId);
      ReinviteAftermath(q, i, q.calls[req.callId], req, now);
    } else {
      InviteAftermath(q, i, req, port, now);
    }
  }

  /** The caller's call is rejected with 486, and the one the repeat may have opened with 480. */
  function Rejections(i: nat, j: nat, now: real): seq<Timed> {
    [Timed(RejectIt(i, 486), now), Timed(RejectIt(j, 480), now)]
  }

  function Rejected(b: Account, i: nat, code: FinalCode, now: real): Account {
    if i < |b.objs| then Put(b, i, Reject(b.objs[i], b.wire, code, now, b.udp)) else b
  }

  lemma RejectionsRun(b: Account, i: nat, j: nat, now: real)
    requires Keeps(b)
    ensures Run(b, Rejections(i, j, now)) == Rejected(Rejected(b, i, 486, now), j, 480, now)
    ensures Ordered(Rejections(i, j, now), now) && Punctual(b, Rejections(i, j, now))
  {
    hide Step, Keeps, Run, Punctual, Rejected;
    var first, second := Timed(RejectIt(i, 486), now), Timed(RejectIt(j, 480), now);
    assert Rejections(i, j, now) == [first] + ([second] + []);
    RunCons(b, first, [second] + []);
    RejectStep(b, i, 486, now);
    var c := Step(b, first.event, now);
    RunCons(c, second, []);
    RejectStep(c, j, 480, now);
    RunNothing(Step(c, second.event, now));
    OrderedPair(first, second);
  }

  lemma OrderedPair(first: Timed, second: Timed)
    requires first.at <= second.at
    ensures Ordered([first] + ([second] + []), first.at)
  {
    var events := [first] + ([second] + []);
    assert events[1..] == [second] && [second][1..] == [];
    assert Ordered([second], first.at);
  }

  lemma RejectStep(b: Account, i: nat, code: FinalCode, now: real)
    requires Keeps(b)
    ensures Indexed(b) && Step(b, RejectIt(i, code), now) == Rejected(b, i, code, now)
  {
    hide Reject, Put;
  }

  lemma RunNothing(a: Account)
    requires Keeps(a)
    ensures Run(a, []) == a && Punctual(a, [])
  {
  }

  lemma RunCons(a: Account, e: Timed, rest: seq<Timed>)
    requires Keeps(a)
    ensures Indexed(a) && Keeps(Step(a, e.event, e.at))
    ensures Run(a, [e] + rest) == Run(Step(a, e.event, e.at), rest)
    ensures Punctual(a, [e] + rest)
            <==> (e.event.Arrives? ==> !Disturbs(a, e.event.req, e.at))
                 && Punctual(Step(a, e.event, e.at), rest)
  {
    hide Step, Keeps, Disturbs;
    KeepsIndexed(a);
    StepKeeps(a, e.event, e.at);
    assert ([e] + rest)[1..] == rest;
  }

  lemma RejectGrows(b: Account, j: nat, code: FinalCode, k: Key, now: real)
    requires Spoiled(Emitted(b.wire.log, k))
    ensures Spoiled(Emitted(Rejected(b, j, code, now).wire.log, k))
  {
    hide Respond, Emitted, Spoiled;
    if j < |b.objs| && Answerable(b.objs[j]) {
      RespondSpoiled(b.wire, Response(b.objs[j].invite.value, code, 0), now, k);
    }
  }

  lemma AftermathSpoils(objs: seq<Call>, i: nat, b: Account, k: Key, now: real)
    requires Aftermath(objs, i, b, k)
    ensures Spoiled(Emitted(Rejected(Rejected(b, i, 486, now), |objs|, 480, now).wire.log, k))
  {
    hide Respond, Emitted, Spoiled, Reject, Open;
    var c := Rejected(b, i, 486, now);
    if Spoiled(Emitted(b.wire.log, k)) {
      RejectGrows(b, i, 486, k, now);
      RejectGrows(c, |objs|, 480, k, now);
    } else {
      RejectTrack(b.objs[i], b.wire, 486, k, now, b.udp);
      var last := Response(b.objs[i].invite.value, 486, 0);
      if Closed(Emitted(b.wire.log, k)) {
        SpoiledBy(Emitted(b.wire.log, k), last);
        RejectGrows(c, |objs|, 480, k, now);
      } else {
        RejectTrack(c.objs[|objs|], c.wire, 480, k, now, c.udp);
        SpoiledBy(Emitted(c.wire.log, k), Response(c.objs[|objs|].invite.value, 480, 0));
      }
    }
  }

  /** Rejecting the calls that are left shows the caller two different final responses. */
  lemma AftermathBreaks(objs: seq<Call>, i: nat, b: Account, k: Key, now: real)
    requires Keeps(b) && Aftermath(objs, i, b, k)
    ensures var more := Rejections(i, |objs|, now);
            Ordered(more, now) && Punctual(b, more) && !SingleFinals(Run(b, more))
  {
    hide Keeps, Punctual, Aftermath, Rejections, Rejected, Emitted, OneFinal;
    RejectionsRun(b, i, |objs|, now);
    AftermathSpoils(objs, i, b, k, now);
    SpoiledIsNotSingle(Emitted(Run(b, Rejections(i, |objs|, now)).wire.log, k));
  }

  /** After a late repeat, rejecting the calls it involves sends two different final responses. */
  lemma LateRepeatBreaks(a: Account, req: Request, port: bool, i: nat, now: real)
    requires Keeps(a) && LateRepeat(a, req, now)
    requires i < |a.objs| && OpenOn(a.objs[i], req.Txn())
    ensures Indexed(a) && Keeps(Step(a, Arrives(req, port), now))
    ensures var b := Step(a, Arrives(req, port), now); var more := Rejections(i, |a.objs|, now);
            Ordered(more, now) && Punctual(b, more) && !SingleFinals(Run(b, more))
  {
    hide Keeps, Absorbed, Receive, Punctual, OpenOn, Aftermath, Rejections, SingleFinals;
    KeepsIndexed(a);
    StepKeeps(a, Arrives(req, port), now);
    OpenAftermath(a, i, req, port, now);
    AftermathBreaks(a.objs, i, Step(a, Arrives(req, port), now), req.Txn(), now);
  }

  // ---- A second final response at once ----

  /** The request is met with its first response, whatever else it leads to. */
  lemma MetWithFirst(a: Account, req: Request, port: bool, now: real, k: Key)
    requires Indexed(a) && req.verb != Ack
    ensures Spoiled(Emitted(Respond(a.wire, FirstResponse(a, req), now).log, k)) ==>
              Spoiled(Emitted(Dispatch(a, req, port, now).wire.log, k))
  {
    hide Respond, Emitted, Spoiled, LaterCall, Reject;
    var w := Respond(a.wire, FirstResponse(a, req), now);
    if Spoiled(Emitted(w.log, k)) {
      if req.verb != Invite {
        MetForeign(a, req, port, now, k);
      } else if req.callId !in a.calls {
        RespondSpoiled(w, Response(req, 503, 0), now, k);
        RespondSpoiled(w, Response(req, 488, 0), now, k);
        var c := Call(req.callId, true, New, Some(req), None, false, None, T1, 0.0, true, None, None, false, false, 0);
        RejectSpoiled(c, w, 480, now, a.udp, k);
      }
    }
  }

  lemma MetForeign(a: Account, req: Request, port: bool, now: real, k: Key)
    requires Indexed(a) && req.verb != Ack && req.verb != Invite
    requires Spoiled(Emitted(Respond(a.wire, FirstResponse(a, req), now).log, k))
    ensures Spoiled(Emitted(Dispatch(a, req, port, now).wire.log, k))
  {
    hide Respond, Emitted, Spoiled, FirstResponse, Dispatch;
    DispatchWire(a, req, port, now);
    if req.callId in a.calls && a.objs[a.calls[req.callId]].invite.Some? {
      RespondSpoiled(Respond(a.wire, FirstResponse(a, req), now),
                     Response(a.objs[a.calls[req.callId]].invite.value, 487, 0), now, k);
    }
  }

  lemma RejectSpoiled(c: Call, w: Wire, code: FinalCode, now: real, udp: bool, k: Key)
    requires Spoiled(Emitted(w.log, k))
    ensures Spoiled(Emitted(Reject(c, w, code, now, udp).wire.log, k))
  {
    hide Respond, Emitted, Spoiled;
    if Answerable(c) {
      RespondSpoiled(w, Response(c.invite.value, code, 0), now, k);
    }
  }

  lemma OverwritesSpoils(a: Account, req: Request, port: bool, from: real, now: real)
    requires Steady(a, from) && from <= now && req.verb != Ack && !Absorbed(a, req, now) && Overwrites(a, req, now)
    ensures Indexed(a) && Spoiled(Emitted(Receive(a, req, port, now).wire.log, req.Txn()))
  {
    hide Keeps, Truthful, AllOrderly, Absorbed, Dispatch, Emitted, Spoiled, FirstResponse, Purge;
    KeepsIndexed(a);
    var k := req.Txn();
    var p := Swept(a, now);
    var q := Marked(p, Handled(k, now));
    LaterTruthful(a.wire, from, now);
    PurgeTruthful(a.wire, now);
    PurgeTwice(a.wire.cache, now);
    HandledTrack(p.wire, k, now, k);
    FromSwept(a, k, now);
    CachedIsLast(a, k, from);
    RespondEmits(q.wire, FirstResponse(a, req), now, k);
    FirstOfRequest(a, req);
    SpoiledBy(Emitted(q.wire.log, k), FirstResponse(a, req));
    SamePeer(a, q, req);
    MetWithFirst(q, req, port, now, k);
  }

  lemma FirstOfRequest(a: Account, req: Request)
    ensures FirstResponse(a, req).to == req
  {
  }

  lemma SamePeer(a: Account, q: Account, req: Request)
    requires q.objs == a.objs && q.calls == a.calls
    ensures FirstResponse(q, req) == FirstResponse(a, req)
  {
  }

  lemma CachedIsLast(a: Account, k: Key, from: real)
    requires Steady(a, from) && k in a.wire.cache
    ensures var emitted := Emitted(a.wire.log, k);
            emitted != [] && emitted[|emitted| - 1] == a.wire.cache[k].response
  {
    hide Keeps, Truthful, OneFinal, Emitted, OpenOn, TimerOn, Provisional;
    assert Orderly(a.objs, TrackOf(a.wire, k), k, from);
  }

  lemma FromSwept(a: Account, k: Key, now: real)
    requires k in Purge(a.wire.cache, now)
    ensures k in a.wire.cache && Swept(a, now).wire.cache[k] == a.wire.cache[k]
  {
  }

  /** After a request that disturbs a transaction, some run that disturbs none sends two different final responses. */
  lemma DisturbanceBreaks(a: Account, req: Request, port: bool, from: real, now: real) returns (more: seq<Timed>)
    requires Steady(a, from) && from <= now && Disturbs(a, req, now)
    ensures Indexed(a) && Keeps(Step(a, Arrives(req, port), now))
    ensures var b := Step(a, Arrives(req, port), now);
            Ordered(more, now) && Punctual(b, more) && !SingleFinals(Run(b, more))
  {
    hide Keeps, Truthful, AllOrderly, Absorbed, Receive, Punctual, Rejections, Emitted, Run, SingleFinals, OpenOn,
        Overwrites, EndsItself, Spoiled;
    KeepsIndexed(a);
    StepKeeps(a, Arrives(req, port), now);
    var i: nat := 0;
    if Overwrites(a, req, now) {
      OverwritesSpoils(a, req, port, from, now);
    } else {
      i :| 0 <= i < |a.objs| && OpenOn(a.objs[i], req.Txn()) && !EndsItself(a, req, i);
      OpenAftermath(a, i, req, port, now);
    }
    AftermathBreaks(a.objs, i, Step(a, Arrives(req, port), now), req.Txn(), now);
    more := Rejections(i, |a.objs|, now);
  }

  /** From any state a well-timed run can reach, and for any request: all transactions keep to one final response,
      however the run goes on without disturbing one, if and only if the request just handled disturbed none. */
  lemma OneFinalIffUndisturbed(a: Account, req: Request, port: bool, from: real, now: real)
    requires Steady(a, from) && from <= now
    ensures Indexed(a) && Keeps(Step(a, Arrives(req, port), now))
    ensures var b := Step(a, Arrives(req, port), now);
            (forall more :: Ordered(more, now) && Punctual(b, more) ==> SingleFinals(Run(b, more)))
                <==> !Disturbs(a, req, now)
  {
    hide Step, Run, Keeps, Truthful, AllOrderly, Punctual, Ordered, SingleFinals, Disturbs;
    KeepsIndexed(a);
    StepKeeps(a, Arrives(req, port), now);
    var b := Step(a, Arrives(req, port), now);
    if Disturbs(a, req, now) {
      var more := DisturbanceBreaks(a, req, port, from, now);
      assert !SingleFinals(Run(b, more));
    } else {
      StepSteady(a, Arrives(req, port), from, now);
      forall more | Ordered(more, now) && Punctual(b, more) ensures SingleFinals(Run(b, more)) {
        RunSteady(b, more, now);
        SteadySingle(Run(b, more), End(more, now));
      }
    }
  }

  // ---- It happens ----

  /** An INVITE at 0 s that rings at 1 s, its repeat at 40 s, and the answer at 41 s. */
  function SlowAnswer(invite: Request): seq<Timed> {
    [Timed(Arrives(invite, true), 0.0)]
        + ([Timed(RingIt(0), 1.0)] + ([Timed(Arrives(invite, true), 40.0)] + ([Timed(AnswerIt(0), 41.0)] + [])))
  }

  /** The caller sees 491 and then 200. */
  lemma TwoFinals(invite: Request)
    requires invite == Request(Invite, 1, 7, Invite, Offer(true))
    ensures Keeps(Initial(true, true))
    ensures Emitted(Run(Initial(true, true), SlowAnswer(invite)).wire.log, invite.Txn())
            == [Response(invite, 491, 0), Response(invite, 200, 0)]
  {
    hide Step, Keeps, Run, Emitted, Punctual;
    var a := Initial(true, true);
    InitialKeeps(true, true);
    RunCons(a, Timed(Arrives(invite, true), 0.0), SlowAnswer(invite)[1..]);
    Rung(invite);
    var b := Step(a, Arrives(invite, true), 0.0);
    RunCons(b, Timed(RingIt(0), 1.0), SlowAnswer(invite)[2..]);
    var c := Step(b, RingIt(0), 1.0);
    RunCons(c, Timed(Arrives(invite, true), 40.0), SlowAnswer(invite)[3..]);
    Repeated(invite, c);
    var d := Step(c, Arrives(invite, true), 40.0);
    RunCons(d, Timed(AnswerIt(0), 41.0), []);
    RunNothing(Step(d, AnswerIt(0), 41.0));
    assert SlowAnswer(invite)[1..] == [Timed(RingIt(0), 1.0)] + SlowAnswer(invite)[2..];
    assert SlowAnswer(invite)[2..] == [Timed(Arrives(invite, true), 40.0)] + SlowAnswer(invite)[3..];
    assert SlowAnswer(invite)[3..] == [Timed(AnswerIt(0), 41.0)] + [];
    assert SlowAnswer(invite) == [Timed(Arrives(invite, true), 0.0)] + SlowAnswer(invite)[1..];
  }

  predicate RingingCall(a: Account, invite: Request) {
    && a.udp && |a.objs| == 1
    && a.calls == map[1 := 0]
    && a.objs[0].incoming && a.objs[0].phase == Ringing && a.objs[0].invite == Some(invite) && a.objs[0].version == 0
    && invite.Txn() in a.wire.cache
  }

  lemma Rung(invite: Request)
    requires invite == Request(Invite, 1, 7, Invite, Offer(true))
    ensures Keeps(Initial(true, true)) && Indexed(Initial(true, true))
    ensures var b := Step(Initial(true, true), Arrives(invite, true), 0.0);
            Indexed(b) && var c := Step(b, RingIt(0), 1.0);
            RingingCall(c, invite) && Indexed(c) && c.wire.cache[invite.Txn()].at == 1.0
            && Over(c.wire.log, invite.Txn(), 40.0)
  {
    InitialKeeps(true, true);
  }

  lemma Repeated(invite: Request, c: Account)
    requires invite == Request(Invite, 1, 7, Invite, Offer(true))
    requires RingingCall(c, invite) && Indexed(c) && c.wire.cache[invite.Txn()].at == 1.0
    requires Over(c.wire.log, invite.Txn(), 40.0)
    ensures var d := Step(c, Arrives(invite, true), 40.0);
            Indexed(d) && Emitted(Step(d, AnswerIt(0), 41.0).wire.log, invite.Txn())
                          == [Response(invite, 491, 0), Response(invite, 200, 0)]
  {
    hide Emitted, Over, Respond, NewInvite, CancelOpen;
    var d := Step(c, Arrives(invite, true), 40.0);
    var q := Marked(Swept(c, 40.0), Handled(invite.Txn(), 40.0));
    assert !Absorbed(c, invite, 40.0);
    assert d.wire == Respond(q.wire, Response(invite, 491, 0), 40.0);
    EmittedSnoc(c.wire.log, Handled(invite.Txn(), 40.0), invite.Txn());
    RespondEmits(q.wire, Response(invite, 491, 0), 40.0, invite.Txn());
    RespondEmits(d.wire, Response(invite, 200, 0), 41.0, invite.Txn());
  }

  /** An INVITE at 0 s, its rejection at 1 s, an OPTIONS of its branch that names INVITE in its CSeq header at 2 s, and
      the INVITE once more at 3 s. */
  function Overwriting(invite: Request, options: Request): seq<Timed> {
    [Timed(Arrives(invite, true), 0.0)]
        + ([Timed(RejectIt(0, 486), 1.0)] + ([Timed(Arrives(options, true), 2.0)]
                                             + ([Timed(Arrives(invite, true), 3.0)] + [])))
  }

  /** The caller sees 486 and then, in answer to the INVITE, the 200 that was meant for the OPTIONS. */
  lemma FinalOverwritten(invite: Request, options: Request)
    requires invite == Request(Invite, 1, 7, Invite, Offer(true)) && options == Request(Options, 1, 7, Invite, Empty)
    ensures Keeps(Initial(true, true))
    ensures var r := Response(options, 200, 0); var a := Run(Initial(true, true), Overwriting(invite, options));
            && Emitted(a.wire.log, invite.Txn()) == [Response(invite, 100, 0), Response(invite, 486, 0), r, r]
            && a.wire.log != [] && a.wire.log[|a.wire.log| - 1] == Replayed(r)
  {
    hide Step, Keeps, Run, Emitted, Punctual;
    var a, all := Initial(true, true), Overwriting(invite, options);
    InitialKeeps(true, true);
    RunCons(a, Timed(Arrives(invite, true), 0.0), all[1..]);
    Refused(invite);
    var b := Step(a, Arrives(invite, true), 0.0);
    RunCons(b, Timed(RejectIt(0, 486), 1.0), all[2..]);
    var c := Step(b, RejectIt(0, 486), 1.0);
    RunCons(c, Timed(Arrives(options, true), 2.0), all[3..]);
    Answered(c, invite, options);
    var d := Step(c, Arrives(options, true), 2.0);
    RunCons(d, Timed(Arrives(invite, true), 3.0), []);
    RunNothing(Step(d, Arrives(invite, true), 3.0));
    assert all[1..] == [Timed(RejectIt(0, 486), 1.0)] + all[2..];
    assert all[2..] == [Timed(Arrives(options, true), 2.0)] + all[3..];
    assert all[3..] == [Timed(Arrives(invite, true), 3.0)] + [];
    assert all == [Timed(Arrives(invite, true), 0.0)] + all[1..];
  }

  lemma Refused(invite: Request)
    requires invite == Request(Invite, 1, 7, Invite, Offer(true))
    ensures Keeps(Initial(true, true)) && Indexed(Initial(true, true))
    ensures var b := Step(Initial(true, true), Arrives(invite, true), 0.0);
            Indexed(b) && var c := Step(b, RejectIt(0, 486), 1.0);
            && Indexed(c) && c.calls == map[]
            && c.wire.cache == map[invite.Txn() := Entry(Response(invite, 486, 0), 1.0)]
            && Emitted(c.wire.log, invite.Txn()) == [Response(invite, 100, 0), Response(invite, 486, 0)]
            && !Over(c.wire.log, invite.Txn(), 2.0)
  {
    hide Emitted, Step, Keeps, NewInviteState;
    var k := invite.Txn();
    Admitted(invite);
    var b := Step(Initial(true, true), Arrives(invite, true), 0.0);
    RefusedStep(b, invite);
    RespondEmits(b.wire, Response(invite, 486, 0), 1.0, k);
    LatestSnoc(b.wire.log, Sent(Response(invite, 486, 0), 1.0), k);
  }

  predicate NewInviteState(b: Account, invite: Request) {
    && b.udp && b.calls == map[1 := 0]
    && b.objs == [Call(1, true, New, Some(invite), None, false, None, T1, 0.0, true, None, None, false, false, 0)]
    && b.wire.cache == map[invite.Txn() := Entry(Response(invite, 100, 0), 0.0)]
  }

  lemma Admitted(invite: Request)
    requires invite == Request(Invite, 1, 7, Invite, Offer(true))
    ensures Keeps(Initial(true, true)) && Indexed(Initial(true, true))
    ensures var b := Step(Initial(true, true), Arrives(invite, true), 0.0);
            NewInviteState(b, invite) && Emitted(b.wire.log, invite.Txn()) == [Response(invite, 100, 0)]
  {
    hide Emitted, Over;
    InitialKeeps(true, true);
    var a, k := Initial(true, true), invite.Txn();
    var q := Marked(Swept(a, 0.0), Handled(k, 0.0));
    assert q.wire.cache == map[];
    EmittedSnoc([], Handled(k, 0.0), k);
    EmittedNothing(k);
    RespondEmits(q.wire, Response(invite, 100, 0), 0.0, k);
  }

  lemma EmittedNothing(k: Key)
    ensures Emitted([], k) == []
  {
  }

  lemma RefusedStep(b: Account, invite: Request)
    requires invite == Request(Invite, 1, 7, Invite, Offer(true)) && NewInviteState(b, invite)
    ensures Indexed(b)
    ensures var c := Step(b, RejectIt(0, 486), 1.0);
            && Indexed(c) && c.calls == map[] && c.wire == Respond(b.wire, Response(invite, 486, 0), 1.0)
            && c.wire.cache == map[invite.Txn() := Entry(Response(invite, 486, 0), 1.0)]
            && c.wire.log == b.wire.log + [Sent(Response(invite, 486, 0), 1.0)]
  {
  }

  lemma Answered(c: Account, invite: Request, options: Request)
    requires invite == Request(Invite, 1, 7, Invite, Offer(true)) && options == Request(Options, 1, 7, Invite, Empty)
    requires Indexed(c) && c.calls == map[] && !Over(c.wire.log, invite.Txn(), 2.0)
    requires c.wire.cache == map[invite.Txn() := Entry(Response(invite, 486, 0), 1.0)]
    ensures var r := Response(options, 200, 0); var d := Step(c, Arrives(options, true), 2.0);
            Indexed(d) && var e := Step(d, Arrives(invite, true), 3.0);
            && Emitted(e.wire.log, invite.Txn()) == Emitted(c.wire.log, invite.Txn()) + [r, r]
            && e.wire.log != [] && e.wire.log[|e.wire.log| - 1] == Replayed(r)
  {
    hide Emitted, Over;
    var r, k := Response(options, 200, 0), invite.Txn();
    var q := Marked(Swept(c, 2.0), Handled(k, 2.0));
    EmittedSnoc(c.wire.log, Handled(k, 2.0), k);
    RespondEmits(q.wire, r, 2.0, k);
    var d := Step(c, Arrives(options, true), 2.0);
    assert d.wire == Respond(q.wire, r, 2.0);
    assert d.wire.cache[k] == Entry(r, 2.0) && k in Purge(d.wire.cache, 3.0);
    EmittedSnoc(d.wire.log, Replayed(r), k);
  }
}
