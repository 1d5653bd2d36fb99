/** What every run of the user agent keeps about its calls: which are registered, what an ended call has
    given up, and that its futures are resolved once. */
module Dialogs {
  import opened Options
  import opened UserAgents

  /** What `answered` holds: 200 for an outgoing call once it is connected, and otherwise, when the call has ended, the
      code it ended with, or 487 if that is no failure. */
  predicate Settled(c: Call) {
    if c.phase == Terminated then
      || (!c.incoming && c.answered == Some(200))
      || (c.ended.Some? && c.answered == Some(if c.ended.value >= 300 then c.ended.value else 487))
    else c.answered == if !c.incoming && c.phase == Connected then Some(200) else None
  }

  /** One call on its own. */
  predicate Sound(c: Call) {
    && Settled(c)
    && (c.phase == Terminated ==> !c.rtp && c.timer.None? && c.answered.Some? && c.ended.Some?)
    && (c.phase != Terminated ==> c.rtp && c.ended.None?)
    && (c.incoming ==> c.invite.Some? && c.phase != Calling && c.phase != Early)
    && (!c.incoming ==> c.phase != New)
    && (c.lastFinal.Some? ==> c.lastFinal.value.code >= 200 && (c.phase == Connected || c.phase == Terminated))
    && (c.timer.Some? ==>
        !c.acked && c.lastFinal.Some? && c.invite == Some(c.lastFinal.value.to) && c.lastFinal.value.code == 200)
    && (c.invite.Some? ==> c.invite.value.verb == Invite && c.invite.value.callId == c.id)
  }

  /** How a call may develop: it never comes back to life and a resolved future keeps its value. */
  predicate Follows(c: Call, later: Call) {
    && later.id == c.id
    && later.incoming == c.incoming
    && (c.phase == Terminated ==> later.phase == Terminated)
    && (c.answered.Some? ==> later.answered == c.answered)
    && (c.ended.Some? ==> later.ended == c.ended)
  }

  /** `_calls` holds exactly the calls that have not ended, each under its own Call-ID. */
  predicate Registered(a: Account) {
    && Indexed(a)
    && (forall id :: id in a.calls ==> a.objs[a.calls[id]].id == id && a.objs[a.calls[id]].phase != Terminated)
    && (forall i :: 0 <= i < |a.objs| && a.objs[i].phase != Terminated ==>
        a.objs[i].id in a.calls && a.calls[a.objs[i].id] == i)
  }

  predicate AllSound(a: Account) {
    forall i :: 0 <= i < |a.objs| ==> Sound(a.objs[i])
  }

  predicate Keeps(a: Account) {
    Registered(a) && AllSound(a)
  }

  predicate Develops(a: Account, later: Account) {
    |a.objs| <= |later.objs| && forall i :: 0 <= i < |a.objs| ==> Follows(a.objs[i], later.objs[i])
  }

  // ---- Operations on one call ----

  predicate Fine(c: Call, side: Side) {
    Sound(side.call) && Follows(c, side.call)
  }

  lemma TerminateFine(c: Call, code: nat)
    requires Sound(c)
    ensures Sound(Terminate(c, code)) && Follows(c, Terminate(c, code)) && Terminate(c, code).phase == Terminated
  {
  }

  lemma AnswerFine(c: Call, w: Wire, now: real, udp: bool)
    requires Sound(c)
    ensures Fine(c, Answer(c, w, now, udp)) && Fine(c, Ring(c, w, now))
  {
    hide Respond;
  }

  lemma RejectFine(c: Call, w: Wire, code: FinalCode, now: real, udp: bool)
    requires Sound(c)
    ensures Fine(c, Reject(c, w, code, now, udp))
  {
    hide Respond;
  }

  lemma HangupFine(c: Call, w: Wire, code: FinalCode, now: real, udp: bool)
    requires Sound(c)
    ensures Fine(c, Hangup(c, w, code, now, udp))
  {
    hide Respond, Reject;
    RejectFine(c, w, code, now, udp);
  }

  lemma FireFine(c: Call, w: Wire, now: real, udp: bool)
    requires Sound(c)
    ensures Fine(c, Fire(c, w, now, udp))
  {
    hide Respond, Hangup;
    var idle := c.(timer := None);
    if c.timer.Some? {
      HangupFine(idle, w, 486, now, udp);
    }
  }

  lemma ReinviteFine(c: Call, w: Wire, req: Request, now: real, udp: bool)
    requires Sound(c) && req.verb == Invite && req.callId == c.id
    ensures c.phase != Terminated ==> Fine(c, Reinvite(c, w, req, now, udp))
  {
    hide Respond;
  }

  lemma CancelFine(c: Call, w: Wire, req: Request, now: real)
    requires Sound(c) && Open(c)
    ensures Fine(c, CancelOpen(c, w, req, now))
  {
    hide Respond;
  }

  lemma AckedFine(c: Call)
    requires Sound(c)
    ensures Sound(Acked(c)) && Follows(c, Acked(c))
  {
  }

  lemma OnCallFine(c: Call, w: Wire, e: Event, now: real, udp: bool)
    requires Sound(c) && !e.Arrives? && !e.Dial?
    ensures Fine(c, OnCall(c, w, e, now, udp))
  {
    hide Ring, Answer, Reject, Hangup, Fire, Terminate;
    AnswerFine(c, w, now, udp);
    FireFine(c, w, now, udp);
    if e.RejectIt? || e.HangUp? || e.Fail? {
      RejectFine(c, w, e.code, now, udp);
      HangupFine(c, w, e.code, now, udp);
      TerminateFine(c, e.code);
    }
  }

  // ---- The account ----

  lemma PutKeeps(a: Account, i: nat, side: Side)
    requires Keeps(a) && i < |a.objs| && Fine(a.objs[i], side)
    ensures Keeps(Put(a, i, side)) && Develops(a, Put(a, i, side))
  {
    hide Sound;
    PutRegistered(a, i, side);
    EndedFollow(a);
  }

  lemma EndedFollow(a: Account)
    ensures Develops(a, a)
  {
  }

  lemma PutRegistered(a: Account, i: nat, side: Side)
    requires Registered(a) && i < |a.objs| && Follows(a.objs[i], side.call)
    ensures Registered(Put(a, i, side))
  {
    var b := Put(a, i, side);
    forall id | id in b.calls
        ensures b.calls[id] < |b.objs| && b.objs[b.calls[id]].id == id && b.objs[b.calls[id]].phase != Terminated {
      assert id in a.calls;
    }
    forall j | 0 <= j < |b.objs| && b.objs[j].phase != Terminated
        ensures b.objs[j].id in b.calls && b.calls[b.objs[j].id] == j {
      assert a.objs[j].phase != Terminated && a.objs[j].id == b.objs[j].id;
    }
  }

  /** Changes that leave the calls alone. */
  predicate SameCalls(a: Account, b: Account) {
    a.objs == b.objs && a.calls == b.calls
  }

  lemma SameCallsKeep(a: Account, b: Account)
    requires Keeps(a) && SameCalls(a, b)
    ensures Keeps(b)
    ensures forall later :: Develops(b, later) ==> Develops(a, later)
  {
  }

  lemma AddKeeps(a: Account, b: Account, c: Call)
    requires Keeps(a) && Sound(c) && c.phase != Terminated && c.id !in a.calls
    requires b.objs == a.objs + [c] && b.calls == a.calls[c.id := |a.objs|]
    ensures Keeps(b) && Develops(a, b)
  {
    hide Sound;
    forall i | 0 <= i < |a.objs| ensures b.objs[i] == a.objs[i] && Follows(a.objs[i], b.objs[i]) {
    }
    assert b.objs[|a.objs|] == c;
  }

  lemma NewInviteKeeps(a: Account, req: Request, port: bool, now: real)
    requires Keeps(a) && req.callId !in a.calls && req.verb == Invite
    ensures Keeps(NewInvite(a, req, port, now)) && Develops(a, NewInvite(a, req, port, now))
  {
    hide Respond, Reject, Put, Keeps, Develops, Sound;
    var b := NewInvite(a, req, port, now);
    EndedFollow(a);
    if SameCalls(a, b) {
      SameCallsKeep(a, b);
      DevelopsSame(a, b);
    } else {
      var c := Call(req.callId, true, New, Some(req), None, false, None, T1, 0.0, true, None, None, false, false, 0);
      var trying := Reply(a, req, 100, now);
      var added := trying.(objs := a.objs + [c], calls := a.calls[req.callId := |a.objs|]);
      FreshSound(c);
      AddKeeps(a, added, c);
      if a.hook {
        SameCallsKeep(added, b);
        DevelopsSame(added, b);
        DevelopsOn(a, added, b);
      } else {
        RejectFine(c, added.wire, 480, now, a.udp);
        PutKeeps(added, |a.objs|, Reject(c, added.wire, 480, now, a.udp));
        DevelopsOn(a, added, b);
      }
    }
  }

  lemma FreshSound(c: Call)
    requires (c.phase == New && c.incoming) || (c.phase == Calling && !c.incoming)
    requires c.invite.Some? == c.incoming && c.lastFinal.None?
    requires c.invite.Some? ==> c.invite.value.verb == Invite && c.invite.value.callId == c.id
    requires c.timer.None? && c.rtp && c.ended.None? && c.answered.None?
    ensures Sound(c)
  {
  }

  lemma DevelopsSame(a: Account, b: Account)
    requires a.objs == b.objs
    ensures Develops(a, b)
  {
  }

  lemma DevelopsOn(a: Account, b: Account, c: Account)
    requires Develops(a, b) && Develops(b, c)
    ensures Develops(a, c)
  {
    forall i | 0 <= i < |a.objs| ensures Follows(a.objs[i], c.objs[i]) {
      assert Follows(a.objs[i], b.objs[i]) && Follows(b.objs[i], c.objs[i]);
    }
  }

  /** A change to a registered call, after bookkeeping that leaves the calls alone. */
  lemma ChangeKeeps(a: Account, b: Account, i: nat, side: Side)
    requires Keeps(a) && SameCalls(a, b) && i < |a.objs| && Fine(a.objs[i], side)
    ensures Keeps(Put(b, i, side)) && Develops(a, Put(b, i, side))
  {
    hide Put, Keeps, Develops, Fine;
    SameCallsKeep(a, b);
    PutKeeps(b, i, side);
  }

  lemma QuietKeeps(a: Account, b: Account)
    requires Keeps(a) && SameCalls(a, b)
    ensures Keeps(b) && Develops(a, b)
  {
    SameCallsKeep(a, b);
    DevelopsSame(a, b);
  }

  lemma KnownSound(a: Account, id: Name)
    requires Keeps(a) && id in a.calls
    ensures a.calls[id] < |a.objs| && Sound(a.objs[a.calls[id]]) && a.objs[a.calls[id]].phase != Terminated
    ensures a.objs[a.calls[id]].id == id
  {
  }

  lemma DispatchKeeps(a: Account, req: Request, port: bool, now: real)
    requires Keeps(a)
    ensures Keeps(Dispatch(a, req, port, now)) && Develops(a, Dispatch(a, req, port, now))
  {
    if req.callId !in a.calls {
      UnknownKeeps(a, req, port, now);
    } else {
      KnownKeeps(a, req, port, now);
    }
  }

  lemma UnknownKeeps(a: Account, req: Request, port: bool, now: real)
    requires Keeps(a) && req.callId !in a.calls
    ensures Keeps(Dispatch(a, req, port, now)) && Develops(a, Dispatch(a, req, port, now))
  {
    hide Respond, NewInvite, Put, Keeps, Develops;
    KeepsIndexed(a);
    if req.verb == Invite {
      NewInviteKeeps(a, req, port, now);
    } else {
      QuietKeeps(a, Dispatch(a, req, port, now));
    }
  }

  lemma KnownKeeps(a: Account, req: Request, port: bool, now: real)
    requires Keeps(a) && req.callId in a.calls
    ensures Keeps(Dispatch(a, req, port, now)) && Develops(a, Dispatch(a, req, port, now))
  {
    hide Respond, NewInvite, Put, Keeps, Develops, Reinvite, Acked, CancelOpen, Terminate, Sound, Follows;
    KeepsIndexed(a);
    KnownSound(a, req.callId);
    var i := a.calls[req.callId];
    var c := a.objs[i];
    match req.verb {
      case Invite =>
        ReinviteFine(c, a.wire, req, now, a.udp);
        ChangeKeeps(a, a, i, Reinvite(c, a.wire, req, now, a.udp));
      case Ack =>
        AckedFine(c);
        ChangeKeeps(a, a, i, Side(Acked(c), a.wire));
      case Cancel =>
        if Open(c) {
          CancelFine(c, a.wire, req, now);
          ChangeKeeps(a, a, i, CancelOpen(c, a.wire, req, now));
        } else {
          QuietKeeps(a, Dispatch(a, req, port, now));
        }
      case Bye =>
        TerminateFine(c, 0);
        var b := Reply(a, req, 200, now);
        ChangeKeeps(a, b, i, Side(Terminate(c, 0), b.wire));
      case Update =>
        if req.body != Empty {
          NewVersionFine(c);
          ChangeKeeps(a, a, i,
                      Side(c.(version := c.version + 1), Respond(a.wire, Response(req, 200, c.version + 1), now)));
        } else {
          QuietKeeps(a, Dispatch(a, req, port, now));
        }
      case _ =>
        QuietKeeps(a, Dispatch(a, req, port, now));
    }
  }

  lemma NewVersionFine(c: Call)
    requires Sound(c)
    ensures Sound(c.(version := c.version + 1)) && Follows(c, c.(version := c.version + 1))
  {
  }

  lemma ReceiveKeeps(a: Account, req: Request, port: bool, now: real)
    requires Keeps(a)
    ensures Keeps(Receive(a, req, port, now)) && Develops(a, Receive(a, req, port, now))
  {
    hide Purge, Dispatch, Keeps, Develops;
    var p := Swept(a, now);
    KeepsIndexed(a);
    QuietKeeps(a, p);
    KeepsIndexed(p);
    QuietKeeps(a, Marked(p, Handled(req.Txn(), now)));
    DispatchKeeps(p, req, port, now);
    DispatchKeeps(Marked(p, Handled(req.Txn(), now)), req, port, now);
    if Absorbed(a, req, now) {
      QuietKeeps(a, Receive(a, req, port, now));
    } else {
      DevelopsOn(a, p, Dispatch(p, req, port, now));
      DevelopsOn(a, Marked(p, Handled(req.Txn(), now)), Dispatch(Marked(p, Handled(req.Txn(), now)), req, port, now));
    }
  }

  /** One event. */
  lemma StepKeeps(a: Account, e: Event, now: real)
    requires Keeps(a)
    ensures Keeps(Step(a, e, now)) && Develops(a, Step(a, e, now))
  {
    hide Receive, Put, OnCall, Keeps, Develops, Sound;
    KeepsIndexed(a);
    match e {
      case Arrives(req, port) =>
        ReceiveKeeps(a, req, port, now);
      case Dial(id) =>
        EndedFollow(a);
        if id !in a.calls {
          var c := Call(id, false, Calling, None, None, false, None, T1, 0.0, true, None, None, false, false, 0);
          FreshSound(c);
          AddKeeps(a, Step(a, e, now), c);
        }
      case _ =>
        EndedFollow(a);
        if e.call < |a.objs| {
          SoundAt(a, e.call);
          OnCallFine(a.objs[e.call], a.wire, e, now, a.udp);
          PutKeeps(a, e.call, OnCall(a.objs[e.call], a.wire, e, now, a.udp));
        }
    }
  }

  lemma KeepsIndexed(a: Account)
    requires Keeps(a)
    ensures Indexed(a)
  {
  }

  lemma SoundAt(a: Account, i: nat)
    requires Keeps(a) && i < |a.objs|
    ensures Sound(a.objs[i])
  {
  }

  // ---- Runs ----

  /** All events of a run, one after the other. */
  function Run(a: Account, events: seq<Timed>): (b: Account)
    requires Keeps(a)
    ensures Keeps(b)
    decreases |events|
  {
    if events == [] then a
    else
      StepKeeps(a, events[0].event, events[0].at);
      KeepsIndexed(a);
      Run(Step(a, events[0].event, events[0].at), events[1..])
  }

  lemma InitialKeeps(udp: bool, hook: bool)
    ensures Keeps(Initial(udp, hook))
  {
  }

  lemma {:induction false} RunDevelops(a: Account, events: seq<Timed>)
    requires Keeps(a)
    ensures Develops(a, Run(a, events))
    decreases |events|
  {
    hide Step, Keeps, Develops;
    if events == [] {
      EndedFollow(a);
    } else {
      KeepsIndexed(a);
      StepKeeps(a, events[0].event, events[0].at);
      var next := Step(a, events[0].event, events[0].at);
      RunDevelops(next, events[1..]);
      DevelopsOn(a, next, Run(next, events[1..]));
    }
  }

  /** At the end of any run, a call that has ended is out of `_calls`, holds no RTP and no timer, and both its
      futures are resolved; a call that has not is registered and its media is open. */
  lemma EndedCallsLetGo(udp: bool, hook: bool, events: seq<Timed>, i: nat)
    ensures Keeps(Initial(udp, hook))
    ensures var a := Run(Initial(udp, hook), events);
            i < |a.objs| ==>
              var c := a.objs[i];
              && (c.phase == Terminated <==> !(c.id in a.calls && a.calls[c.id] == i))
              && (c.phase == Terminated ==> !c.rtp && c.timer.None? && c.answered.Some? && c.ended.Some?)
              && (c.phase != Terminated ==> c.rtp && c.ended.None?)
              && (c.phase == Terminated && (c.incoming || c.answered != Some(200)) ==>
                   c.answered == Some(if c.ended.value >= 300 then c.ended.value else 487))
              && (c.phase != Terminated ==>
                   c.answered == if !c.incoming && c.phase == Connected then Some(200) else None)
  {
    InitialKeeps(udp, hook);
    var a := Run(Initial(udp, hook), events);
    if i < |a.objs| {
      assert Sound(a.objs[i]);
    }
  }

  /** However a run goes on, a resolved future keeps its value and an ended call stays ended. */
  lemma FuturesResolveOnce(udp: bool, hook: bool, events: seq<Timed>, more: seq<Timed>, i: nat)
    ensures Keeps(Initial(udp, hook))
    ensures var a := Run(Initial(udp, hook), events); var b := Run(a, more);
            i < |a.objs| ==>
              && i < |b.objs| && b.objs[i].id == a.objs[i].id
              && (a.objs[i].answered.Some? ==> b.objs[i].answered == a.objs[i].answered)
              && (a.objs[i].ended.Some? ==> b.objs[i].ended == a.objs[i].ended)
              && (a.objs[i].phase == Terminated ==> b.objs[i].phase == Terminated)
  {
    InitialKeeps(udp, hook);
    var a := Run(Initial(udp, hook), events);
    RunDevelops(a, more);
    if i < |a.objs| {
      assert Follows(a.objs[i], Run(a, more).objs[i]);
    }
  }
}
