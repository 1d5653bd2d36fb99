/** `SipCall` and `SipAccount` (sipgram/sip/account.py) as objects that change in place, proved against the
    transition system of module UserAgents. */
module UserAgentObjects {
  import opened Options
  import opened UserAgents

  class SipCall {
    const account: SipAccount
    const id: Name
    const incoming: bool
    var phase: Phase
    var invite: Option<Request>
    var lastFinal: Option<Response>
    var acked: bool
    var timer: Option<real>
    var interval: real
    var deadline: real
    var rtp: bool
    var answered: Option<nat>
    var ended: Option<nat>
    var cancelled: bool
    var pending: bool
    var version: nat

    function View(): Call
      reads this
    {
      Call(id, incoming, phase, invite, lastFinal, acked, timer, interval, deadline, rtp, answered, ended, cancelled,
           pending, version)
    }

    constructor (account: SipAccount, req: Request)
      ensures View()
              == Call(req.callId, true, New, Some(req), None, false, None, T1, 0.0, true, None, None, false, false, 0)
      ensures this.account == account
    {
      this.account, id, incoming := account, req.callId, true;
      phase, invite, lastFinal, acked, timer := New, Some(req), None, false, None;
      interval, deadline, rtp, answered, ended := T1, 0.0, true, None, None;
      cancelled, pending, version := false, false, 0;
    }

    /** `_set_state` */
    method SetState(state: Phase)
      modifies `phase
      ensures View() == SetPhase(old(View()), state)
    {
      if phase == state || phase == Terminated {
        return;
      }
      phase := state;
    }

    /** `_terminate` */
    method End(code: nat)
      modifies this, account`calls, account`index
      ensures View() == Terminate(old(View()), code)
      ensures account.Dropped(old(account.calls), old(account.index), id, old(phase), phase)
    {
      if phase == Terminated {
        return;
      }
      timer := None;
      rtp := false;
      if answered.None? {
        answered := Some(if code >= 300 then code else 487);
      }
      account.calls := account.calls - {id};
      account.index := account.index - {id};
      phase := Terminated;
      if ended.None? {
        ended := Some(code);
      }
    }

    /** `_send_final` */
    method SendFinalResponse(r: Response, now: real)
      modifies this, account`serverTxns, account`log
      ensures Side(View(), account.Wire()) == SendFinal(old(View()), old(account.Wire()), r, now, account.udp)
    {
      lastFinal := Some(r);
      acked := false;
      interval := T1;
      deadline := now + TIMER_B;
      account.SendResponse(r, now);
      if account.udp {
        timer := Some(now + interval);
      }
    }

    /** `ringing` */
    method Ringing(now: real)
      modifies this, account`serverTxns, account`log
      ensures Side(View(), account.Wire()) == Ring(old(View()), old(account.Wire()), now)
    {
      if incoming && (phase == New || phase == Phase.Ringing) && invite.Some? {
        account.SendResponse(Response(invite.value, 180, 0), now);
        SetState(Phase.Ringing);
      }
    }

    /** `answer` */
    method Accept(now: real)
      modifies this, account`serverTxns, account`log
      ensures Side(View(), account.Wire()) == Answer(old(View()), old(account.Wire()), now, account.udp)
    {
      if !incoming || invite.None? || phase == Connected || phase == Terminated {
        return;
      }
      SendFinalResponse(Response(invite.value, 200, version), now);
      SetState(Connected);
    }

    /** `reject`, and `redirect` with 302 */
    method Refuse(code: FinalCode, now: real)
      modifies this, account`serverTxns, account`log, account`calls, account`index
      ensures Side(View(), account.Wire()) == Reject(old(View()), old(account.Wire()), code, now, account.udp)
      ensures account.Dropped(old(account.calls), old(account.index), id, old(phase), phase)
    {
      hide Respond;
      if !incoming || invite.None? || phase == Connected || phase == Terminated {
        return;
      }
      SendFinalResponse(Response(invite.value, code, 0), now);
      End(code);
    }

    /** `hangup`; the BYE or CANCEL it sends is a client transaction. */
    method HangUp(code: FinalCode, now: real)
      modifies this, account`serverTxns, account`log, account`calls, account`index
      ensures Side(View(), account.Wire()) == Hangup(old(View()), old(account.Wire()), code, now, account.udp)
      ensures account.Dropped(old(account.calls), old(account.index), id, old(phase), phase)
    {
      hide Respond, Reject, Terminate;
      if phase == Terminated {
        return;
      }
      if incoming && (phase == New || phase == Phase.Ringing) {
        Refuse(code, now);
        return;
      }
      if !incoming && phase != Connected {
        cancelled := true;
        End(487);
        return;
      }
      End(0);
    }

    /** `_retransmit_final` */
    method RetransmitFinal(now: real)
      requires timer.Some? && now >= timer.value
      modifies this, account`serverTxns, account`log, account`calls, account`index
      ensures Side(View(), account.Wire()) == Fire(old(View()), old(account.Wire()), now, account.udp)
      ensures account.Dropped(old(account.calls), old(account.index), id, old(phase), phase)
    {
      hide Respond, Hangup;
      timer := None;
      if acked || phase == Terminated || lastFinal.None? {
        return;
      }
      if now > deadline {
        if lastFinal.value.code == 200 {
          HangUp(486, now);
        }
        return;
      }
      account.SendResponse(lastFinal.value, now);
      interval := if interval * 2.0 < T2 then interval * 2.0 else T2;
      timer := Some(now + interval);
    }
  }

  ghost function Views(objs: seq<SipCall>): (views: seq<Call>)
    reads objs
    ensures |views| == |objs| && forall i :: 0 <= i < |objs| ==> views[i] == objs[i].View()
  {
    seq(|objs|, i requires 0 <= i < |objs| reads objs => objs[i].View())
  }

  /** `_calls` points at objects of the account, which are all distinct. */
  ghost predicate Tidy(account: SipAccount, calls: map<Name, SipCall>, index: map<Name, nat>, objs: seq<SipCall>) {
    && calls.Keys == index.Keys
    && (forall id :: id in index ==> index[id] < |objs| && objs[index[id]] == calls[id])
    && (forall i :: 0 <= i < |objs| ==> objs[i].account == account)
    && (forall i, j :: 0 <= i < j < |objs| ==> objs[i] != objs[j])
  }

  lemma TidyAt(account: SipAccount, calls: map<Name, SipCall>, index: map<Name, nat>, objs: seq<SipCall>, id: Name)
    requires Tidy(account, calls, index, objs) && id in calls
    ensures id in index && index[id] < |objs| && objs[index[id]] == calls[id] && calls[id].account == account
    ensures forall j :: 0 <= j < |objs| && j != index[id] ==> objs[j] != calls[id]
  {
  }

  lemma TidyLast(account: SipAccount, calls: map<Name, SipCall>, index: map<Name, nat>, objs: seq<SipCall>)
    requires Tidy(account, calls, index, objs) && objs != []
    ensures objs[|objs| - 1].account == account
    ensures forall j :: 0 <= j < |objs| - 1 ==> objs[j] != objs[|objs| - 1]
  {
  }

  lemma TidyDrop(account: SipAccount, calls: map<Name, SipCall>, index: map<Name, nat>, objs: seq<SipCall>, id: Name)
    requires Tidy(account, calls, index, objs)
    ensures Tidy(account, calls - {id}, index - {id}, objs)
  {
  }

  lemma TidyAdd(account: SipAccount, calls: map<Name, SipCall>, index: map<Name, nat>, objs: seq<SipCall>, id: Name,
                call: SipCall)
    requires Tidy(account, calls, index, objs) && call.account == account && call !in objs
    ensures Tidy(account, calls[id := call], index[id := |objs|], objs + [call])
  {
    var all := objs + [call];
    forall i, j | 0 <= i < j < |all| ensures all[i] != all[j] {
      assert all[i] == objs[i];
    }
  }

  lemma TidyIndexed(account: SipAccount, calls: map<Name, SipCall>, index: map<Name, nat>, objs: seq<SipCall>)
    requires Tidy(account, calls, index, objs)
    ensures calls.Keys == index.Keys && forall id :: id in index ==> index[id] < |objs|
  {
  }

  class SipAccount {
    const udp: bool
    const hook: bool
    var calls: map<Name, SipCall>
    var serverTxns: map<Key, Entry>
    var log: seq<Mark>
    /** Every call ever registered, and where the registered ones are. */
    ghost var objs: seq<SipCall>
    ghost var index: map<Name, nat>
    ghost var upcalls: seq<Upcall>

    function Wire(): Wire
      reads `serverTxns, `log
    {
      UserAgents.Wire(serverTxns, log)
    }

    /** The call has left `_calls` if it ended just now, and nothing else has. */
    ghost predicate Dropped(before: map<Name, SipCall>, indexBefore: map<Name, nat>, id: Name, was: Phase, phase: Phase)
      reads `calls, `index
    {
      if phase == Terminated && was != Terminated then calls == before - {id} && index == indexBefore - {id}
      else calls == before && index == indexBefore
    }

    ghost predicate Valid()
      reads `calls, `index, `objs
    {
      Tidy(this, calls, index, objs)
    }

    ghost function Objects(): (views: seq<Call>)
      reads `objs, objs
      ensures |views| == |objs| && forall i :: 0 <= i < |objs| ==> views[i] == objs[i].View()
    {
      Views(objs)
    }

    ghost function View(): Account
      reads this, objs
    {
      Account(udp, hook, Objects(), index, Wire(), upcalls)
    }

    constructor (udp: bool, hook: bool)
      ensures Valid() && View() == Initial(udp, hook)
    {
      this.udp, this.hook := udp, hook;
      calls, serverTxns, log := map[], map[], [];
      objs, index, upcalls := [], map[], [];
    }

    /** `_send_response` */
    method SendResponse(r: Response, now: real)
      modifies `serverTxns, `log
      ensures Wire() == Respond(old(Wire()), r, now)
    {
      if r.code >= 200 || r.to.cseqVerb == Invite {
        serverTxns := serverTxns[r.to.Txn() := Entry(r, now)];
      }
      log := log + [Sent(r, now)];
    }

    /** The sweep over `list(_server_txns.items())`. */
    method Sweep(now: real)
      modifies `serverTxns
      ensures serverTxns == Purge(old(serverTxns), now)
    {
      var keys := serverTxns.Keys;
      while keys != {}
        invariant serverTxns.Keys <= old(serverTxns).Keys && keys <= old(serverTxns).Keys
        invariant forall k :: k in serverTxns ==> serverTxns[k] == old(serverTxns)[k]
        invariant forall k :: k in keys ==> k in serverTxns
        invariant forall k :: k in old(serverTxns) && k !in keys ==>
                    (k in serverTxns <==> now - old(serverTxns)[k].at <= TIMER_B)
        decreases |keys|
      {
        var k :| k in keys;
        if now - serverTxns[k].at > TIMER_B {
          serverTxns := serverTxns - {k};
        }
        keys := keys - {k};
      }
    }

    /** `_handle_reinvite` */
    method HandleReinvite(call: SipCall, req: Request, now: real)
      requires call.account == this
      modifies this`serverTxns, this`log, call
      ensures Side(call.View(), Wire()) == Reinvite(old(call.View()), old(Wire()), req, now, udp)
    {
      hide Respond;
      if call.phase != Connected || call.pending {
        SendResponse(Response(req, 491, 0), now);
        return;
      }
      call.invite := Some(req);
      if req.body != Empty {
        call.version := call.version + 1;
      }
      call.SendFinalResponse(Response(req, 200, call.version), now);
    }

    /** `_handle_ack` */
    method HandleAck(call: SipCall)
      modifies call
      ensures call.View() == Acked(old(call.View()))
    {
      call.acked := true;
      if call.timer.Some? {
        call.timer := None;
      }
      if call.phase != Terminated && call.lastFinal.Some? && call.lastFinal.value.code == 200 {
        call.SetState(Connected);
      }
    }

    /** `_handle_cancel` on a call it applies to */
    method CancelCall(call: SipCall, req: Request, now: real)
      requires call.account == this && Open(call.View())
      modifies this`serverTxns, this`log, this`calls, this`index, call
      ensures Side(call.View(), Wire()) == CancelOpen(old(call.View()), old(Wire()), req, now)
      ensures Dropped(old(calls), old(index), call.id, old(call.phase), call.phase)
    {
      hide Respond;
      SendResponse(Response(req, 200, 0), now);
      if call.invite.Some? {
        SendResponse(Response(call.invite.value, 487, 0), now);
      }
      call.cancelled := true;
      call.End(487);
    }

    /** A new call enters `_calls`. */
    method Register(req: Request) returns (call: SipCall)
      requires Valid() && req.callId !in calls
      modifies `calls, `index, `objs
      ensures Valid() && fresh(call) && objs == old(objs) + [call] && call.account == this
      ensures call.id == req.callId
      ensures var c := Call(req.callId, true, New, Some(req), None, false, None, T1, 0.0, true, None, None, false,
                            false, 0);
              View() == old(View()).(objs := old(View()).objs + [c], calls := old(index)[req.callId := |old(objs)|])
    {
      hide Tidy, Views;
      call := new SipCall(this, req);
      TidyAdd(this, calls, index, objs, req.callId, call);
      calls := calls[req.callId := call];
      index := index[req.callId := |objs|];
      objs := objs + [call];
      MoreViews(old(objs), call);
    }

    /** A reply that involves no call, and an upcall. */
    method Answered(req: Request, code: nat, now: real)
      modifies this`serverTxns, this`log
      ensures View() == Reply(old(View()), req, code, now)
    {
      hide Respond, Views;
      SendResponse(Response(req, code, 0), now);
    }

    ghost method Note(u: Upcall)
      modifies this`upcalls
      ensures View() == old(View()).(upcalls := old(upcalls) + [u])
    {
      hide Views;
      upcalls := upcalls + [u];
    }

    /** The hook is told of a new call; without one it is refused. */
    method Present(call: SipCall, now: real)
      requires Valid() && objs != [] && call == objs[|objs| - 1]
      modifies this`serverTxns, this`log, this`calls, this`index, this`upcalls, call
      ensures Valid() && objs == old(objs)
      ensures View() == if hook then old(View()).(upcalls := old(upcalls) + [IncomingCall(|objs| - 1)])
                        else Put(old(View()), |objs| - 1, Reject(old(call.View()), old(Wire()), 480, now, udp))
    {
      hide Respond, Reject, Views, Put, Tidy;
      ghost var a, i := View(), |objs| - 1;
      TidyLast(this, calls, index, objs);
      TidyDrop(this, calls, index, objs, call.id);
      if hook {
        Note(IncomingCall(|objs| - 1));
      } else {
        RejectKeepsId(call.View(), Wire(), 480, now, udp);
        call.Refuse(480, now);
        OneView(objs, a.objs, i, call.View());
        PutView(a, i, Side(call.View(), Wire()), View());
      }
    }

    /** `_handle_new_invite` */
    method HandleNewInvite(req: Request, port: bool, now: real)
      requires Valid() && req.callId !in calls
      modifies this
      ensures Valid() && View() == NewInvite(old(View()), req, port, now)
    {
      hide Respond, Reject, Views, Put, Tidy;
      if req.body == Empty {
        Answered(req, 488, now);
        return;
      }
      Answered(req, 100, now);
      if !port {
        Answered(req, 503, now);
        return;
      }
      if req.body != Offer(true) {
        Answered(req, 488, now);
        return;
      }
      var call := Register(req);
      Present(call, now);
    }

    method Reinvited(call: SipCall, req: Request, now: real)
      requires Valid() && req.callId in calls && call == calls[req.callId]
      modifies this`serverTxns, this`log, call
      ensures Valid() && index[req.callId] < |objs|
      ensures View() == Put(old(View()), index[req.callId], Reinvite(old(call.View()), old(Wire()), req, now, udp))
    {
      hide Tidy, Respond, Views, Put;
      TidyAt(this, calls, index, objs, req.callId);
      TidyDrop(this, calls, index, objs, call.id);
      ghost var a, i := View(), index[req.callId];
      HandleReinvite(call, req, now);
      OneView(objs, a.objs, i, call.View());
      PutView(a, i, Side(call.View(), Wire()), View());
    }

    method Acknowledged(call: SipCall, req: Request)
      requires Valid() && req.callId in calls && call == calls[req.callId]
      modifies call
      ensures Valid() && index[req.callId] < |objs|
      ensures View() == Put(old(View()), index[req.callId], Side(Acked(old(call.View())), old(Wire())))
    {
      hide Tidy, Views, Put;
      TidyAt(this, calls, index, objs, req.callId);
      TidyDrop(this, calls, index, objs, call.id);
      ghost var a, i := View(), index[req.callId];
      HandleAck(call);
      OneView(objs, a.objs, i, call.View());
      PutView(a, i, Side(call.View(), Wire()), View());
    }

    method Cancelled(call: SipCall, req: Request, now: real)
      requires Valid() && req.callId in calls && call == calls[req.callId] && Open(call.View())
      modifies this`serverTxns, this`log, this`calls, this`index, call
      ensures Valid() && old(index)[req.callId] < |objs| && objs == old(objs)
      ensures View() == Put(old(View()), old(index)[req.callId], CancelOpen(old(call.View()), old(Wire()), req, now))
    {
      hide Tidy, Respond, Views, Put, CancelOpen;
      TidyAt(this, calls, index, objs, req.callId);
      TidyDrop(this, calls, index, objs, call.id);
      ghost var a, i := View(), index[req.callId];
      CancelCall(call, req, now);
      OneView(objs, a.objs, i, call.View());
      PutView(a, i, Side(call.View(), Wire()), View());
    }

    method ByeReceived(call: SipCall, req: Request, now: real)
      requires Valid() && req.callId in calls && call == calls[req.callId]
      modifies this`serverTxns, this`log, this`calls, this`index, call
      ensures Valid() && old(index)[req.callId] < |objs| && objs == old(objs)
      ensures View() == Put(old(View()), old(index)[req.callId],
                            Side(Terminate(old(call.View()), 0), Respond(old(Wire()), Response(req, 200, 0), now)))
    {
      hide Tidy, Respond, Views, Put, Terminate;
      TidyAt(this, calls, index, objs, req.callId);
      TidyDrop(this, calls, index, objs, call.id);
      ghost var a, i := View(), index[req.callId];
      SendResponse(Response(req, 200, 0), now);
      call.End(0);
      OneView(objs, a.objs, i, call.View());
      PutView(a, i, Side(call.View(), Wire()), View());
    }

    method Updated(call: SipCall, req: Request, now: real)
      requires Valid() && req.callId in calls && call == calls[req.callId]
      modifies this`serverTxns, this`log, call
      ensures Valid() && index[req.callId] < |objs|
      ensures var c := old(call.View());
              View() == Put(old(View()), index[req.callId],
                            Side(c.(version := c.version + 1),
                                 Respond(old(Wire()), Response(req, 200, c.version + 1), now)))
    {
      hide Tidy, Respond, Views, Put;
      TidyAt(this, calls, index, objs, req.callId);
      TidyDrop(this, calls, index, objs, call.id);
      ghost var a, i := View(), index[req.callId];
      call.version := call.version + 1;
      SendResponse(Response(req, 200, call.version), now);
      OneView(objs, a.objs, i, call.View());
      PutView(a, i, Side(call.View(), Wire()), View());
    }

    /** The dispatch of `_handle_request` for a Call-ID that is not in `_calls`. */
    method DispatchUnknown(req: Request, port: bool, now: real)
      requires Valid() && req.callId !in calls
      modifies this
      ensures Valid() && Indexed(old(View())) && View() == Dispatch(old(View()), req, port, now)
    {
      hide Tidy, Respond, NewInvite, Views, Reinvite, Acked, CancelOpen, Terminate, Put;
      TidyIndexed(this, calls, index, objs);
      match req.verb {
        case Invite => HandleNewInvite(req, port, now);
        case Ack =>
        case Cancel => Answered(req, 481, now);
        case Bye => Answered(req, 481, now);
        case Options => Answered(req, 200, now);
        case Info => Answered(req, 200, now);
        case Update => Answered(req, 200, now);
        case Notify => Answered(req, 200, now);
        case Text =>
          Answered(req, 200, now);
          Note(TextReceived(req));
        case NotImplemented => Answered(req, 501, now);
        case Unknown(_) => Answered(req, 405, now);
      }
    }

    /** The dispatch for a call that is registered: the requests that change it. */
    method DispatchCall(req: Request, call: SipCall, port: bool, now: real)
      requires Valid() && req.callId in calls && call == calls[req.callId]
      requires req.verb == Invite || req.verb == Ack || req.verb == Bye || (req.verb == Cancel && Open(call.View()))
               || (req.verb == Update && req.body != Empty)
      modifies this, call
      ensures Valid() && Indexed(old(View())) && View() == Dispatch(old(View()), req, port, now)
    {
      hide Tidy, Respond, NewInvite, Views, Reinvite, Acked, CancelOpen, Terminate, Put;
      TidyIndexed(this, calls, index, objs);
      TidyAt(this, calls, index, objs, req.callId);
      PutReply(View(), req, index[req.callId], now);
      if req.verb == Invite {
        Reinvited(call, req, now);
      } else if req.verb == Ack {
        Acknowledged(call, req);
      } else if req.verb == Cancel {
        Cancelled(call, req, now);
      } else if req.verb == Bye {
        ByeReceived(call, req, now);
      } else {
        Updated(call, req, now);
      }
    }

    /** And those that do not. */
    method DispatchOther(req: Request, call: SipCall, port: bool, now: real)
      requires Valid() && req.callId in calls && call == calls[req.callId]
      requires req.verb != Invite && req.verb != Ack && req.verb != Bye && !(req.verb == Cancel && Open(call.View()))
               && !(req.verb == Update && req.body != Empty)
      modifies this
      ensures Valid() && Indexed(old(View())) && View() == Dispatch(old(View()), req, port, now)
    {
      hide Tidy, Respond, NewInvite, Views, Reinvite, Acked, CancelOpen, Terminate, Put;
      TidyIndexed(this, calls, index, objs);
      TidyAt(this, calls, index, objs, req.callId);
      var code := match req.verb
        case Cancel => 481
        case NotImplemented => 501
        case Unknown(_) => 405
        case _ => 200;
      Answered(req, code, now);
      if req.verb == Info && req.body == Digit {
        Note(InfoDigit(index[req.callId], req));
      } else if req.verb == Notify && req.body == Fragment {
        Note(ReferProgress(index[req.callId], req));
      } else if req.verb == Text {
        Note(TextReceived(req));
      }
    }

    /** `_handle_request` */
    method HandleRequest(req: Request, port: bool, now: real)
      requires Valid()
      modifies this, calls.Values
      ensures Valid() && Indexed(old(View())) && View() == Receive(old(View()), req, port, now)
    {
      hide Tidy, Respond, Dispatch, Views, Purge;
      TidyIndexed(this, calls, index, objs);
      Sweep(now);
      if req.cseqVerb == req.verb && req.Txn() in serverTxns && req.verb != Ack {
        log := log + [Replayed(serverTxns[req.Txn()].response)];
        return;
      }
      if req.verb != Ack {
        log := log + [Handled(req.Txn(), now)];
      }
      if req.callId in calls {
        var call := calls[req.callId];
        if req.verb == Invite || req.verb == Ack || req.verb == Bye || (req.verb == Cancel && Open(call.View()))
           || (req.verb == Update && req.body != Empty) {
          DispatchCall(req, call, port, now);
        } else {
          DispatchOther(req, call, port, now);
        }
      } else {
        DispatchUnknown(req, port, now);
      }
    }
  }

  lemma MoreViews(objs: seq<SipCall>, call: SipCall)
    ensures Views(objs + [call]) == Views(objs) + [call.View()]
  {
  }

  /** One object of the list has changed. */
  lemma OneView(objs: seq<SipCall>, before: seq<Call>, i: nat, c: Call)
    requires |before| == |objs| && i < |objs| && objs[i].View() == c
    requires forall j :: 0 <= j < |objs| && j != i ==> objs[j].View() == before[j]
    ensures Views(objs) == before[i := c]
  {
  }

  lemma PutView(a: Account, i: nat, side: Side, b: Account)
    requires i < |a.objs| && b.udp == a.udp && b.hook == a.hook && b.upcalls == a.upcalls
    requires b.objs == a.objs[i := side.call] && b.wire == side.wire
    requires b.calls == if side.call.phase == Terminated && a.objs[i].phase != Terminated then a.calls - {a.objs[i].id}
            else a.calls
    ensures b == Put(a, i, side)
  {
  }

  lemma PutReply(a: Account, req: Request, i: nat, now: real)
    requires i < |a.objs|
    ensures forall side :: Put(Reply(a, req, 200, now), i, side) == Put(a, i, side)
  {
    hide Respond;
  }

  lemma RejectKeepsId(c: Call, w: Wire, code: FinalCode, now: real, udp: bool)
    ensures Reject(c, w, code, now, udp).call.id == c.id
  {
    hide Respond;
  }
}
