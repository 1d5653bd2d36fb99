/** The server side of the SIP user agent (sipgram/sip/account.py) as a transition system: the
    response cache, the INVITE dialogs, their timers and what the application does to them. */
module UserAgents {
  import opened Options

  /** Call-IDs and branches are only ever compared, so a number stands for each. */
  type Name = nat

  type FinalCode = n: nat | 300 <= n < 700 witness 486

  /** Seconds. */
  const T1: real := 0.5
  const T2: real := 4.0
  const TIMER_B: real := 32.0

  // ---- Messages ----

  datatype Verb =
    Invite | Ack | Cancel | Bye | Options | Info | Update | Notify | Text | NotImplemented | Unknown(name: Name)

  /** What a handler looks at in a body; `shared` says whether the offer holds a codec we support. */
  datatype Body = Empty | Offer(shared: bool) | Digit | Fragment | Other

  datatype Key = Key(branch: Name, verb: Verb)

  datatype Request = Request(verb: Verb, callId: Name, branch: Name, cseqVerb: Verb, body: Body) {
    /** The server transaction the request belongs to. */
    function Txn(): Key {
      Key(branch, cseqVerb)
    }
  }

  /** `sdp` is the session version of the description in the body, 0 without one. */
  datatype Response = Response(to: Request, code: nat, sdp: nat)

  // ---- State ----

  datatype Phase = New | Calling | Ringing | Early | Connected | Terminated

  datatype Call = Call(id: Name, incoming: bool, phase: Phase, invite: Option<Request>, lastFinal: Option<Response>,
                       acked: bool, timer: Option<real>, interval: real, deadline: real, rtp: bool,
                       answered: Option<nat>, ended: Option<nat>, cancelled: bool, pending: bool, version: nat)

  datatype Entry = Entry(response: Response, at: real)

  /** What happens on the wire: a request is taken up, answered, or answered again from the cache. */
  datatype Mark = Handled(key: Key, at: real) | Sent(response: Response, at: real) | Replayed(response: Response)

  datatype Wire = Wire(cache: map<Key, Entry>, log: seq<Mark>)

  datatype Upcall = IncomingCall(call: nat) | InfoDigit(call: nat, req: Request) | TextReceived(req: Request)
    | ReferProgress(call: nat, req: Request)

  /** `calls` is `_calls`; `objs` holds every SipCall ever registered, ended ones included. */
  datatype Account = Account(udp: bool, hook: bool, objs: seq<Call>, calls: map<Name, nat>, wire: Wire,
                             upcalls: seq<Upcall>)

  function Initial(udp: bool, hook: bool): Account {
    Account(udp, hook, [], map[], Wire(map[], []), [])
  }

  // ---- Responses ----

  predicate Cacheable(r: Response) {
    r.code >= 200 || r.to.cseqVerb == Invite
  }

  /** `_send_response`. */
  function Respond(w: Wire, r: Response, now: real): Wire {
    Wire(if Cacheable(r) then w.cache[r.to.Txn() := Entry(r, now)] else w.cache, w.log + [Sent(r, now)])
  }

  /** The sweep at the head of `_handle_request`. */
  function Purge(cache: map<Key, Entry>, now: real): map<Key, Entry> {
    map k | k in cache && now - cache[k].at <= TIMER_B :: cache[k]
  }

  // ---- One call and the wire ----

  datatype Side = Side(call: Call, wire: Wire)

  /** `_terminate`; the account drops the call with `Put`. */
  function Terminate(c: Call, code: nat): Call {
    if c.phase == Terminated then c
    else
      c.(phase := Terminated, timer := None, rtp := false,
         answered := if c.answered.Some? then c.answered else Some(if code >= 300 then code else 487),
         ended := if c.ended.Some? then c.ended else Some(code))
  }

  function SetPhase(c: Call, phase: Phase): Call {
    if c.phase == Terminated then c else c.(phase := phase)
  }

  /** `_send_final`. */
  function SendFinal(c: Call, w: Wire, r: Response, now: real, udp: bool): Side {
    Side(c.(lastFinal := Some(r), acked := false, interval := T1, deadline := now + TIMER_B,
            timer := if udp then Some(now + T1) else c.timer),
         Respond(w, r, now))
  }

  predicate Open(c: Call) {
    c.incoming && (c.phase == New || c.phase == Ringing)
  }

  /** The guard shared by `answer`, `reject` and `redirect`. */
  predicate Answerable(c: Call) {
    c.incoming && c.invite.Some? && c.phase != Connected && c.phase != Terminated
  }

  function Ring(c: Call, w: Wire, now: real): Side {
    if c.invite.Some? && Open(c) then Side(SetPhase(c, Ringing), Respond(w, Response(c.invite.value, 180, 0), now))
    else Side(c, w)
  }

  function Answer(c: Call, w: Wire, now: real, udp: bool): Side {
    if !Answerable(c) then Side(c, w)
    else
      var side := SendFinal(c, w, Response(c.invite.value, 200, c.version), now, udp);
      side.(call := SetPhase(side.call, Connected))
  }

  /** `reject`, and `redirect` with code 302. */
  function Reject(c: Call, w: Wire, code: FinalCode, now: real, udp: bool): Side {
    if !Answerable(c) then Side(c, w)
    else
      var side := SendFinal(c, w, Response(c.invite.value, code, 0), now, udp);
      side.(call := Terminate(side.call, code))
  }

  function Hangup(c: Call, w: Wire, code: FinalCode, now: real, udp: bool): Side {
    if c.phase == Terminated then Side(c, w)
    else if Open(c) then Reject(c, w, code, now, udp)
    else if !c.incoming && c.phase != Connected then Side(Terminate(c.(cancelled := true), 487), w)
    else Side(Terminate(c, 0), w)
  }

  /** `_retransmit_final`, when its timer fires. */
  function Fire(c: Call, w: Wire, now: real, udp: bool): Side {
    var idle := c.(timer := None);
    if c.timer.None? || now < c.timer.value then Side(c, w)
    else if c.acked || c.phase == Terminated || c.lastFinal.None? then Side(idle, w)
    else if now > c.deadline then
      if c.lastFinal.value.code == 200 then Hangup(idle, w, 486, now, udp) else Side(idle, w)
    else
      var interval := if c.interval * 2.0 < T2 then c.interval * 2.0 else T2;
      Side(c.(interval := interval, timer := Some(now + interval)), Respond(w, c.lastFinal.value, now))
  }

  /** `_handle_reinvite`. */
  function Reinvite(c: Call, w: Wire, req: Request, now: real, udp: bool): Side {
    if c.phase != Connected || c.pending then Side(c, Respond(w, Response(req, 491, 0), now))
    else
      var updated := c.(invite := Some(req), version := if req.body == Empty then c.version else c.version + 1);
      SendFinal(updated, w, Response(req, 200, updated.version), now, udp)
  }

  /** `_handle_ack`. */
  function Acked(c: Call): Call {
    var quiet := c.(acked := true, timer := None);
    if c.lastFinal.Some? && c.lastFinal.value.code == 200 then SetPhase(quiet, Connected) else quiet
  }

  /** `_handle_cancel` on a call it applies to. */
  function CancelOpen(c: Call, w: Wire, req: Request, now: real): Side {
    var ok := Respond(w, Response(req, 200, 0), now);
    var w' := if c.invite.Some? then Respond(ok, Response(c.invite.value, 487, 0), now) else ok;
    Side(Terminate(c.(cancelled := true), 487), w')
  }

  // ---- The account ----

  /** Call i takes its new value; a call that has ended leaves `_calls`. */
  function Put(a: Account, i: nat, side: Side): Account
    requires i < |a.objs|
  {
    a.(objs := a.objs[i := side.call], wire := side.wire,
       calls := if side.call.phase == Terminated && a.objs[i].phase != Terminated then a.calls - {a.objs[i].id}
           else a.calls)
  }

  function Reply(a: Account, req: Request, code: nat, now: real): Account {
    a.(wire := Respond(a.wire, Response(req, code, 0), now))
  }

  /** `_handle_new_invite`; `port` says whether an RTP port could be bound. */
  function NewInvite(a: Account, req: Request, port: bool, now: real): Account {
    if req.body == Empty then Reply(a, req, 488, now)
    else
      var trying := Reply(a, req, 100, now);
      if !port then Reply(trying, req, 503, now)
      else if req.body != Offer(true) then Reply(trying, req, 488, now)
      else
        var c := Call(req.callId, true, New, Some(req), None, false, None, T1, 0.0, true, None, None, false, false, 0);
        var added := trying.(objs := a.objs + [c], calls := a.calls[req.callId := |a.objs|]);
        if a.hook then added.(upcalls := a.upcalls + [IncomingCall(|a.objs|)])
        else Put(added, |a.objs|, Reject(c, added.wire, 480, now, a.udp))
  }

  /** Calls in `_calls` are objects of `objs`. */
  predicate Indexed(a: Account) {
    forall id :: id in a.calls ==> a.calls[id] < |a.objs|
  }

  /** The dispatch of `_handle_request` once a request is taken up. */
  function Dispatch(a: Account, req: Request, port: bool, now: real): Account
    requires Indexed(a)
  {
    var known := req.callId in a.calls;
    match req.verb
    case Invite =>
      if known then Put(a, a.calls[req.callId], Reinvite(a.objs[a.calls[req.callId]], a.wire, req, now, a.udp))
      else NewInvite(a, req, port, now)
    case Ack =>
      if known then Put(a, a.calls[req.callId], Side(Acked(a.objs[a.calls[req.callId]]), a.wire)) else a
    case Cancel =>
      if known && Open(a.objs[a.calls[req.callId]])
      then Put(a, a.calls[req.callId], CancelOpen(a.objs[a.calls[req.callId]], a.wire, req, now))
      else Reply(a, req, 481, now)
    case Bye =>
      if known then Put(Reply(a, req, 200, now), a.calls[req.callId],
                        Side(Terminate(a.objs[a.calls[req.callId]], 0), Reply(a, req, 200, now).wire))
      else Reply(a, req, 481, now)
    case Options => Reply(a, req, 200, now)
    case Info =>
      var ok := Reply(a, req, 200, now);
      if known && req.body == Digit then ok.(upcalls := a.upcalls + [InfoDigit(a.calls[req.callId], req)]) else ok
    case Update =>
      if known && req.body != Empty then
        var c := a.objs[a.calls[req.callId]];
        var w := Respond(a.wire, Response(req, 200, c.version + 1), now);
        Put(a, a.calls[req.callId], Side(c.(version := c.version + 1), w))
      else Reply(a, req, 200, now)
    case Notify =>
      var ok := Reply(a, req, 200, now);
      if known && req.body == Fragment then ok.(upcalls := a.upcalls + [ReferProgress(a.calls[req.callId], req)])
          else ok
    case Text => Reply(a, req, 200, now).(upcalls := a.upcalls + [TextReceived(req)])
    case NotImplemented => Reply(a, req, 501, now)
    case Unknown(_) => Reply(a, req, 405, now)
  }

  /** A retransmission that the cache answers. */
  predicate Absorbed(a: Account, req: Request, now: real) {
    req.cseqVerb == req.verb && req.verb != Ack && req.Txn() in Purge(a.wire.cache, now)
  }

  function Swept(a: Account, now: real): Account {
    a.(wire := a.wire.(cache := Purge(a.wire.cache, now)))
  }

  function Marked(a: Account, m: Mark): Account {
    a.(wire := a.wire.(log := a.wire.log + [m]))
  }

  /** `_handle_request`. */
  function Receive(a: Account, req: Request, port: bool, now: real): Account
    requires Indexed(a)
  {
    var p := Swept(a, now);
    if Absorbed(a, req, now) then Marked(p, Replayed(p.wire.cache[req.Txn()].response))
    else if req.verb == Ack then Dispatch(p, req, port, now)
    else Dispatch(Marked(p, Handled(req.Txn(), now)), req, port, now)
  }

  /** Datagrams, what the application does to a call it holds, timers, and the client side's progress. */
  datatype Event =
    | Arrives(req: Request, port: bool)
    | RingIt(call: nat)
    | AnswerIt(call: nat)
    | RejectIt(call: nat, code: FinalCode)
    | HangUp(call: nat, code: FinalCode)
    | TimerFires(call: nat)
    | Dial(id: Name)
    | Progress(call: nat, phase: Phase)
    | Fail(call: nat, code: FinalCode)
    | Hold(call: nat, pending: bool)

  datatype Timed = Timed(event: Event, at: real)

  /** What an event other than a datagram does to the call it is about. */
  function OnCall(c: Call, w: Wire, e: Event, now: real, udp: bool): Side
    requires !e.Arrives? && !e.Dial?
  {
    match e
    case RingIt(_) => Ring(c, w, now)
    case AnswerIt(_) => Answer(c, w, now, udp)
    case RejectIt(_, code) => Reject(c, w, code, now, udp)
    case HangUp(_, code) => Hangup(c, w, code, now, udp)
    case TimerFires(_) => Fire(c, w, now, udp)
    case Progress(_, phase) =>
      if c.incoming || c.phase == Connected || phase == New || phase == Terminated then Side(c, w)
      else
        Side(SetPhase(c.(answered := if phase == Connected && c.answered.None? then Some(200) else c.answered), phase),
             w)
    case Fail(_, code) => if c.incoming || c.phase == Connected then Side(c, w) else Side(Terminate(c, code), w)
    case Hold(_, pending) =>
      if !pending then Side(c.(pending := false), w)
      else if c.phase == Connected && !c.pending then Side(c.(pending := true, version := c.version + 1), w)
      else Side(c, w)
  }

  function Step(a: Account, e: Event, now: real): Account
    requires Indexed(a)
  {
    match e
    case Arrives(req, port) => Receive(a, req, port, now)
    case Dial(id) =>
      if id in a.calls then a
      else
        var c := Call(id, false, Calling, None, None, false, None, T1, 0.0, true, None, None, false, false, 0);
        a.(objs := a.objs + [c], calls := a.calls[id := |a.objs|])
    case _ => if e.call < |a.objs| then Put(a, e.call, OnCall(a.objs[e.call], a.wire, e, now, a.udp)) else a
  }
}
