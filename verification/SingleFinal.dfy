/** Every server transaction emits provisional responses and then copies of one final response (sections 13.3.1 and
    17.2 of RFC 3261), as long as no request is taken up on it after its final response, or while a call may still send
    one. */
module SingleFinal {
  import opened Options
  import opened UserAgents
  import opened Dialogs
  import opened Duplicates

  // ---- What a transaction has put on the wire ----

  /** Transaction k is over 32 s after its last response; answers from the cache do not prolong it. */
  predicate Over(log: seq<Mark>, k: Key, now: real) {
    var latest := Latest(log, k);
    latest.Some? ==> now - latest.value.at > TIMER_B
  }

  /** What the caller has received on transaction k, copies from the cache included. A request that is taken up on a
      transaction that is over begins another; any other adds to it. */
  function Emitted(log: seq<Mark>, k: Key): seq<Response>
    decreases |log|
  {
    if log == [] then []
    else
      var before, m := log[..|log| - 1], log[|log| - 1];
      match m
      case Handled(key, at) => if key == k && Over(before, k, at) then [] else Emitted(before, k)
      case Sent(r, _) => Emitted(before, k) + (if r.to.Txn() == k then [r] else [])
      case Replayed(r) => Emitted(before, k) + (if r.to.Txn() == k then [r] else [])
  }

  /** After a final response there are only copies of it. */
  predicate OneFinal(responses: seq<Response>) {
    forall i, j :: 0 <= i < j < |responses| && responses[i].code >= 200 ==> responses[j] == responses[i]
  }

  predicate Provisional(responses: seq<Response>) {
    forall i :: 0 <= i < |responses| ==> responses[i].code < 200
  }

  lemma CopyLast(responses: seq<Response>)
    requires OneFinal(responses) && responses != []
    ensures OneFinal(responses + [responses[|responses| - 1]])
    ensures Provisional(responses) ==> Provisional(responses + [responses[|responses| - 1]])
  {
    var r := responses[|responses| - 1];
    var all := responses + [r];
    forall i, j | 0 <= i < j < |all| && all[i].code >= 200 ensures all[j] == all[i] {
      if j == |responses| && i < |responses| - 1 {
        assert responses[|responses| - 1] == responses[i];
      }
    }
  }

  lemma AfterProvisional(responses: seq<Response>, r: Response)
    requires Provisional(responses)
    ensures OneFinal(responses + [r])
    ensures r.code < 200 ==> Provisional(responses + [r])
  {
  }

  /** What the log and the cache say about one transaction. */
  datatype Track = Track(emitted: seq<Response>, cached: Option<Entry>)

  function TrackOf(w: Wire, k: Key): Track {
    Track(Emitted(w.log, k), if k in w.cache then Some(w.cache[k]) else None)
  }

  lemma EmittedSnoc(log: seq<Mark>, m: Mark, k: Key)
    ensures m.Handled? ==> Emitted(log + [m], k) == if m.key == k && Over(log, k, m.at) then [] else Emitted(log, k)
    ensures !m.Handled? ==>
            Emitted(log + [m], k) == Emitted(log, k) + (if m.response.to.Txn() == k then [m.response] else [])
  {
    hide Over;
    assert (log + [m])[..|log|] == log;
  }

  /** One more response of transaction k; provisional ones are remembered for an INVITE only. */
  function Grown(t: Track, r: Response, k: Key, now: real): Track {
    Track(t.emitted + [r], if r.code >= 200 || k.verb == Invite then Some(Entry(r, now)) else t.cached)
  }

  lemma RespondTrack(w: Wire, r: Response, now: real, k: Key)
    ensures TrackOf(Respond(w, r, now), k) == if r.to.Txn() == k then Grown(TrackOf(w, k), r, k, now) else TrackOf(w, k)
  {
    hide Emitted;
    EmittedSnoc(w.log, Sent(r, now), k);
  }

  /** A request that is taken up begins a new transaction exactly when the cache has nothing left of the old one. */
  lemma HandledTrack(w: Wire, key: Key, now: real, k: Key)
    requires Truthful(w, now) && Purge(w.cache, now) == w.cache
    ensures TrackOf(Wire(w.cache, w.log + [Handled(key, now)]), k)
            == if key == k && k !in w.cache then Track([], None) else TrackOf(w, k)
  {
    hide Emitted, Latest;
    assert Remembered(w, k, now);
    EmittedSnoc(w.log, Handled(key, now), k);
    assert k in w.cache ==> k in Purge(w.cache, now);
  }

  lemma ReplayedTrack(w: Wire, r: Response, k: Key)
    ensures TrackOf(Wire(w.cache, w.log + [Replayed(r)]), k)
            == if r.to.Txn() == k then Track(TrackOf(w, k).emitted + [r], TrackOf(w, k).cached) else TrackOf(w, k)
  {
    hide Emitted;
    EmittedSnoc(w.log, Replayed(r), k);
  }

  lemma PurgeTrack(w: Wire, now: real, k: Key)
    ensures var t := TrackOf(w, k);
            TrackOf(Wire(Purge(w.cache, now), w.log), k)
            == if t.cached.Some? && now - t.cached.value.at > TIMER_B then Track(t.emitted, None) else t
  {
    hide Emitted;
  }

  // ---- The invariant of one transaction ----

  predicate OpenOn(c: Call, k: Key) {
    Open(c) && c.invite.Some? && c.invite.value.Txn() == k
  }

  predicate TimerOn(c: Call, k: Key) {
    c.timer.Some? && c.lastFinal.Some? && c.lastFinal.value.to.Txn() == k
  }

  /** The cache holds the last response; an open call has no final response yet and the transaction to itself; a
      running retransmission timer either will not send again or still finds its response in the cache. */
  predicate Orderly(objs: seq<Call>, t: Track, k: Key, now: real) {
    && OneFinal(t.emitted)
    && (t.cached.Some? ==>
        && (t.cached.value.response.code >= 200 || k.verb == Invite) && t.cached.value.at <= now
        && t.emitted != [] && t.emitted[|t.emitted| - 1] == t.cached.value.response)
    && (forall i :: 0 <= i < |objs| && OpenOn(objs[i], k) ==> Provisional(t.emitted))
    && (forall i, j :: 0 <= i < |objs| && 0 <= j < |objs| && OpenOn(objs[i], k) && OpenOn(objs[j], k) ==> i == j)
    && (forall i :: 0 <= i < |objs| && TimerOn(objs[i], k) ==> Covered(objs[i], t, now))
  }

  /** A timer that will not send again: it is past its deadline, or will be when it fires. */
  predicate RunOut(c: Call, now: real) {
    c.timer.Some? ==> now > c.deadline || c.timer.value > c.deadline
  }

  predicate Covered(c: Call, t: Track, now: real)
    requires c.lastFinal.Some?
  {
    || RunOut(c, now)
    || (t.cached.Some? && t.cached.value.response == c.lastFinal.value && t.cached.value.at >= c.deadline - TIMER_B)
  }

  ghost predicate AllOrderly(a: Account, now: real) {
    forall k: Key :: Orderly(a.objs, TrackOf(a.wire, k), k, now)
  }

  // ---- Time and the cache ----

  lemma LaterOrderly(objs: seq<Call>, t: Track, k: Key, now: real, later: real)
    requires Orderly(objs, t, k, now) && now <= later
    ensures Orderly(objs, t, k, later)
  {
    hide OneFinal, OpenOn, TimerOn;
  }

  lemma PurgeOrderly(objs: seq<Call>, t: Track, k: Key, now: real)
    requires Orderly(objs, t, k, now) && t.cached.Some? && now - t.cached.value.at > TIMER_B
    ensures Orderly(objs, Track(t.emitted, None), k, now)
  {
    hide OneFinal, OpenOn, TimerOn;
  }

  lemma ReplayOrderly(objs: seq<Call>, t: Track, k: Key, now: real)
    requires Orderly(objs, t, k, now) && t.cached.Some?
    ensures Orderly(objs, Track(t.emitted + [t.cached.value.response], t.cached), k, now)
  {
    hide OneFinal, Provisional, OpenOn, TimerOn;
    CopyLast(t.emitted);
  }

  // ---- One call changes ----

  /** Nothing new about transaction k. */
  predicate Aloof(c: Call, later: Call, k: Key) {
    && (OpenOn(later, k) ==> OpenOn(c, k))
    && (TimerOn(later, k) ==>
        TimerOn(c, k) && later.lastFinal == c.lastFinal && later.deadline == c.deadline && later.timer == c.timer)
  }

  lemma AloofOrderly(objs: seq<Call>, i: nat, later: Call, t: Track, k: Key, now: real)
    requires Orderly(objs, t, k, now) && i < |objs| && Aloof(objs[i], later, k)
    ensures Orderly(objs[i := later], t, k, now)
  {
    hide OneFinal, Provisional, OpenOn, TimerOn;
  }

  /** Every remembered final response is one. */
  predicate Finals(objs: seq<Call>) {
    forall i :: 0 <= i < |objs| && objs[i].lastFinal.Some? ==> objs[i].lastFinal.value.code >= 200
  }

  /** While a call is open, every timer on its transaction has run out. */
  lemma NoCoverWhileOpen(objs: seq<Call>, i: nat, t: Track, k: Key, now: real)
    requires Orderly(objs, t, k, now) && Finals(objs) && i < |objs| && OpenOn(objs[i], k)
    ensures forall j :: 0 <= j < |objs| && TimerOn(objs[j], k) ==> RunOut(objs[j], now)
  {
    hide OneFinal, OpenOn;
  }

  /** A provisional response from the open call. */
  lemma RingOrderly(objs: seq<Call>, i: nat, later: Call, t: Track, k: Key, r: Response, now: real)
    requires Orderly(objs, t, k, now) && Finals(objs) && i < |objs|
    requires OpenOn(objs[i], k) && OpenOn(later, k) && !TimerOn(later, k) && r.code < 200
    ensures Orderly(objs[i := later], Grown(t, r, k, now), k, now)
  {
    hide OneFinal, OpenOn, TimerOn, Finals;
    AfterProvisional(t.emitted, r);
    NoCoverWhileOpen(objs, i, t, k, now);
  }

  /** A final response from the open call. */
  lemma FinalOrderly(objs: seq<Call>, i: nat, later: Call, t: Track, k: Key, r: Response, now: real)
    requires Orderly(objs, t, k, now) && Finals(objs) && i < |objs|
    requires OpenOn(objs[i], k) && !OpenOn(later, k) && r.code >= 200
    requires TimerOn(later, k) ==> later.lastFinal == Some(r) && later.deadline == now + TIMER_B
    ensures Orderly(objs[i := later], Track(t.emitted + [r], Some(Entry(r, now))), k, now)
  {
    hide OneFinal, Provisional, OpenOn, TimerOn, Finals;
    AfterProvisional(t.emitted, r);
    NoCoverWhileOpen(objs, i, t, k, now);
  }

  /** The retransmission timer fires before its deadline. */
  lemma RefireOrderly(objs: seq<Call>, i: nat, later: Call, t: Track, k: Key, now: real)
    requires Orderly(objs, t, k, now) && i < |objs| && TimerOn(objs[i], k) && objs[i].lastFinal.Some?
    requires objs[i].timer.Some?
    requires objs[i].timer.value <= now <= objs[i].deadline && !OpenOn(later, k)
    requires later.lastFinal == objs[i].lastFinal && later.deadline == objs[i].deadline
    ensures Orderly(objs[i := later],
                    Track(t.emitted + [objs[i].lastFinal.value], Some(Entry(objs[i].lastFinal.value, now))), k, now)
  {
    hide OneFinal, Provisional, OpenOn, TimerOn;
    CopyLast(t.emitted);
  }

  /** No call is open on k and nothing is cached for it: the transaction starts afresh. */
  predicate Vacant(objs: seq<Call>, t: Track, k: Key) {
    t.cached.None? && forall i :: 0 <= i < |objs| ==> !OpenOn(objs[i], k)
  }

  lemma VacantTimers(objs: seq<Call>, t: Track, k: Key, now: real)
    requires Orderly(objs, t, k, now) && Vacant(objs, t, k)
    ensures forall j :: 0 <= j < |objs| && TimerOn(objs[j], k) ==> RunOut(objs[j], now)
  {
    hide OneFinal, OpenOn;
  }

  /** A request answered at once with a final response: a rejected INVITE, or a re-INVITE of call i. */
  lemma AnsweredOrderly(objs: seq<Call>, i: nat, later: Call, t: Track, k: Key, r: Response, now: real)
    requires Orderly(objs, t, k, now) && Vacant(objs, t, k) && i < |objs|
    requires !OpenOn(later, k) && r.code >= 200
    requires TimerOn(later, k) ==>
      (TimerOn(objs[i], k) && later.deadline == objs[i].deadline && later.timer == objs[i].timer)
      || (later.lastFinal == Some(r) && later.deadline == now + TIMER_B)
    ensures Orderly(objs[i := later], Track([r], Some(Entry(r, now))), k, now)
  {
    hide Provisional, OpenOn, TimerOn;
    VacantTimers(objs, t, k, now);
  }

  lemma RefusedOrderly(objs: seq<Call>, t: Track, k: Key, emitted: seq<Response>, r: Response, now: real)
    requires Orderly(objs, t, k, now) && Vacant(objs, t, k)
    requires Provisional(emitted) && r.code >= 200
    ensures Orderly(objs, Track(emitted + [r], Some(Entry(r, now))), k, now)
  {
    hide OneFinal, Provisional, OpenOn, TimerOn;
    AfterProvisional(emitted, r);
    VacantTimers(objs, t, k, now);
  }

  /** A new call opens the transaction with a provisional response. */
  lemma OpenedOrderly(objs: seq<Call>, c: Call, t: Track, k: Key, r: Response, now: real)
    requires Orderly(objs, t, k, now) && Vacant(objs, t, k) && !TimerOn(c, k) && r.code < 200
    ensures Orderly(objs + [c], Grown(Track([], None), r, k, now), k, now)
  {
    hide OpenOn, TimerOn;
    VacantTimers(objs, t, k, now);
  }

  /** A call that has nothing to do with k joins. */
  lemma JoinedOrderly(objs: seq<Call>, c: Call, t: Track, k: Key, now: real)
    requires Orderly(objs, t, k, now) && !OpenOn(c, k) && !TimerOn(c, k)
    ensures Orderly(objs + [c], t, k, now)
  {
    hide OneFinal, Provisional, OpenOn, TimerOn;
  }

  // ---- Operations on one call ----

  /** What an operation on call i of a sound account does to transaction k. */
  ghost predicate Proper(objs: seq<Call>, i: nat, w: Wire, side: Side, k: Key, now: real)
    requires i < |objs|
  {
    Orderly(objs, TrackOf(w, k), k, now) ==> Orderly(objs[i := side.call], TrackOf(side.wire, k), k, now)
  }

  lemma NothingProper(objs: seq<Call>, i: nat, w: Wire, c: Call, k: Key, now: real)
    requires i < |objs| && Aloof(objs[i], c, k)
    ensures Proper(objs, i, w, Side(c, w), k, now)
  {
    hide Orderly, Aloof, TrackOf;
    if Orderly(objs, TrackOf(w, k), k, now) {
      AloofOrderly(objs, i, c, TrackOf(w, k), k, now);
    }
  }

  predicate Sane(objs: seq<Call>, i: nat) {
    i < |objs| && Finals(objs) && Sound(objs[i])
  }

  lemma RingProper(objs: seq<Call>, i: nat, w: Wire, k: Key, now: real)
    requires Sane(objs, i)
    ensures Proper(objs, i, w, Ring(objs[i], w, now), k, now)
  {
    hide Orderly, Finals, TrackOf, Respond;
    var c := objs[i];
    var side := Ring(c, w, now);
    if c.invite.Some? && Open(c) && Orderly(objs, TrackOf(w, k), k, now) {
      var r := Response(c.invite.value, 180, 0);
      RespondTrack(w, r, now, k);
      if OpenOn(c, k) {
        RingOrderly(objs, i, side.call, TrackOf(w, k), k, r, now);
      } else {
        AloofOrderly(objs, i, side.call, TrackOf(w, k), k, now);
      }
    } else {
      NothingProper(objs, i, w, c, k, now);
    }
  }

  /** `_send_final` from an open call, which then leaves that state. */
  lemma FinalProper(objs: seq<Call>, i: nat, w: Wire, later: Call, r: Response, k: Key, now: real)
    requires Sane(objs, i) && Open(objs[i]) && objs[i].invite == Some(r.to) && r.code >= 200
    requires !Open(later) && later.lastFinal == Some(r) && later.deadline == now + TIMER_B
    ensures Proper(objs, i, w, Side(later, Respond(w, r, now)), k, now)
  {
    hide Orderly, Finals, TrackOf, Respond;
    if Orderly(objs, TrackOf(w, k), k, now) {
      RespondTrack(w, r, now, k);
      if OpenOn(objs[i], k) {
        FinalOrderly(objs, i, later, TrackOf(w, k), k, r, now);
      } else {
        AloofOrderly(objs, i, later, TrackOf(w, k), k, now);
      }
    }
  }

  lemma AnswerProper(objs: seq<Call>, i: nat, w: Wire, k: Key, now: real, udp: bool)
    requires Sane(objs, i)
    ensures Proper(objs, i, w, Answer(objs[i], w, now, udp), k, now)
  {
    hide Proper, Finals, Respond, TrackOf;
    var c := objs[i];
    if Answerable(c) {
      FinalProper(objs, i, w, Answer(c, w, now, udp).call, Response(c.invite.value, 200, c.version), k, now);
    } else {
      NothingProper(objs, i, w, c, k, now);
    }
  }

  lemma RejectProper(objs: seq<Call>, i: nat, w: Wire, code: FinalCode, k: Key, now: real, udp: bool)
    requires Sane(objs, i)
    ensures Proper(objs, i, w, Reject(objs[i], w, code, now, udp), k, now)
  {
    hide Proper, Finals, Respond, TrackOf;
    var c := objs[i];
    if Answerable(c) {
      FinalProper(objs, i, w, Reject(c, w, code, now, udp).call, Response(c.invite.value, code, 0), k, now);
    } else {
      NothingProper(objs, i, w, c, k, now);
    }
  }

  lemma HangupProper(objs: seq<Call>, i: nat, w: Wire, code: FinalCode, k: Key, now: real, udp: bool)
    requires Sane(objs, i)
    ensures Proper(objs, i, w, Hangup(objs[i], w, code, now, udp), k, now)
  {
    hide Proper, Finals, Respond, TrackOf, Reject;
    var c := objs[i];
    if c.phase != Terminated && Open(c) {
      RejectProper(objs, i, w, code, k, now, udp);
    } else {
      NothingProper(objs, i, w, Hangup(c, w, code, now, udp).call, k, now);
    }
  }

  lemma FireProper(objs: seq<Call>, i: nat, w: Wire, k: Key, now: real, udp: bool)
    requires Sane(objs, i)
    ensures Proper(objs, i, w, Fire(objs[i], w, now, udp), k, now)
  {
    hide Orderly, Finals, Respond, TrackOf;
    var c := objs[i];
    var side := Fire(c, w, now, udp);
    if c.timer.Some? && now >= c.timer.value && !c.acked && c.phase != Terminated && now <= c.deadline {
      var r := c.lastFinal.value;
      RespondTrack(w, r, now, k);
      if Orderly(objs, TrackOf(w, k), k, now) {
        if TimerOn(c, k) {
          RefireOrderly(objs, i, side.call, TrackOf(w, k), k, now);
        } else {
          AloofOrderly(objs, i, side.call, TrackOf(w, k), k, now);
        }
      }
    } else {
      NothingProper(objs, i, w, side.call, k, now);
    }
  }

  lemma OnCallProper(objs: seq<Call>, i: nat, w: Wire, e: Event, k: Key, now: real, udp: bool)
    requires Sane(objs, i) && !e.Arrives? && !e.Dial?
    ensures Proper(objs, i, w, OnCall(objs[i], w, e, now, udp), k, now)
  {
    hide Proper, Finals, Respond, TrackOf, Ring, Answer, Reject, Hangup, Fire;
    match e {
      case RingIt(_) => RingProper(objs, i, w, k, now);
      case AnswerIt(_) => AnswerProper(objs, i, w, k, now, udp);
      case RejectIt(_, code) => RejectProper(objs, i, w, code, k, now, udp);
      case HangUp(_, code) => HangupProper(objs, i, w, code, k, now, udp);
      case TimerFires(_) => FireProper(objs, i, w, k, now, udp);
      case Progress(_, _) => NothingProper(objs, i, w, OnCall(objs[i], w, e, now, udp).call, k, now);
      case Fail(_, _) => NothingProper(objs, i, w, OnCall(objs[i], w, e, now, udp).call, k, now);
      case Hold(_, _) => NothingProper(objs, i, w, OnCall(objs[i], w, e, now, udp).call, k, now);
    }
  }

  /** CANCEL answers its own transaction and ends the INVITE's with 487. */
  lemma CancelProper(objs: seq<Call>, i: nat, w: Wire, req: Request, k: Key, now: real)
    requires Sane(objs, i) && Open(objs[i]) && req.Txn() != k
    ensures Proper(objs, i, w, CancelOpen(objs[i], w, req, now), k, now)
  {
    hide Orderly, Finals, Respond, TrackOf;
    var c := objs[i];
    var side := CancelOpen(c, w, req, now);
    var ok := Respond(w, Response(req, 200, 0), now);
    RespondTrack(w, Response(req, 200, 0), now, k);
    var r := Response(c.invite.value, 487, 0);
    RespondTrack(ok, r, now, k);
    if Orderly(objs, TrackOf(w, k), k, now) {
      if OpenOn(c, k) {
        FinalOrderly(objs, i, side.call, TrackOf(w, k), k, r, now);
      } else {
        AloofOrderly(objs, i, side.call, TrackOf(w, k), k, now);
      }
    }
  }

  /** A re-INVITE on a vacant transaction, just taken up. */
  lemma ReinviteProper(objs: seq<Call>, i: nat, t: Track, w: Wire, req: Request, k: Key, now: real, udp: bool)
    requires Sane(objs, i) && Orderly(objs, t, k, now)
    requires if req.Txn() == k then Vacant(objs, t, k) && TrackOf(w, k) == Track([], None) else TrackOf(w, k) == t
    ensures var side := Reinvite(objs[i], w, req, now, udp);
            Orderly(objs[i := side.call], TrackOf(side.wire, k), k, now)
  {
    hide Orderly, Finals, Respond, TrackOf, Vacant;
    var c := objs[i];
    var side := Reinvite(c, w, req, now, udp);
    var busy := c.phase != Connected || c.pending;
    var r := if busy then Response(req, 491, 0) else Response(req, 200, side.call.version);
    RespondTrack(w, r, now, k);
    if req.Txn() == k {
      assert [] + [r] == [r];
      ClosedWhenVacant(objs, i, t, k);
      AnsweredOrderly(objs, i, side.call, t, k, r, now);
    } else {
      AloofOrderly(objs, i, side.call, t, k, now);
    }
  }

  lemma ClosedWhenVacant(objs: seq<Call>, i: nat, t: Track, k: Key)
    requires Vacant(objs, t, k) && i < |objs|
    ensures !OpenOn(objs[i], k)
  {
  }

  // ---- Requests ----

  /** The registered call that a request belongs to. */
  function Peer(a: Account, req: Request): Option<Call> {
    if req.callId in a.calls && a.calls[req.callId] < |a.objs| then Some(a.objs[a.calls[req.callId]]) else None
  }

  /** The response with which a request is met when it is taken up. */
  function FirstResponse(a: Account, req: Request): Response {
    var peer := Peer(a, req);
    match req.verb
    case Invite =>
      if peer.None? then Response(req, if req.body == Empty then 488 else 100, 0)
      else if peer.value.phase != Connected || peer.value.pending then Response(req, 491, 0)
      else Response(req, 200, if req.body == Empty then peer.value.version else peer.value.version + 1)
    case Cancel => Response(req, if peer.Some? && Open(peer.value) then 200 else 481, 0)
    case Bye => Response(req, if peer.Some? then 200 else 481, 0)
    case Update => Response(req, 200, if peer.Some? && req.body != Empty then peer.value.version + 1 else 0)
    case NotImplemented => Response(req, 501, 0)
    case Unknown(_) => Response(req, 405, 0)
    case _ => Response(req, 200, 0)
  }

  /** The cache still has a final response of the request's transaction, and the request is about to get another. */
  predicate Overwrites(a: Account, req: Request, now: real) {
    && req.Txn() in Purge(a.wire.cache, now)
    && a.wire.cache[req.Txn()].response.code >= 200
    && a.wire.cache[req.Txn()].response != FirstResponse(a, req)
  }

  /** A BYE on the transaction of the INVITE whose call it ends: no other response will follow. */
  predicate EndsItself(a: Account, req: Request, i: nat) {
    req.verb == Bye && req.callId in a.calls && a.calls[req.callId] == i
  }

  /** A request that the cache does not answer, on a transaction that has had its final response, or on that of a call
      that has yet to send one. Requests whose CSeq header names their own method are answered from the cache for 32 s,
      so this takes a repeated INVITE of a call that rings on for longer, or a CSeq header that names another method. */
  predicate Disturbs(a: Account, req: Request, now: real) {
    && req.verb != Ack && !Absorbed(a, req, now)
    && (Overwrites(a, req, now)
        || exists i :: 0 <= i < |a.objs| && OpenOn(a.objs[i], req.Txn()) && !EndsItself(a, req, i))
  }

  /** The track that the handlers see for k: emptied when the request is k's. */
  predicate Taken(objs: seq<Call>, t: Track, k: Key, req: Request, w: Wire, now: real) {
    && Orderly(objs, t, k, now)
    && if req.Txn() == k then Vacant(objs, t, k) && TrackOf(w, k) == Track([], None) else TrackOf(w, k) == t
  }

  lemma NewInviteOrderly(a: Account, t: Track, req: Request, port: bool, k: Key, now: real)
    requires req.verb == Invite && Finals(a.objs) && Taken(a.objs, t, k, req, a.wire, now)
    ensures var b := NewInvite(a, req, port, now); Orderly(b.objs, TrackOf(b.wire, k), k, now)
  {
    hide Orderly, Finals, Respond, TrackOf, Vacant, Reject, Put;
    var trying := Respond(a.wire, Response(req, 100, 0), now);
    RespondTrack(a.wire, Response(req, 100, 0), now, k);
    RespondTrack(a.wire, Response(req, 488, 0), now, k);
    RespondTrack(trying, Response(req, 488, 0), now, k);
    RespondTrack(trying, Response(req, 503, 0), now, k);
    var first := [Response(req, 100, 0)];
    assert [] + first == first;
    ProvisionalOne(Response(req, 100, 0));
    if req.Txn() == k {
      RefusedOrderly(a.objs, t, k, [], Response(req, 488, 0), now);
      RefusedOrderly(a.objs, t, k, first, Response(req, 488, 0), now);
      RefusedOrderly(a.objs, t, k, first, Response(req, 503, 0), now);
    }
    if req.body == Offer(true) && port {
      AdmittedOrderly(a, t, req, k, trying, now);
    }
  }

  lemma ProvisionalOne(r: Response)
    requires r.code < 200
    ensures Provisional([]) && Provisional([r])
  {
  }

  lemma AdmittedOrderly(a: Account, t: Track, req: Request, k: Key, trying: Wire, now: real)
    requires req.verb == Invite && Finals(a.objs) && Taken(a.objs, t, k, req, a.wire, now)
    requires TrackOf(trying, k)
             == if req.Txn() == k then Grown(Track([], None), Response(req, 100, 0), k, now) else t
    requires trying == Respond(a.wire, Response(req, 100, 0), now)
    ensures req.body == Offer(true) ==>
              var b := NewInvite(a, req, true, now); Orderly(b.objs, TrackOf(b.wire, k), k, now)
  {
    hide Orderly, Finals, Respond, TrackOf, Vacant, Reject;
    var c := Call(req.callId, true, New, Some(req), None, false, None, T1, 0.0, true, None, None, false, false, 0);
    var objs := a.objs + [c];
    if req.Txn() == k {
      OpenedOrderly(a.objs, c, t, k, Response(req, 100, 0), now);
    } else {
      JoinedOrderly(a.objs, c, t, k, now);
    }
    FinalsJoin(a.objs, c);
    assert objs[|a.objs|] == c;
    RejectProper(objs, |a.objs|, trying, 480, k, now, a.udp);
  }

  lemma FinalsJoin(objs: seq<Call>, c: Call)
    requires Finals(objs) && c.lastFinal.None?
    ensures Finals(objs + [c])
  {
  }

  lemma InviteOrderly(a: Account, t: Track, req: Request, port: bool, k: Key, now: real)
    requires req.verb == Invite && Keeps(a) && Taken(a.objs, t, k, req, a.wire, now)
    ensures Indexed(a)
    ensures var b := Dispatch(a, req, port, now); Orderly(b.objs, TrackOf(b.wire, k), k, now)
  {
    hide Orderly, Keeps, Finals, TrackOf, Vacant, Reinvite, NewInvite;
    KeepsIndexed(a);
    KeepsFinals(a);
    if req.callId in a.calls {
      KnownSound(a, req.callId);
      ReinviteProper(a.objs, a.calls[req.callId], t, a.wire, req, k, now, a.udp);
    } else {
      NewInviteOrderly(a, t, req, port, k, now);
    }
  }

  lemma KeepsFinals(a: Account)
    requires Keeps(a)
    ensures Finals(a.objs)
  {
    forall i | 0 <= i < |a.objs| && a.objs[i].lastFinal.Some? ensures a.objs[i].lastFinal.value.code >= 200 {
      assert Sound(a.objs[i]);
    }
  }

  /** Every other request leaves the INVITE transactions that are not its own alone, but for CANCEL. */
  lemma OtherOrderly(a: Account, req: Request, port: bool, k: Key, now: real)
    requires req.verb != Invite && (req.Txn() != k || req.verb == Ack) && Keeps(a)
    requires Orderly(a.objs, TrackOf(a.wire, k), k, now)
    ensures Indexed(a)
    ensures var b := Dispatch(a, req, port, now); Orderly(b.objs, TrackOf(b.wire, k), k, now)
  {
    hide Orderly, Keeps, Finals, TrackOf, CancelOpen, Respond, Reinvite, NewInvite, Terminate, Acked;
    KeepsIndexed(a);
    KeepsFinals(a);
    if req.Txn() != k {
      OtherReplies(a.wire, req, now, k);
    }
    if req.callId in a.calls {
      KnownSound(a, req.callId);
      var i := a.calls[req.callId];
      var c := a.objs[i];
      OtherChanges(c, k);
      match req.verb {
        case Ack => AloofOrderly(a.objs, i, Acked(c), TrackOf(a.wire, k), k, now);
        case Bye => AloofOrderly(a.objs, i, Terminate(c, 0), TrackOf(a.wire, k), k, now);
        case Update => AloofOrderly(a.objs, i, c.(version := c.version + 1), TrackOf(a.wire, k), k, now);
        case Cancel =>
          if Open(c) {
            CancelProper(a.objs, i, a.wire, req, k, now);
          }
        case _ =>
      }
    }
  }

  // ---- Requests on their own transaction ----

  /** What is left of the track when a request is taken up on it. */
  function Left(t: Track): seq<Response> {
    if t.cached.None? then [] else t.emitted
  }

  /** A response that may follow what the transaction has had. */
  predicate MayFollow(t: Track, r: Response) {
    t.cached.Some? && t.cached.value.response.code >= 200 ==> t.cached.value.response == r
  }

  lemma OnlyCopiesBefore(responses: seq<Response>)
    requires OneFinal(responses) && responses != [] && responses[|responses| - 1].code < 200
    ensures Provisional(responses)
  {
    forall i | 0 <= i < |responses| ensures responses[i].code < 200 {
      if i < |responses| - 1 && responses[i].code >= 200 {
        assert responses[|responses| - 1] == responses[i];
      }
    }
  }

  lemma FollowsOn(t: Track, r: Response)
    requires OneFinal(t.emitted) && MayFollow(t, r) && r.code >= 200
    requires t.cached.Some? ==> t.emitted != [] && t.emitted[|t.emitted| - 1] == t.cached.value.response
    ensures OneFinal(Left(t) + [r])
  {
    hide OneFinal, Provisional;
    if t.cached.None? {
      NothingProvisional();
      AfterProvisional([], r);
    } else if t.cached.value.response.code < 200 {
      OnlyCopiesBefore(t.emitted);
      AfterProvisional(t.emitted, r);
    } else {
      CopyLast(t.emitted);
    }
  }

  lemma NothingProvisional()
    ensures Provisional([])
  {
  }

  /** No call is open on k. */
  predicate NoneOpen(objs: seq<Call>, k: Key) {
    forall i :: 0 <= i < |objs| ==> !OpenOn(objs[i], k)
  }

  /** A final response that copies the one in the cache, or that no timer will ever follow. */
  lemma GivenOrderly(objs: seq<Call>, t: Track, k: Key, r: Response, now: real)
    requires Orderly(objs, t, k, now) && NoneOpen(objs, k) && Finals(objs)
    requires MayFollow(t, r) && r.code >= 200
    ensures Orderly(objs, Track(Left(t) + [r], Some(Entry(r, now))), k, now)
  {
    hide OneFinal, Provisional, OpenOn, Left, MayFollow;
    FollowsOn(t, r);
    forall i | 0 <= i < |objs| && TimerOn(objs[i], k)
      ensures Covered(objs[i], Track(Left(t) + [r], Some(Entry(r, now))), now) {
      assert Covered(objs[i], t, now);
      MayFollowCopies(t, r, objs[i].lastFinal.value);
    }
  }

  lemma MayFollowCopies(t: Track, r: Response, last: Response)
    requires MayFollow(t, r) && last.code >= 200
    ensures t.cached.Some? && t.cached.value.response == last ==> last == r
  {
  }

  lemma GivenTrack(w: Wire, t: Track, r: Response, k: Key, now: real)
    requires TrackOf(w, k) == Track(Left(t), t.cached) && r.to.Txn() == k && r.code >= 200
    ensures TrackOf(Respond(w, r, now), k) == Track(Left(t) + [r], Some(Entry(r, now)))
  {
    hide TrackOf, Respond, Left;
    RespondTrack(w, r, now, k);
  }

  /** Transaction k when a request of its own is taken up and does not disturb it. */
  predicate TakenUp(a: Account, t: Track, k: Key, req: Request, now: real) {
    && Orderly(a.objs, t, k, now) && req.Txn() == k && TrackOf(a.wire, k) == Track(Left(t), t.cached)
    && MayFollow(t, FirstResponse(a, req))
    && forall i :: 0 <= i < |a.objs| && OpenOn(a.objs[i], k) ==> EndsItself(a, req, i)
  }

  /** The call that a request other than INVITE and ACK leaves behind. */
  function LaterCall(c: Call, req: Request): Call {
    match req.verb
    case Cancel => if Open(c) then Terminate(c.(cancelled := true), 487) else c
    case Bye => Terminate(c, 0)
    case Update => if req.body != Empty then c.(version := c.version + 1) else c
    case _ => c
  }

  lemma LaterAloof(c: Call, req: Request, k: Key)
    requires Sound(c)
    ensures Aloof(c, LaterCall(c, req), k)
    ensures req.verb == Bye ==> !OpenOn(LaterCall(c, req), k)
    ensures LaterCall(c, req).lastFinal == c.lastFinal
  {
  }

  /** The calls after such a request. */
  function LaterCalls(a: Account, req: Request): seq<Call> {
    if Peer(a, req).None? then a.objs else a.objs[a.calls[req.callId] := LaterCall(Peer(a, req).value, req)]
  }

  lemma DispatchCalls(a: Account, req: Request, port: bool, now: real)
    requires Indexed(a) && req.verb != Invite && req.verb != Ack
    ensures Dispatch(a, req, port, now).objs == LaterCalls(a, req)
  {
    hide Respond, NewInvite, Reinvite, Acked, Terminate;
    if req.callId in a.calls {
      assert a.objs == a.objs[a.calls[req.callId] := a.objs[a.calls[req.callId]]];
    }
  }

  /** The wire after such a request: the first response, and for a CANCEL that of the INVITE. */
  lemma DispatchWire(a: Account, req: Request, port: bool, now: real)
    requires Indexed(a) && req.verb != Invite && req.verb != Ack
    ensures var w := Respond(a.wire, FirstResponse(a, req), now); var after := Dispatch(a, req, port, now).wire;
            if req.verb == Cancel && req.callId in a.calls && Open(a.objs[a.calls[req.callId]])
                && a.objs[a.calls[req.callId]].invite.Some?
            then after == Respond(w, Response(a.objs[a.calls[req.callId]].invite.value, 487, 0), now)
            else after == w
  {
    hide Respond, NewInvite, Reinvite, Acked, Terminate, Open;
  }

  lemma LaterCallsOrderly(a: Account, t: Track, k: Key, req: Request, now: real)
    requires Keeps(a) && req.verb != Invite && req.verb != Ack && TakenUp(a, t, k, req, now)
    ensures var objs := LaterCalls(a, req);
            Orderly(objs, t, k, now) && NoneOpen(objs, k) && Finals(objs)
  {
    hide Orderly, Keeps, OpenOn, LaterCall, Aloof, MayFollow, TrackOf;
    KeepsFinals(a);
    KeepsIndexed(a);
    if Peer(a, req).Some? {
      KnownSound(a, req.callId);
      var c := Peer(a, req).value;
      LaterAloof(c, req, k);
      AloofOrderly(a.objs, a.calls[req.callId], LaterCall(c, req), t, k, now);
      AloofOpen(c, LaterCall(c, req), k);
    }
  }

  lemma AloofOpen(c: Call, later: Call, k: Key)
    requires Aloof(c, later, k)
    ensures OpenOn(later, k) ==> OpenOn(c, k)
  {
  }

  lemma ForeignOrderly(a: Account, t: Track, k: Key, req: Request, port: bool, now: real)
    requires Keeps(a) && req.verb != Invite && req.verb != Ack && TakenUp(a, t, k, req, now)
    ensures Indexed(a)
    ensures var b := Dispatch(a, req, port, now); Orderly(b.objs, TrackOf(b.wire, k), k, now)
  {
    hide Orderly, Keeps, TrackOf, Dispatch, Respond, OpenOn, NoneOpen, Left, MayFollow, LaterCalls, FirstResponse;
    KeepsIndexed(a);
    var r := FirstResponse(a, req);
    FirstIsFinal(a, req);
    DispatchCalls(a, req, port, now);
    DispatchWire(a, req, port, now);
    LaterCallsOrderly(a, t, k, req, now);
    GivenOrderly(LaterCalls(a, req), t, k, r, now);
    GivenTrack(a.wire, t, r, k, now);
    if req.verb == Cancel && req.callId in a.calls && Open(a.objs[a.calls[req.callId]])
       && a.objs[a.calls[req.callId]].invite.Some? {
      var c := a.objs[a.calls[req.callId]];
      OpenIs(c, k);
      RespondTrack(Respond(a.wire, r, now), Response(c.invite.value, 487, 0), now, k);
    }
  }

  lemma OpenIs(c: Call, k: Key)
    requires Open(c) && c.invite.Some?
    ensures OpenOn(c, k) <==> c.invite.value.Txn() == k
  {
  }

  lemma FirstIsFinal(a: Account, req: Request)
    requires req.verb != Ack
    ensures FirstResponse(a, req).to == req
    ensures req.verb != Invite || Peer(a, req).Some? ==> FirstResponse(a, req).code >= 200
  {
  }

  /** An INVITE on a transaction that is over. */
  lemma FreshInviteOrderly(a: Account, t: Track, k: Key, req: Request, port: bool, now: real)
    requires Keeps(a) && req.verb == Invite && TakenUp(a, t, k, req, now) && t.cached.None?
    ensures Indexed(a)
    ensures var b := Dispatch(a, req, port, now); Orderly(b.objs, TrackOf(b.wire, k), k, now)
  {
    hide Orderly, Keeps, TrackOf, Dispatch, OpenOn, FirstResponse, MayFollow;
    InviteOrderly(a, t, req, port, k, now);
  }

  lemma NoneOpenForInvite(a: Account, t: Track, k: Key, req: Request, now: real)
    requires req.verb == Invite && TakenUp(a, t, k, req, now)
    ensures NoneOpen(a.objs, k)
  {
    hide OpenOn, Orderly, TrackOf, MayFollow;
  }

  lemma RefusedAtOnce(a: Account, req: Request, port: bool, now: real)
    requires Indexed(a) && req.verb == Invite && req.callId !in a.calls && FirstResponse(a, req).code >= 200
    ensures Dispatch(a, req, port, now) == a.(wire := Respond(a.wire, FirstResponse(a, req), now))
  {
    hide Respond;
  }

  /** A call whose final response has just been sent joins the others. */
  lemma JustSentOrderly(objs: seq<Call>, i: nat, later: Call, emitted: seq<Response>, k: Key, r: Response, now: real)
    requires Orderly(objs, Track(emitted, Some(Entry(r, now))), k, now) && i < |objs|
    requires !OpenOn(later, k) && later.lastFinal == Some(r) && later.deadline == now + TIMER_B
    ensures Orderly(objs[i := later], Track(emitted, Some(Entry(r, now))), k, now)
  {
    hide OneFinal, Provisional, OpenOn, TimerOn;
  }

  lemma ReinviteCopy(a: Account, emitted: seq<Response>, k: Key, req: Request, port: bool, now: real)
    requires Indexed(a) && req.verb == Invite && req.callId in a.calls && Sound(a.objs[a.calls[req.callId]])
    requires var r := FirstResponse(a, req); Orderly(a.objs, Track(emitted, Some(Entry(r, now))), k, now)
    ensures var b := Dispatch(a, req, port, now);
            && Orderly(b.objs, Track(emitted, Some(Entry(FirstResponse(a, req), now))), k, now)
            && b.wire == Respond(a.wire, FirstResponse(a, req), now)
  {
    hide Orderly, Respond, NewInvite, OpenOn;
    var i := a.calls[req.callId];
    var c := a.objs[i];
    var later := Reinvite(c, a.wire, req, now, a.udp).call;
    if c.phase != Connected || c.pending {
      assert a.objs == a.objs[i := c];
    } else {
      ConnectedIsNotOpen(later, k);
      JustSentOrderly(a.objs, i, later, emitted, k, FirstResponse(a, req), now);
    }
  }

  lemma ConnectedIsNotOpen(c: Call, k: Key)
    requires c.phase == Connected
    ensures !OpenOn(c, k)
  {
  }

  /** An INVITE that is answered as it was before, because its CSeq header names another method. */
  lemma CopiedInviteOrderly(a: Account, t: Track, k: Key, req: Request, port: bool, now: real)
    requires Keeps(a) && req.verb == Invite && TakenUp(a, t, k, req, now) && t.cached.Some?
    requires t.cached.value.response.code >= 200
    ensures Indexed(a)
    ensures var b := Dispatch(a, req, port, now); Orderly(b.objs, TrackOf(b.wire, k), k, now)
  {
    hide Orderly, Keeps, TrackOf, Respond, OpenOn, NoneOpen, NewInvite, Reinvite;
    KeepsIndexed(a);
    KeepsFinals(a);
    var r := FirstResponse(a, req);
    NoneOpenForInvite(a, t, k, req, now);
    GivenOrderly(a.objs, t, k, r, now);
    GivenTrack(a.wire, t, r, k, now);
    if req.callId in a.calls {
      KnownSound(a, req.callId);
      ReinviteCopy(a, Left(t) + [r], k, req, port, now);
    } else {
      RefusedAtOnce(a, req, port, now);
    }
  }

  lemma OtherChanges(c: Call, k: Key)
    requires Sound(c)
    ensures Aloof(c, Acked(c), k) && Aloof(c, Terminate(c, 0), k) && Aloof(c, c.(version := c.version + 1), k)
  {
  }

  lemma OtherReplies(w: Wire, req: Request, now: real, k: Key)
    requires req.Txn() != k
    ensures forall code, sdp :: TrackOf(Respond(w, Response(req, code, sdp), now), k) == TrackOf(w, k)
  {
    hide Respond, TrackOf;
    forall code, sdp ensures TrackOf(Respond(w, Response(req, code, sdp), now), k) == TrackOf(w, k) {
      RespondTrack(w, Response(req, code, sdp), now, k);
    }
  }

  lemma SweptOrderly(a: Account, k: Key, now: real)
    requires Orderly(a.objs, TrackOf(a.wire, k), k, now)
    ensures Orderly(a.objs, TrackOf(Swept(a, now).wire, k), k, now)
  {
    hide Orderly, TrackOf, Purge;
    PurgeTrack(a.wire, now, k);
    var t := TrackOf(a.wire, k);
    if t.cached.Some? && now - t.cached.value.at > TIMER_B {
      PurgeOrderly(a.objs, t, k, now);
    }
  }

  lemma ReceiveOrderly(a: Account, req: Request, port: bool, k: Key, now: real)
    requires Keeps(a) && !Disturbs(a, req, now) && Truthful(a.wire, now)
    requires Orderly(a.objs, TrackOf(a.wire, k), k, now)
    ensures Indexed(a)
    ensures var b := Receive(a, req, port, now); Orderly(b.objs, TrackOf(b.wire, k), k, now)
  {
    hide Orderly, Keeps, TrackOf, Dispatch, OpenOn, Disturbs, Absorbed, Filed, Truthful;
    KeepsIndexed(a);
    SweptOrderly(a, k, now);
    if Absorbed(a, req, now) {
      TruthfulFiled(a.wire, now);
      AbsorbedOrderly(a, req, port, k, now);
    } else {
      TakenOrderly(a, req, port, k, now);
    }
  }

  lemma AbsorbedOrderly(a: Account, req: Request, port: bool, k: Key, now: real)
    requires Indexed(a) && Absorbed(a, req, now) && Filed(a.wire)
    requires Orderly(a.objs, TrackOf(Swept(a, now).wire, k), k, now)
    ensures var b := Receive(a, req, port, now); Orderly(b.objs, TrackOf(b.wire, k), k, now)
  {
    hide Orderly, Emitted, Dispatch;
    var p := Swept(a, now);
    var r := p.wire.cache[req.Txn()].response;
    ReplayedTrack(p.wire, r, k);
    if req.Txn() == k {
      ReplayOrderly(a.objs, TrackOf(p.wire, k), k, now);
    }
  }

  lemma PurgeTwice(cache: map<Key, Entry>, now: real)
    ensures Purge(Purge(cache, now), now) == Purge(cache, now)
  {
  }

  lemma TakenOrderly(a: Account, req: Request, port: bool, k: Key, now: real)
    requires Keeps(a) && !Disturbs(a, req, now) && !Absorbed(a, req, now) && Truthful(a.wire, now)
    requires Orderly(a.objs, TrackOf(Swept(a, now).wire, k), k, now)
    ensures Indexed(a)
    ensures var b := Receive(a, req, port, now); Orderly(b.objs, TrackOf(b.wire, k), k, now)
  {
    hide Orderly, Keeps, TrackOf, Dispatch, OpenOn, Disturbs, Absorbed, Purge, Truthful, TakenUp;
    KeepsIndexed(a);
    var p := Swept(a, now);
    QuietKeeps(a, p);
    PurgeTruthful(a.wire, now);
    PurgeTwice(a.wire.cache, now);
    if req.verb == Ack {
      OtherOrderly(p, req, port, k, now);
    } else {
      var q := Marked(p, Handled(req.Txn(), now));
      QuietKeeps(a, q);
      HandledTrack(p.wire, req.Txn(), now, k);
      if req.Txn() == k {
        OwnOrderly(a, TrackOf(p.wire, k), req, port, now);
      } else if req.verb == Invite {
        InviteOrderly(q, TrackOf(p.wire, k), req, port, k, now);
      } else {
        OtherOrderly(q, req, port, k, now);
      }
    }
  }

  /** A request that disturbs nothing, on its own transaction. */
  lemma OwnOrderly(a: Account, t: Track, req: Request, port: bool, now: real)
    requires Keeps(a) && !Disturbs(a, req, now) && !Absorbed(a, req, now) && Truthful(a.wire, now)
    requires req.verb != Ack && t == TrackOf(Swept(a, now).wire, req.Txn()) && Orderly(a.objs, t, req.Txn(), now)
    ensures var q := Marked(Swept(a, now), Handled(req.Txn(), now));
            Indexed(q) && var b := Dispatch(q, req, port, now);
            Orderly(b.objs, TrackOf(b.wire, req.Txn()), req.Txn(), now)
  {
    hide Orderly, Keeps, Dispatch, OpenOn, Disturbs, Absorbed, Purge, Truthful, TakenUp, FirstResponse;
    var k := req.Txn();
    var p := Swept(a, now);
    var q := Marked(p, Handled(k, now));
    QuietKeeps(a, q);
    KeepsIndexed(q);
    PurgeTruthful(a.wire, now);
    PurgeTwice(a.wire.cache, now);
    HandledTrack(p.wire, k, now, k);
    UndisturbedTaken(a, q, t, req, now);
    if req.verb != Invite {
      ForeignOrderly(q, t, k, req, port, now);
    } else if t.cached.None? {
      FreshInviteOrderly(q, t, k, req, port, now);
    } else {
      CachedUnderAnother(a, req, now);
      OrderlyCached(a.objs, t, k, now);
      CopiedInviteOrderly(q, t, k, req, port, now);
    }
  }

  /** Only a CSeq header that names another method keeps a request in the cache from being absorbed. */
  lemma CachedUnderAnother(a: Account, req: Request, now: real)
    requires req.verb != Ack && !Absorbed(a, req, now) && req.Txn() in Purge(a.wire.cache, now)
    ensures req.cseqVerb != req.verb
  {
    hide Purge;
  }

  lemma OrderlyCached(objs: seq<Call>, t: Track, k: Key, now: real)
    requires Orderly(objs, t, k, now)
    ensures t.cached.Some? && k.verb != Invite ==> t.cached.value.response.code >= 200
  {
    hide OneFinal, Provisional, OpenOn, TimerOn;
  }

  lemma UndisturbedTaken(a: Account, q: Account, t: Track, req: Request, now: real)
    requires req.verb != Ack && !Disturbs(a, req, now) && !Absorbed(a, req, now)
    requires q.objs == a.objs && q.calls == a.calls
    requires t == TrackOf(Swept(a, now).wire, req.Txn()) && Orderly(a.objs, t, req.Txn(), now)
    requires TrackOf(q.wire, req.Txn()) == Track(Left(t), t.cached)
    ensures TakenUp(q, t, req.Txn(), req, now)
  {
    hide Orderly, OpenOn, Emitted, Absorbed;
    forall i | 0 <= i < |a.objs| && OpenOn(a.objs[i], req.Txn()) ensures EndsItself(q, req, i) {
      assert EndsItself(a, req, i);
    }
  }

  /** Entries sit under the transaction of the request they answer. */
  predicate Filed(w: Wire) {
    forall k :: k in w.cache ==> w.cache[k].response.to.Txn() == k
  }

  lemma {:induction false} LatestIsOfKey(log: seq<Mark>, k: Key)
    ensures Latest(log, k).Some? ==> Latest(log, k).value.response.to.Txn() == k
    decreases |log|
  {
    if log != [] {
      LatestIsOfKey(log[..|log| - 1], k);
    }
  }

  lemma TruthfulFiled(w: Wire, now: real)
    requires Truthful(w, now)
    ensures Filed(w)
  {
    hide Latest;
    forall k | k in w.cache ensures w.cache[k].response.to.Txn() == k {
      assert Remembered(w, k, now);
      LatestIsOfKey(w.log, k);
    }
  }

  // ---- Steps and runs ----

  ghost predicate Steady(a: Account, now: real) {
    Keeps(a) && Truthful(a.wire, now) && AllOrderly(a, now)
  }

  /** The same account with nothing but its own history. */
  lemma StepTruthful(a: Account, e: Event, now: real)
    requires Indexed(a) && Truthful(a.wire, now)
    ensures Truthful(Step(a, e, now).wire, now)
  {
    hide Truthful, Step, Fresh;
    OneStep(a, a.(wire := Wire(a.wire.cache, Fresh(a.wire.log))), e, now);
  }

  lemma StepOrderly(a: Account, e: Event, k: Key, now: real)
    requires Keeps(a) && Truthful(a.wire, now)
    requires e.Arrives? ==> !Disturbs(a, e.req, now)
    requires Orderly(a.objs, TrackOf(a.wire, k), k, now)
    ensures Indexed(a)
    ensures var b := Step(a, e, now); Orderly(b.objs, TrackOf(b.wire, k), k, now)
  {
    hide Orderly, Keeps, TrackOf, Receive, OnCall, Truthful, Finals;
    KeepsIndexed(a);
    match e {
      case Arrives(req, port) =>
        ReceiveOrderly(a, req, port, k, now);
      case Dial(id) =>
        var c := Call(id, false, Calling, None, None, false, None, T1, 0.0, true, None, None, false, false, 0);
        JoinedOrderly(a.objs, c, TrackOf(a.wire, k), k, now);
      case _ =>
        if e.call < |a.objs| {
          SoundAt(a, e.call);
          KeepsFinals(a);
          OnCallProper(a.objs, e.call, a.wire, e, k, now, a.udp);
        }
    }
  }

  lemma StepSteady(a: Account, e: Event, from: real, now: real)
    requires Steady(a, from) && from <= now
    requires e.Arrives? ==> !Disturbs(a, e.req, now)
    ensures Indexed(a) && Steady(Step(a, e, now), now)
  {
    hide Orderly, Keeps, TrackOf, Step, Truthful, Disturbs;
    KeepsIndexed(a);
    StepKeeps(a, e, now);
    LaterTruthful(a.wire, from, now);
    StepTruthful(a, e, now);
    var b := Step(a, e, now);
    forall k: Key ensures Orderly(b.objs, TrackOf(b.wire, k), k, now) {
      LaterOrderly(a.objs, TrackOf(a.wire, k), k, from, now);
      StepOrderly(a, e, k, now);
    }
  }

  /** A run in which no request disturbs a transaction. */
  predicate Punctual(a: Account, events: seq<Timed>)
    requires Keeps(a)
    decreases |events|
  {
    events == [] ||
    (var e := events[0];
     StepKeeps(a, e.event, e.at);
     KeepsIndexed(a);
     && (e.event.Arrives? ==> !Disturbs(a, e.event.req, e.at))
     && Punctual(Step(a, e.event, e.at), events[1..]))
  }

  /** Every transaction has at most one final response, and nothing else after it. */
  ghost predicate SingleFinals(a: Account) {
    forall k: Key :: OneFinal(Emitted(a.wire.log, k))
  }

  lemma SteadySingle(a: Account, now: real)
    requires Steady(a, now)
    ensures SingleFinals(a)
  {
    hide Keeps, Truthful, OneFinal, Emitted, OpenOn, TimerOn, Provisional;
    forall k: Key ensures OneFinal(Emitted(a.wire.log, k)) {
      assert Orderly(a.objs, TrackOf(a.wire, k), k, now);
    }
  }

  lemma {:induction false} RunSteady(a: Account, events: seq<Timed>, from: real)
    requires Steady(a, from) && Ordered(events, from) && Punctual(a, events)
    ensures Steady(Run(a, events), End(events, from))
    decreases |events|
  {
    hide Step, Keeps, AllOrderly, Truthful, Disturbs;
    if events != [] {
      var e := events[0];
      KeepsIndexed(a);
      StepKeeps(a, e.event, e.at);
      StepSteady(a, e.event, from, e.at);
      EndTail(events, from);
      RunSteady(Step(a, e.event, e.at), events[1..], e.at);
    }
  }

  lemma InitialSteady(udp: bool, hook: bool, now: real)
    ensures Steady(Initial(udp, hook), now)
  {
    InitialTwin(udp, hook, now);
  }

  /** Whatever the order of ringing, answer, reject, redirect, hangup, CANCEL, BYE, re-INVITE and timers, as long as no
      request disturbs a transaction. */
  lemma OneFinalPerTransaction(udp: bool, hook: bool, events: seq<Timed>, from: real)
    requires Ordered(events, from)
    ensures Keeps(Initial(udp, hook))
    ensures Punctual(Initial(udp, hook), events) ==> SingleFinals(Run(Initial(udp, hook), events))
  {
    hide Keeps, Truthful, AllOrderly, Punctual, Ordered, SingleFinals;
    InitialSteady(udp, hook, from);
    if Punctual(Initial(udp, hook), events) {
      RunSteady(Initial(udp, hook), events, from);
      SteadySingle(Run(Initial(udp, hook), events), End(events, from));
    }
  }
}
