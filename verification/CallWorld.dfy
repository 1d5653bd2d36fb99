/** All users, voice chats and SIP-to-SIP bridges of the gateway together (sipgram/manager.py): where every
    leg is, over every run. */
module CallWorld {
  import opened Options
  import opened CallControl

  /** A `GroupSession`; a session that has left `group_calls` keeps its number. */
  datatype Session = Session(number: nat, legs: set<Leg>)

  /** Where a leg was put last. The steps write this and never read it. */
  datatype Place = Slot(user: nat) | Group(gateway: Gateway) | Bridged(entry: nat) | Stray | Nowhere

  datatype Pair = Pair(one: Leg, other: Leg)

  /** `live` are the legs whose call has not ended, `connected` those that have been answered. */
  datatype World = World(users: seq<User>, gateways: seq<Gateway>, groups: map<Gateway, Session>,
                         bridges: map<nat, Pair>, owner: map<Leg, nat>, live: set<Leg>, connected: set<Leg>, next: nat,
                         sessions: nat, entries: nat, place: map<Leg, Place>)

  function Initial(gateways: seq<Gateway>): World {
    World(seq(|gateways|, _ => NOBODY), gateways, map[], map[], map[], {}, {}, 0, 0, 0, map[])
  }

  datatype Event =
    | RingStart(call: nat, users: set<nat>)
    | RingAnswer(user: nat, tg: Telegram, present: bool)
    | RingFail(user: nat)
    | CallerGone(call: nat)
    | Offer(user: nat)
    | OutgoingStart(user: nat)
    | OutgoingAnswer(user: nat, tg: Telegram, invited: bool)
    | OutgoingFail(user: nat)
    | ConsultDial(user: nat, invited: bool)
    | Connects(leg: Leg)
    | Dies(leg: Leg)
    | LegGone(leg: Leg)
    | TelegramGone(user: nat, tg: Telegram, retry: bool)
    | ReconnectAnswer(user: nat, tg: Telegram)
    | ReconnectFail(user: nat)
    | Hangup(user: nat)
    | SwitchLegs(user: nat)
    | Transfer(user: nat)
    | Decline(user: nat)
    | ToGroup(user: nat)
    | GroupDialIn(user: nat, gateway: Gateway, session: nat)
    | LeaveGroup(gateway: Gateway)
    | BridgeGone(entry: nat)

  // ---- Bookkeeping ----

  /** The slots of user i after a change; a leg that lost its slot is nowhere until it is put elsewhere. */
  function Reslot(place: map<Leg, Place>, i: nat, slots: set<Leg>): map<Leg, Place> {
    map l | l in place.Keys + slots ::
      if l in slots then Slot(i) else if place[l] == Slot(i) then Nowhere else place[l]
  }

  /** User i changes, and the legs that lose their slot are hung up. */
  function Change(w: World, i: nat, u: User): World
    requires i < |w.users|
  {
    w.(users := w.users[i := u], place := Reslot(w.place, i, Slots(u)), live := w.live - (Slots(w.users[i]) - Slots(u)))
  }

  /** A new call for user i: an incoming one, or an INVITE that went out. */
  function NewLeg(w: World, i: nat, connected: bool): World {
    w.(owner := w.owner[w.next := i], live := w.live + {w.next}, next := w.next + 1,
       connected := if connected then w.connected + {w.next} else w.connected)
  }

  function Kill(w: World, legs: set<Leg>): World {
    w.(live := w.live - legs)
  }

  function Put(place: map<Leg, Place>, legs: set<Leg>, p: Place): map<Leg, Place> {
    map l | l in place.Keys + legs :: if l in legs then p else place[l]
  }

  /** A new leg of user i that is put nowhere: its call lives, and nobody has it. */
  function Strand(w: World, i: nat, connected: bool): World {
    var x := NewLeg(w, i, connected);
    x.(place := Put(x.place, {w.next}, Stray))
  }

  // ---- Handlers ----

  /** `_ring_users` begins: the idle users' telephones ring. */
  function StartRing(w: World, call: nat, users: set<nat>): World {
    w.(users := seq(|w.users|, i requires 0 <= i < |w.users| =>
      if i in users && !Busy(w.users[i]) then w.users[i].(attempt := Ring(call)) else w.users[i]))
  }

  /** Every attempt for the call but user i's is cancelled. */
  function CancelRing(users: seq<User>, call: nat, winner: Option<nat>): seq<User> {
    seq(|users|, i requires 0 <= i < |users| =>
      if users[i].attempt == Ring(call) && winner != Some(i) then users[i].(attempt := Idle) else users[i])
  }

  /** `_ring_users` when user i has answered; `present` says whether the caller is still there. A user whose lock is
      lost gets a leg, and the handler waits for the lock for ever: the call is neither answered nor rejected. */
  function AnswerRing(w: World, i: nat, tg: Telegram, present: bool): World
    requires i < |w.users|
  {
    var u := w.users[i];
    if !u.attempt.Ring? then w
    else
      var x := w.(users := CancelRing(w.users, u.attempt.call, Some(i)));
      if !present then Change(x, i, u.(attempt := Idle))
      else if u.stuck then Strand(Change(x, i, u.(attempt := Idle)), i, false)
      else Change(NewLeg(x, i, true), i, RingWon(u, tg, x.next))
  }

  /** `_offer_waiting` */
  function OfferWaiting(w: World, i: nat): World
    requires i < |w.users|
  {
    if MayWait(w.users[i]) then Change(NewLeg(w, i, false), i, w.users[i].(waiting := Some(w.next))) else w
  }

  function AnswerOutgoing(w: World, i: nat, tg: Telegram, invited: bool): World
    requires i < |w.users|
  {
    var u := w.users[i];
    if u.attempt != Outgoing then w
    else if invited && !u.stuck then Change(NewLeg(w, i, false), i, OutgoingAnswered(u, tg, Some(w.next)))
    else Change(w, i, OutgoingAnswered(u, tg, None))
  }

  function DialConsult(w: World, i: nat, invited: bool): World
    requires i < |w.users|
  {
    var u := w.users[i];
    if !MayConsult(u) then w
    else if invited then Change(NewLeg(w, i, false), i, Consult(u, Some(w.next)))
    else Change(w, i, Consult(u, None))
  }

  /** The session a leg is in, if any: `_group_of`. */
  predicate InGroup(w: World, leg: Leg) {
    exists g :: g in w.groups && leg in w.groups[g].legs
  }

  function WithoutLeg(groups: map<Gateway, Session>, leg: Leg): map<Gateway, Session> {
    map g | g in groups && groups[g].legs != {leg} :: groups[g].(legs := groups[g].legs - {leg})
  }

  /** `_leg_ended`: a waiting leg that takes over is answered. */
  function EndLeg(w: World, leg: Leg): World {
    if leg in w.live || leg !in w.owner then w
    else if InGroup(w, leg) then w.(groups := WithoutLeg(w.groups, leg), place := Put(w.place, {leg}, Nowhere))
    else
      var i := w.owner[leg];
      if i >= |w.users| then w
      else
        var x := Change(w, i, LegEnded(w.users[i], leg));
        x.(connected := x.connected + Answered(w.users[i], x.users[i], x.live))
  }

  /** The waiting leg that has become active, if it is still there to be answered. */
  function Answered(u: User, later: User, live: set<Leg>): set<Leg> {
    One(u.waiting) * One(later.active) * live
  }

  function EndTelegram(w: World, i: nat, tg: Telegram, retry: bool): World
    requires i < |w.users|
  {
    var u := w.users[i];
    var resumable := retry && u.active.Some? && u.active.value in w.live && u.active.value in w.connected;
    Change(w, i, TgEnded(u, tg, resumable))
  }

  function WinReconnect(w: World, i: nat, tg: Telegram): World
    requires i < |w.users|
  {
    var u := w.users[i];
    if !u.attempt.Reconnect? then w else Change(w, i, ReconnectWon(u, tg, u.attempt.leg in w.live))
  }

  /** `_hangup` */
  function HangUp(w: World, i: nat): World
    requires i < |w.users| == |w.gateways|
  {
    var u := w.users[i];
    if u.active.Some? && u.active.value in w.live then Kill(w, {u.active.value})
    else if Busy(u) then Change(w, i, EndEverything(u))
    else if w.gateways[i] in w.groups then
      Kill(w, set l | l in w.groups[w.gateways[i]].legs && l in w.owner && w.owner[l] == i)
    else w
  }

  function DoSwitch(w: World, i: nat): World
    requires i < |w.users|
  {
    var u := w.users[i];
    var x := Change(w, i, Switch(u));
    x.(connected := x.connected + Answered(u, x.users[i], x.live))
  }

  /** `_transfer`: both far ends are joined and the user leaves. */
  function DoTransfer(w: World, i: nat): World
    requires i < |w.users|
  {
    var u := w.users[i];
    if !MayTransfer(u, u.active.Some? && u.active.value in w.live && u.active.value in w.connected) then w
    else
      var legs := {u.active.value, u.held.value};
      var x := w.(users := w.users[i := Transferred(u)], place := Reslot(w.place, i, Slots(Transferred(u))));
      x.(bridges := x.bridges[x.entries := Pair(u.active.value, u.held.value)], entries := x.entries + 1,
         place := Put(x.place, legs, Bridged(x.entries)))
  }

  /** `_group` joins the voice chat if need be; `_move_to_group` hands over the user's legs. */
  function MoveToGroup(w: World, i: nat): World
    requires i < |w.users| == |w.gateways|
  {
    var g := w.gateways[i];
    var x := if g in w.groups then w
        else w.(groups := w.groups[g := Session(w.sessions, {})], sessions := w.sessions + 1);
    var u := x.users[i];
    var moved := Movable(u, x.live);
    JoinGroup(Change(x, i, MovedOut(u, x.live)), g, moved)
  }

  /** Legs that have left their slots alive come into the chat. */
  function JoinGroup(w: World, g: Gateway, moved: set<Leg>): World
    requires g in w.groups
  {
    w.(groups := w.groups[g := w.groups[g].(legs := w.groups[g].legs + moved)], live := w.live + moved,
       place := Put(w.place, moved, Group(g)))
  }

  /** `_dial_into_group` once the number has answered; the session is the one the command found. */
  function DialIntoGroup(w: World, i: nat, g: Gateway, session: nat): World
    requires i < |w.users|
  {
    var leg := w.next;
    var x := NewLeg(w, i, true);
    if g in w.groups && w.groups[g].number == session
    then x.(groups := x.groups[g := x.groups[g].(legs := x.groups[g].legs + {leg})],
            place := Put(x.place, {leg}, Group(g)))
    else Strand(w, i, true)
  }

  /** `_leave_group`, and `_watch_group` when Telegram ends the chat. */
  function EndGroup(w: World, g: Gateway): World {
    if g !in w.groups then w
    else
      var legs := w.groups[g].legs;
      Kill(w, legs).(groups := w.groups - {g}, place := Put(w.place, legs, Nowhere))
  }

  /** The watcher of a SIP-to-SIP bridge, once one of its calls has ended. */
  function EndBridge(w: World, k: nat): World {
    if k !in w.bridges || (w.bridges[k].one in w.live && w.bridges[k].other in w.live) then w
    else
      var legs := {w.bridges[k].one, w.bridges[k].other};
      Kill(w, legs).(bridges := w.bridges - {k}, place := Put(w.place, legs, Nowhere))
  }

  function Set(w: World, i: nat, u: User): World
    requires i < |w.users|
  {
    w.(users := w.users[i := u])
  }

  predicate Shaped(w: World) {
    |w.users| == |w.gateways|
  }

  function Step(w: World, e: Event): World
    requires Shaped(w)
  {
    match e
    case RingStart(call, users) => StartRing(w, call, users)
    case CallerGone(call) => w.(users := CancelRing(w.users, call, None))
    case Connects(leg) => if leg in w.live then w.(connected := w.connected + {leg}) else w
    case Dies(leg) => Kill(w, {leg})
    case LegGone(leg) => EndLeg(w, leg)
    case LeaveGroup(g) => EndGroup(w, g)
    case BridgeGone(k) => EndBridge(w, k)
    case _ => if e.user < |w.users| then UserStep(w, e.user, e) else w
  }

  predicate ForUser(e: Event) {
    !e.RingStart? && !e.CallerGone? && !e.Connects? && !e.Dies? && !e.LegGone? && !e.LeaveGroup? && !e.BridgeGone?
  }

  /** The events of an attempt to reach the user. */
  predicate Dialling(e: Event) {
    || e.RingAnswer? || e.RingFail? || e.Offer? || e.OutgoingStart? || e.OutgoingAnswer? || e.OutgoingFail?
    || e.ReconnectAnswer? || e.ReconnectFail?
  }

  /** The handlers that one user's command or Telegram call starts. */
  function UserStep(w: World, i: nat, e: Event): World
    requires Shaped(w) && i < |w.users| && ForUser(e)
  {
    if Dialling(e) then DialStep(w, i, e) else CommandStep(w, i, e)
  }

  function DialStep(w: World, i: nat, e: Event): World
    requires i < |w.users| && Dialling(e)
  {
    var u := w.users[i];
    match e
    case RingAnswer(_, tg, present) => AnswerRing(w, i, tg, present)
    case RingFail(_) => if u.attempt.Ring? then Set(w, i, u.(attempt := Idle)) else w
    case Offer(_) => OfferWaiting(w, i)
    case OutgoingStart(_) => if Busy(u) then w else Set(w, i, u.(attempt := Outgoing))
    case OutgoingAnswer(_, tg, invited) => AnswerOutgoing(w, i, tg, invited)
    case OutgoingFail(_) => if u.attempt == Outgoing then Set(w, i, u.(attempt := Idle)) else w
    case ReconnectAnswer(_, tg) => WinReconnect(w, i, tg)
    case ReconnectFail(_) => if u.attempt.Reconnect? then Change(w, i, ReconnectFailed(u)) else w
  }

  function CommandStep(w: World, i: nat, e: Event): World
    requires Shaped(w) && i < |w.users| && ForUser(e) && !Dialling(e)
  {
    var u := w.users[i];
    match e
    case ConsultDial(_, invited) => DialConsult(w, i, invited)
    case TelegramGone(_, tg, retry) => EndTelegram(w, i, tg, retry)
    case Hangup(_) => HangUp(w, i)
    case SwitchLegs(_) => DoSwitch(w, i)
    case Transfer(_) => DoTransfer(w, i)
    case Decline(_) => if u.waiting.Some? then Kill(w, {u.waiting.value}) else w
    case ToGroup(_) => MoveToGroup(w, i)
    case GroupDialIn(_, g, session) => DialIntoGroup(w, i, g, session)
  }
}
