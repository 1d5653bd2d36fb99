/** Per-user call control (sipgram/manager.py) as a transition system: one Telegram call per user, SIP legs
    attached to it, voice-chat sessions and SIP-to-SIP bridges. A step runs a handler from one wait on a
    person or a far end to the next. */
module CallControl {
  import opened Options

  type Leg = nat
  type Telegram = nat
  type Gateway = nat

  // ---- One user ----

  /** What `tg_pending` and `reconnect_task` stand for: a Telegram call that has not been answered yet. */
  datatype Attempt = Idle | Ring(call: nat) | Outgoing | Reconnect(leg: Leg)

  /** A `CallBridge` and the two calls it joins. */
  datatype Bridge = Bridge(leg: Leg, tg: Telegram)

  /** `UserState`; `stuck` once a handler waits for the user's lock while holding it. */
  datatype User = User(tg: Option<Telegram>, attempt: Attempt, active: Option<Leg>, held: Option<Leg>,
                       waiting: Option<Leg>, bridge: Option<Bridge>, stuck: bool)

  const NOBODY := User(None, Idle, None, None, None, None, false)

  function One(leg: Option<Leg>): set<Leg> {
    if leg.Some? then {leg.value} else {}
  }

  function Slots(u: User): set<Leg> {
    One(u.active) + One(u.held) + One(u.waiting)
  }

  predicate Busy(u: User) {
    u.tg.Some? || u.attempt != Idle
  }

  /** `_attach` */
  function Attach(u: User, leg: Leg): User
    requires u.tg.Some?
  {
    u.(active := Some(leg), bridge := Some(Bridge(leg, u.tg.value)))
  }

  /** `_resume_held` */
  function ResumeHeld(u: User): User {
    if u.held.None? || u.tg.None? then u else Attach(u.(held := None), u.held.value)
  }

  /** `_end_everything`; the legs that lose their slot are hung up or rejected. */
  function EndEverything(u: User): User {
    if u.stuck then u else User(None, Idle, None, None, None, None, false)
  }

  /** The answer to a ringing Telegram call: `_ring_users` after a winner, once it has the user's lock. */
  function RingWon(u: User, tg: Telegram, leg: Leg): User {
    Attach(u.(attempt := Idle, tg := Some(tg)), leg)
  }

  predicate MayWait(u: User) {
    u.waiting.None? && u.held.None? && !u.attempt.Reconnect? && u.tg.Some?
  }

  /** An answered callback or an accepted call, and `_dial_leg` without consultation. */
  function OutgoingAnswered(u: User, tg: Telegram, invited: Option<Leg>): User {
    if u.stuck then u
    else
      var v := u.(attempt := Idle, tg := Some(tg));
      if invited.Some? then Attach(v, invited.value) else EndEverything(v)
  }

  predicate MayConsult(u: User) {
    u.tg.Some? && u.attempt == Idle && u.held.None? && u.waiting.None? && u.active.Some?
  }

  /** `_dial` during a call, and `_dial_leg` with consultation. */
  function Consult(u: User, invited: Option<Leg>): User
    requires MayConsult(u)
  {
    var v := u.(held := u.active, active := None, bridge := None);
    if invited.Some? then Attach(v, invited.value) else ResumeHeld(v)
  }

  /** `_leg_ended` for a leg outside the voice chats. */
  function LegEnded(u: User, leg: Leg): User {
    if u.stuck then u
    else if u.waiting == Some(leg) then u.(waiting := None)
    else if u.held == Some(leg) then u.(held := None)
    else if u.active != Some(leg) then u
    else
      var v := u.(active := None, bridge := None);
      if v.held.Some? then ResumeHeld(v)
      else if v.waiting.Some? && v.tg.Some? then Attach(v.(waiting := None), v.waiting.value)
      else v.(tg := None)
  }

  /** `_tg_ended`; `resumable` says whether the reason, the configuration and the active leg allow a reconnect. */
  function TgEnded(u: User, tg: Telegram, resumable: bool): User {
    if u.stuck || u.tg != Some(tg) then u
    else
      var v := u.(tg := None, bridge := None);
      if resumable && u.active.Some? && !u.attempt.Reconnect? then v.(attempt := Reconnect(u.active.value))
          else EndEverything(v)
  }

  /** `_reconnect` after the user answers again; `present` says whether the leg is still alive. */
  function ReconnectWon(u: User, tg: Telegram, present: bool): User
    requires u.attempt.Reconnect?
  {
    if u.active != Some(u.attempt.leg) || !present then u.(attempt := Idle, stuck := true)
    else Attach(u.(attempt := Idle, tg := Some(tg)), u.attempt.leg)
  }

  function ReconnectFailed(u: User): User {
    EndEverything(u.(attempt := Idle))
  }

  /** `_switch` */
  function Switch(u: User): User {
    if u.stuck then u
    else if u.waiting.Some? && u.tg.Some? then
      var v := if u.active.Some? then u.(held := u.active, active := None, bridge := None) else u;
      Attach(v.(waiting := None), u.waiting.value)
    else if u.held.Some? && u.tg.Some? then Attach(u.(held := u.active), u.held.value)
    else u
  }

  /** `_transfer` without an argument; `connected` says whether the active leg is. */
  predicate MayTransfer(u: User, connected: bool) {
    !u.stuck && u.active.Some? && u.held.Some? && connected
  }

  function Transferred(u: User): User {
    u.(active := None, held := None, bridge := None, tg := None)
  }

  /** The legs that `_move_to_group` takes: the live ones of held and active. */
  function Movable(u: User, live: set<Leg>): set<Leg> {
    if u.stuck then {} else (One(u.held) + One(u.active)) * live
  }

  function MovedOut(u: User, live: set<Leg>): User {
    var moved := Movable(u, live);
    var v := if u.active.Some? && u.active.value in moved then u.(active := None, bridge := None) else u;
    var x := if u.held.Some? && u.held.value in moved then v.(held := None) else v;
    if moved != {} && u.tg.Some? then EndEverything(x) else x
  }

  // ---- The invariant of one user ----

  predicate Distinct(u: User) {
    && (u.active.Some? ==> u.active != u.held && u.active != u.waiting)
    && (u.held.Some? ==> u.held != u.waiting)
  }

  /** Held and waiting exclude each other; a bridge joins exactly the active leg and the Telegram call; a leg needs a
      Telegram call or a reconnect; an attempt that is not a reconnect has no leg beside it. */
  predicate Sound(u: User) {
    && Distinct(u)
    && (u.held.None? || u.waiting.None?)
    && (u.tg.Some? ==> u.active.Some? && u.attempt == Idle && !u.stuck)
    && u.bridge == (if u.tg.Some? && u.active.Some? then Some(Bridge(u.active.value, u.tg.value)) else None)
    && (Slots(u) != {} ==> u.tg.Some? || u.attempt.Reconnect? || u.stuck)
    && (u.attempt.Reconnect? ==> !u.stuck)
  }

  lemma EndSound(u: User)
    requires u.stuck ==> Sound(u)
    ensures Sound(EndEverything(u)) && Slots(EndEverything(u)) <= Slots(u)
  {
  }

  lemma RingSound(u: User, tg: Telegram, leg: Leg)
    requires Sound(u) && u.attempt.Ring? && !u.stuck && leg !in Slots(u)
    ensures Sound(RingWon(u, tg, leg)) && Slots(RingWon(u, tg, leg)) <= Slots(u) + {leg}
  {
  }

  lemma OutgoingSound(u: User, tg: Telegram, invited: Option<Leg>)
    requires Sound(u) && u.attempt == Outgoing && Slots(u) !! One(invited)
    ensures Sound(OutgoingAnswered(u, tg, invited))
    ensures Slots(OutgoingAnswered(u, tg, invited)) <= Slots(u) + One(invited)
  {
  }

  lemma ConsultSound(u: User, invited: Option<Leg>)
    requires Sound(u) && MayConsult(u) && Slots(u) !! One(invited)
    ensures Sound(Consult(u, invited)) && Slots(Consult(u, invited)) == Slots(u) + One(invited)
  {
  }

  lemma LegEndedSound(u: User, leg: Leg)
    requires Sound(u)
    ensures Sound(LegEnded(u, leg)) && Slots(LegEnded(u, leg)) == if u.stuck then Slots(u) else Slots(u) - {leg}
  {
  }

  lemma TgEndedSound(u: User, tg: Telegram, resumable: bool)
    requires Sound(u)
    ensures Sound(TgEnded(u, tg, resumable)) && Slots(TgEnded(u, tg, resumable)) <= Slots(u)
  {
  }

  lemma ReconnectSound(u: User, tg: Telegram, present: bool)
    requires Sound(u) && u.attempt.Reconnect?
    ensures Sound(ReconnectWon(u, tg, present)) && Slots(ReconnectWon(u, tg, present)) == Slots(u)
    ensures Sound(ReconnectFailed(u)) && Slots(ReconnectFailed(u)) == {}
  {
  }

  /** `_switch` moves legs between slots and loses none: `held` is free whenever it is overwritten. */
  lemma SwitchSound(u: User)
    requires Sound(u)
    ensures Sound(Switch(u)) && Slots(Switch(u)) == Slots(u)
  {
  }

  lemma TransferSound(u: User, connected: bool)
    requires Sound(u) && MayTransfer(u, connected)
    ensures Sound(Transferred(u)) && Slots(Transferred(u)) == Slots(u) - {u.active.value, u.held.value}
    ensures u.waiting.None?
    ensures u.active.value != u.held.value
  {
  }

  lemma MoveSound(u: User, live: set<Leg>)
    requires Sound(u)
    ensures Sound(MovedOut(u, live)) && Slots(MovedOut(u, live)) <= Slots(u) - Movable(u, live)
    ensures Movable(u, live) <= Slots(u) * live
  {
  }
}
