/** Every step of module CallWorld once more, observed from the outside: instead of what a handler does, when each
    part of the state changes and to what, over all events. */
module StateAfter {
  import opened Options
  import opened CallControl
  import opened CallWorld
  import opened LegConservation
  import opened LegTheorems
  import opened LegMoves

  // ---- When things end ----

  predicate Alive(w: World, leg: Option<Leg>) {
    leg.Some? && leg.value in w.live
  }

  /** The call of a leg of user i has ended and the user's lock can be had. */
  predicate Lost(w: World, e: Event, i: nat, leg: Option<Leg>)
    requires i < |w.users|
  {
    leg.Some? && e == LegGone(leg.value) && leg.value !in w.live && !w.users[i].stuck
  }

  /** Everything of user i ends. */
  predicate Cleared(w: World, e: Event, i: nat)
    requires i < |w.users|
  {
    var u := w.users[i];
    match e
    case TelegramGone(j, tg, retry) => j == i && u.tg == Some(tg) && !Resumes(w, i, retry)
    case Hangup(j) => j == i && Busy(u) && !u.stuck && !Alive(w, u.active)
    case ReconnectFail(j) => j == i && u.attempt.Reconnect?
    case OutgoingAnswer(j, _, invited) => j == i && u.attempt == Outgoing && !invited && !u.stuck
    case ToGroup(j) => j == i && u.tg.Some? && (Alive(w, u.active) || Alive(w, u.held))
    case _ => false
  }

  /** User i's two legs are joined and the user is free. */
  predicate Transfers(w: World, e: Event, i: nat)
    requires i < |w.users|
  {
    var u := w.users[i];
    e == Transfer(i) && !u.stuck && Alive(w, u.active) && u.active.value in w.connected && u.held.Some?
  }

  /** User i takes the call that rings, or reaches the number called, or comes back. */
  predicate Answers(w: World, e: Event, i: nat)
    requires i < |w.users|
  {
    var u := w.users[i];
    match e
    case RingAnswer(j, _, present) => j == i && present && u.attempt.Ring? && !u.stuck
    case OutgoingAnswer(j, _, invited) => j == i && invited && u.attempt == Outgoing && !u.stuck
    case ReconnectAnswer(j, _) =>
      j == i && u.attempt.Reconnect? && u.active == Some(u.attempt.leg) && Alive(w, u.active)
    case _ => false
  }

  // ---- The Telegram call ----

  /** A Telegram call begins exactly when it is answered, and ends exactly when Telegram ends it, its last leg has gone,
      the user transfers or moves, or everything ends. */
  function TelegramAfter(w: World, e: Event, i: nat): Option<Telegram>
    requires i < |w.users|
  {
    var u := w.users[i];
    if Answers(w, e, i) then Some(e.tg)
    else if Cleared(w, e, i) || Transfers(w, e, i) then None
    else if e.TelegramGone? && e.user == i && Some(e.tg) == u.tg then None
    else if Lost(w, e, i, u.active) && u.held.None? && u.waiting.None? then None
    else u.tg
  }

  // ---- The attempt to reach the user ----

  /** The ringing for a call is over: someone has taken it, or the caller has gone. */
  predicate RingOver(w: World, e: Event, call: nat) {
    || e == CallerGone(call)
    || (e.RingAnswer? && e.user < |w.users| && w.users[e.user].attempt == Ring(call))
  }

  function AttemptAfter(w: World, e: Event, i: nat): Attempt
    requires i < |w.users|
  {
    var u := w.users[i];
    if e.RingStart? && i in e.users && u.tg.None? && u.attempt == Idle then Ring(e.call)
    else if e == OutgoingStart(i) && u.tg.None? && u.attempt == Idle then Outgoing
    else if e.TelegramGone? && e.user == i && u.tg == Some(e.tg) && Resumes(w, i, e.retry) then
      Reconnect(u.active.value)
    else if u.attempt.Ring? && (RingOver(w, e, u.attempt.call) || e == RingFail(i)) then Idle
    else if u.attempt == Outgoing && (e == OutgoingFail(i) || (e.OutgoingAnswer? && e.user == i && !u.stuck)) then Idle
    else if u.attempt.Reconnect? && e.ReconnectAnswer? && e.user == i then Idle
    else if Cleared(w, e, i) then Idle
    else u.attempt
  }

  // ---- The slots ----

  /** Call waiting is free for another call: the user talks, with nothing on hold and nobody waiting. */
  predicate FreeToWait(u: User) {
    u.tg.Some? && u.held.None? && u.waiting.None?
  }

  predicate Consults(w: World, e: Event, i: nat)
    requires i < |w.users|
  {
    e == ConsultDial(i, true) && FreeToWait(w.users[i]) && w.users[i].active.Some?
  }

  function ActiveAfter(w: World, e: Event, i: nat): Option<Leg>
    requires i < |w.users|
  {
    var u := w.users[i];
    if !e.ReconnectAnswer? && Answers(w, e, i) then Some(w.next)
    else if Consults(w, e, i) then Some(w.next)
    else if e == SwitchLegs(i) && u.tg.Some? then
      if u.waiting.Some? then u.waiting else if u.held.Some? then u.held else u.active
    else if Lost(w, e, i, u.active) then
      if u.tg.None? then None else if u.held.Some? then u.held else u.waiting
    else if Cleared(w, e, i) || Transfers(w, e, i) then None
    else if e == ToGroup(i) && !u.stuck && Alive(w, u.active) then None
    else u.active
  }

  function HeldAfter(w: World, e: Event, i: nat): Option<Leg>
    requires i < |w.users|
  {
    var u := w.users[i];
    if Consults(w, e, i) then u.active
    else if e == SwitchLegs(i) && u.tg.Some? && (u.waiting.Some? || u.held.Some?) then u.active
    else if Lost(w, e, i, u.held) then None
    else if Lost(w, e, i, u.active) && u.tg.Some? then None
    else if Cleared(w, e, i) || Transfers(w, e, i) then None
    else if e == ToGroup(i) && !u.stuck && Alive(w, u.held) then None
    else u.held
  }

  function WaitingAfter(w: World, e: Event, i: nat): Option<Leg>
    requires i < |w.users|
  {
    var u := w.users[i];
    if e == Offer(i) && FreeToWait(u) then Some(w.next)
    else if e == SwitchLegs(i) && u.tg.Some? then None
    else if Lost(w, e, i, u.waiting) || (Lost(w, e, i, u.active) && u.tg.Some?) then None
    else if Cleared(w, e, i) then None
    else u.waiting
  }

  predicate Observed(w: World, e: Event, i: nat, x: User)
    requires i < |w.users|
  {
    && x.active == ActiveAfter(w, e, i) && x.held == HeldAfter(w, e, i) && x.waiting == WaitingAfter(w, e, i)
    && x.attempt == AttemptAfter(w, e, i)
    && x.tg == TelegramAfter(w, e, i)
  }

  /** A step leaves user i as observed. */
  predicate AsSeen(w: World, e: Event, i: nat) {
    Shaped(w) && i < |w.users| && i < |Step(w, e).users| && Observed(w, e, i, Step(w, e).users[i])
  }

  predicate Ready(w: World, e: Event, i: nat) {
    Shaped(w) && i < |w.users| && Sound(w.users[i])
  }

  lemma RingAnswerAfter(w: World, e: Event, i: nat)
    requires Ready(w, e, i) && e.RingAnswer? && e.user == i
    ensures AsSeen(w, e, i)
  {
    hide Reslot, Put, Slots;
  }

  lemma OfferAfter(w: World, e: Event, i: nat)
    requires Ready(w, e, i) && e.Offer? && e.user == i
    ensures AsSeen(w, e, i)
  {
    hide Reslot, Put, Slots;
  }

  lemma OutgoingAfter(w: World, e: Event, i: nat)
    requires Ready(w, e, i) && e.OutgoingAnswer? && e.user == i
    ensures AsSeen(w, e, i)
  {
    hide Reslot, Put, Slots;
  }

  lemma OutgoingStartAfter(w: World, e: Event, i: nat)
    requires Ready(w, e, i) && e.OutgoingStart? && e.user == i
    ensures AsSeen(w, e, i)
  {
    hide Reslot, Put, Slots;
  }

  lemma RingFailAfter(w: World, e: Event, i: nat)
    requires Ready(w, e, i) && e.RingFail? && e.user == i
    ensures AsSeen(w, e, i)
  {
    hide Reslot, Put, Slots;
  }

  lemma OutgoingFailAfter(w: World, e: Event, i: nat)
    requires Ready(w, e, i) && e.OutgoingFail? && e.user == i
    ensures AsSeen(w, e, i)
  {
    hide Reslot, Put, Slots;
  }

  lemma ReconnectAfter(w: World, e: Event, i: nat)
    requires Ready(w, e, i) && e.ReconnectAnswer? && e.user == i
    ensures AsSeen(w, e, i)
  {
    hide Reslot, Put, Slots;
  }

  lemma ReconnectFailAfter(w: World, e: Event, i: nat)
    requires Ready(w, e, i) && e.ReconnectFail? && e.user == i
    ensures AsSeen(w, e, i)
  {
    hide Reslot, Put, Slots;
  }

  lemma ConsultAfter(w: World, e: Event, i: nat)
    requires Ready(w, e, i) && e.ConsultDial? && e.user == i
    ensures AsSeen(w, e, i)
  {
    hide Reslot, Put, Slots;
  }

  lemma TelegramGoneAfter(w: World, e: Event, i: nat)
    requires Ready(w, e, i) && e.TelegramGone? && e.user == i
    ensures AsSeen(w, e, i)
  {
    hide Reslot, Put, Slots;
  }

  lemma HangupAfter(w: World, e: Event, i: nat)
    requires Ready(w, e, i) && e.Hangup? && e.user == i
    ensures AsSeen(w, e, i)
  {
    hide Reslot, Put, Slots, Observed;
    HangupSeen(w, e, i);
  }

  lemma HangupSeen(w: World, e: Event, i: nat)
    requires Ready(w, e, i) && e == Hangup(i)
    ensures var u := w.users[i];
            Observed(w, e, i, if Alive(w, u.active) || !Busy(u) || u.stuck then u else NOBODY)
  {
  }

  lemma SwitchAfter(w: World, e: Event, i: nat)
    requires Ready(w, e, i) && e.SwitchLegs? && e.user == i
    ensures AsSeen(w, e, i)
  {
    hide Reslot, Put, Slots;
  }

  lemma TransferAfter(w: World, e: Event, i: nat)
    requires Ready(w, e, i) && e.Transfer? && e.user == i
    ensures AsSeen(w, e, i)
  {
    hide Reslot, Put, Slots;
  }

  lemma ChatEvents(w: World, e: Event, i: nat)
    requires Ready(w, e, i) && (e.Decline? || e.GroupDialIn?) && e.user == i
    ensures AsSeen(w, e, i)
  {
    hide Reslot, Put, Slots;
  }

  lemma MoveAfter(w: World, e: Event, i: nat)
    requires Ready(w, e, i) && e.ToGroup? && e.user == i
    ensures AsSeen(w, e, i)
  {
    hide Reslot, Put, MovedOut, Movable;
    MovedAfter(w.users[i], w.live);
  }

  lemma MovedAfter(u: User, live: set<Leg>)
    requires Sound(u)
    ensures var v, alive := MovedOut(u, live), (leg: Option<Leg>) => leg.Some? && leg.value in live;
            if u.stuck then v == u
            else if u.tg.Some? && (alive(u.active) || alive(u.held)) then v == NOBODY
            else v == u.(active := if alive(u.active) then None else u.active,
                         held := if alive(u.held) then None else u.held,
                         bridge := if alive(u.active) then None else u.bridge)
  {
  }

  lemma StartAfter(w: World, e: Event, i: nat)
    requires Ready(w, e, i) && e.RingStart?
    ensures AsSeen(w, e, i)
  {
    hide Reslot, Put, Slots;
  }

  lemma CallerGoneAfter(w: World, e: Event, i: nat)
    requires Ready(w, e, i) && e.CallerGone?
    ensures AsSeen(w, e, i)
  {
    hide Reslot, Put, Slots;
  }

  /** Events about no user. */
  lemma WorldAfter(w: World, e: Event, i: nat)
    requires Ready(w, e, i) && (e.Connects? || e.Dies? || e.LeaveGroup? || e.BridgeGone?)
    ensures AsSeen(w, e, i)
  {
    hide Reslot, Put, Slots;
  }

  /** An event for another user goes unnoticed, but for the end of the ringing. */
  lemma OtherSeen(w: World, e: Event, i: nat)
    requires Ready(w, e, i) && ForUser(e) && e.user != i
    ensures var u := w.users[i];
            Observed(w, e, i, if u.attempt.Ring? && RingOver(w, e, u.attempt.call) then u.(attempt := Idle) else u)
  {
  }

  lemma OtherRing(w: World, e: Event, i: nat)
    requires Ready(w, e, i) && e.RingAnswer? && e.user != i
    ensures AsSeen(w, e, i)
  {
    hide Reslot, Put, Slots, Observed, RingWon;
    OtherSeen(w, e, i);
  }

  lemma OtherDial(w: World, e: Event, i: nat)
    requires Ready(w, e, i) && Dialling(e) && !e.RingAnswer? && e.user != i
    ensures AsSeen(w, e, i)
  {
    hide Reslot, Put, Slots, OutgoingAnswered, ReconnectWon, ReconnectFailed, Observed, Busy, MayWait;
    OtherSeen(w, e, i);
  }

  lemma OtherCommand(w: World, e: Event, i: nat)
    requires Ready(w, e, i) && ForUser(e) && !Dialling(e) && e.user != i
    ensures AsSeen(w, e, i)
  {
    hide Reslot, Put, Slots, Consult, TgEnded, Switch, EndEverything, Transferred, MovedOut, Movable, Observed;
    OtherSeen(w, e, i);
  }

  lemma SlotOwner(w: World, i: nat, l: Leg)
    requires Inv(w) && i < |w.users| && l in Slots(w.users[i])
    ensures !InGroup(w, l) && l in w.owner && w.owner[l] == i
  {
    hide Sound, Slots;
    InPlace(w, i, l);
  }

  lemma GoneSeen(w: World, e: Event, i: nat)
    requires Ready(w, e, i) && e.LegGone?
    ensures Observed(w, e, i, if e.leg in w.live then w.users[i] else LegEnded(w.users[i], e.leg))
  {
  }

  lemma GoneElsewhere(u: User, leg: Leg)
    requires leg !in Slots(u)
    ensures LegEnded(u, leg) == u
  {
  }

  /** The end of a leg: one of user i's, or another. */
  lemma GoneAfter(w: World, e: Event, i: nat)
    requires Ready(w, e, i) && e.LegGone?
    requires e.leg in Slots(w.users[i]) ==> !InGroup(w, e.leg) && e.leg in w.owner && w.owner[e.leg] == i
    ensures AsSeen(w, e, i)
  {
    hide Reslot, Put, InGroup, WithoutLeg, LegEnded, Slots, Observed;
    GoneSeen(w, e, i);
    if e.leg !in Slots(w.users[i]) {
      GoneElsewhere(w.users[i], e.leg);
    }
  }

  /** All that a step makes of user i, whoever the event is for. */
  lemma UserAfter(w: World, e: Event, i: nat)
    requires Inv(w) && i < |w.users|
    ensures AsSeen(w, e, i)
  {
    hide Inv, AsSeen, Sound;
    InvShaped(w);
    UserSound(w, i);
    if !ForUser(e) {
      if e.LegGone? {
        if e.leg in Slots(w.users[i]) {
          SlotOwner(w, i, e.leg);
        }
        GoneAfter(w, e, i);
      } else if e.RingStart? {
        StartAfter(w, e, i);
      } else if e.CallerGone? {
        CallerGoneAfter(w, e, i);
      } else {
        WorldAfter(w, e, i);
      }
    } else if e.user != i {
      OtherUser(w, e, i);
    } else if Dialling(e) {
      DialAfter(w, e, i);
    } else {
      CommandAfter(w, e, i);
    }
  }

  lemma OtherUser(w: World, e: Event, i: nat)
    requires Ready(w, e, i) && ForUser(e) && e.user != i
    ensures AsSeen(w, e, i)
  {
    hide AsSeen, Sound;
    if e.RingAnswer? {
      OtherRing(w, e, i);
    } else if Dialling(e) {
      OtherDial(w, e, i);
    } else {
      OtherCommand(w, e, i);
    }
  }

  lemma DialAfter(w: World, e: Event, i: nat)
    requires Ready(w, e, i) && Dialling(e) && e.user == i
    ensures AsSeen(w, e, i)
  {
    hide AsSeen, Sound;
    if e.RingAnswer? {
      RingAnswerAfter(w, e, i);
    } else if e.Offer? {
      OfferAfter(w, e, i);
    } else if e.OutgoingAnswer? {
      OutgoingAfter(w, e, i);
    } else if e.ReconnectAnswer? {
      ReconnectAfter(w, e, i);
    } else if e.ReconnectFail? {
      ReconnectFailAfter(w, e, i);
    } else if e.OutgoingStart? {
      OutgoingStartAfter(w, e, i);
    } else if e.RingFail? {
      RingFailAfter(w, e, i);
    } else {
      OutgoingFailAfter(w, e, i);
    }
  }

  lemma CommandAfter(w: World, e: Event, i: nat)
    requires Ready(w, e, i) && ForUser(e) && !Dialling(e) && e.user == i
    ensures AsSeen(w, e, i)
  {
    hide AsSeen, Sound;
    if e.ConsultDial? {
      ConsultAfter(w, e, i);
    } else if e.TelegramGone? {
      TelegramGoneAfter(w, e, i);
    } else if e.Hangup? {
      HangupAfter(w, e, i);
    } else if e.SwitchLegs? {
      SwitchAfter(w, e, i);
    } else if e.Transfer? {
      TransferAfter(w, e, i);
    } else if e.ToGroup? {
      MoveAfter(w, e, i);
    } else {
      ChatEvents(w, e, i);
    }
  }

  // ---- Legs ----

  /** Events that make a leg. */
  predicate Creates(w: World, e: Event) {
    || (e.GroupDialIn? && e.user < |w.users|)
    || ((e.RingAnswer? || e.OutgoingAnswer? || e.ConsultDial? || e.Offer?) && e.user < |w.users|
        && var u := w.users[e.user];
           match e
           case RingAnswer(_, _, present) => present && u.attempt.Ring?
           case OutgoingAnswer(_, _, invited) => Answers(w, e, e.user)
           case ConsultDial(_, _) => Consults(w, e, e.user)
           case _ => FreeToWait(u))
  }

  /** The caller waiting for user i is answered: the user switches, or the last other leg has gone. */
  predicate PicksUp(w: World, e: Event, i: nat, l: Leg) {
    && i < |w.users| && w.users[i].waiting == Some(l) && w.users[i].tg.Some? && l in w.live
    && (e == SwitchLegs(i) || Lost(w, e, i, w.users[i].active))
  }

  /** What a step does to the number of legs, and which legs are connected afterwards. */
  predicate Makes(w: World, x: World, creates: bool, connects: set<Leg>) {
    && x.next == w.next + (if creates then 1 else 0) && (w.next in x.live <==> creates)
    && x.connected == w.connected + connects
  }

  function Connecting(w: World, e: Event): set<Leg> {
    if e.Connects? then if e.leg in w.live then {e.leg} else {}
    else if e.GroupDialIn? then if e.user < |w.users| then {w.next} else {}
    else if e.RingAnswer? then if e.user < |w.users| && Answers(w, e, e.user) then {w.next} else {}
    else if e.SwitchLegs? then
      if e.user < |w.users| && w.users[e.user].tg.Some? then One(w.users[e.user].waiting) * w.live else {}
    else if e.LegGone? && e.leg in w.owner && w.owner[e.leg] < |w.users| then
      var i := w.owner[e.leg];
      if Lost(w, e, i, w.users[i].active) && w.users[i].tg.Some? then One(w.users[i].waiting) * w.live else {}
    else {}
  }

  predicate Made(w: World, e: Event) {
    Shaped(w) && Makes(w, Step(w, e), Creates(w, e), Connecting(w, e))
  }

  lemma RingMakes(w: World, e: Event)
    requires Shaped(w) && e.RingAnswer? && e.user < |w.users| && w.next !in w.live && w.next !in Slots(w.users[e.user])
    ensures Made(w, e)
  {
    hide Reslot, Put, Slots, RingWon;
  }

  lemma DialMakes(w: World, e: Event)
    requires Shaped(w) && (e.OutgoingAnswer? || e.ConsultDial? || e.Offer?) && e.user < |w.users|
    requires w.next !in w.live && w.next !in Slots(w.users[e.user]) && Sound(w.users[e.user])
    ensures Made(w, e)
  {
    hide Reslot, Put, Slots, OutgoingAnswered, Consult;
  }

  lemma AttemptMakes(w: World, e: Event)
    requires Shaped(w) && Dialling(e) && !e.RingAnswer? && !e.OutgoingAnswer? && !e.Offer? && e.user < |w.users|
    requires w.next !in w.live
    ensures Made(w, e)
  {
    hide Reslot, Put, Slots, ReconnectWon, ReconnectFailed;
  }

  lemma SwitchMakes(w: World, e: Event)
    requires Shaped(w) && e.SwitchLegs? && e.user < |w.users| && w.next !in w.live && Sound(w.users[e.user])
    ensures Made(w, e)
  {
    hide Reslot, Put;
  }

  lemma CommandMakes(w: World, e: Event)
    requires Shaped(w) && ForUser(e) && !Dialling(e) && e.user < |w.users| && w.next !in w.live
    requires !e.ConsultDial? && !e.SwitchLegs? && !e.ToGroup?
    ensures Made(w, e)
  {
    hide Reslot, Put, Slots, TgEnded, EndEverything, Transferred;
  }

  lemma MoveMakes(w: World, e: Event)
    requires Shaped(w) && e.ToGroup? && e.user < |w.users| && w.next !in w.live
    ensures Made(w, e)
  {
    hide Reslot, Put, Slots, MovedOut;
  }

  lemma WorldMakes(w: World, e: Event)
    requires Shaped(w) && !e.LegGone? && (ForUser(e) ==> e.user >= |w.users|) && w.next !in w.live
    ensures Made(w, e)
  {
    hide Put, CancelRing;
  }

  lemma GoneMakes(w: World, e: Event)
    requires Shaped(w) && e.LegGone? && w.next !in w.live
    requires e.leg in w.owner && w.owner[e.leg] < |w.users| ==>
      Sound(w.users[w.owner[e.leg]]) && (e.leg in Slots(w.users[w.owner[e.leg]]) ==> !InGroup(w, e.leg))
    ensures Made(w, e)
  {
    hide Reslot, Put, InGroup, WithoutLeg;
  }

  lemma StepMakes(w: World, e: Event)
    requires Inv(w)
    ensures Made(w, e)
  {
    hide Inv, Made, Sound, Slots;
    InvShaped(w);
    NextIsNew(w);
    if ForUser(e) && e.user < |w.users| {
      UserSound(w, e.user);
      NextIsFree(w, e.user);
      if e.RingAnswer? {
        RingMakes(w, e);
      } else if e.OutgoingAnswer? || e.ConsultDial? || e.Offer? {
        DialMakes(w, e);
      } else if Dialling(e) {
        AttemptMakes(w, e);
      } else if e.SwitchLegs? {
        SwitchMakes(w, e);
      } else if e.ToGroup? {
        MoveMakes(w, e);
      } else {
        CommandMakes(w, e);
      }
    } else if e.LegGone? {
      if e.leg in w.owner && w.owner[e.leg] < |w.users| {
        UserSound(w, w.owner[e.leg]);
        if e.leg in Slots(w.users[w.owner[e.leg]]) {
          SlotOwner(w, w.owner[e.leg], e.leg);
        }
      }
      GoneMakes(w, e);
    } else {
      WorldMakes(w, e);
    }
  }

  lemma NextIsNew(w: World)
    requires Inv(w)
    ensures w.next !in w.live && w.next !in w.connected
  {
    hide Slots, Sound;
  }

  lemma ConnectingIff(w: World, e: Event, l: Leg)
    requires Inv(w)
    ensures l in Connecting(w, e) <==>
            || (e == Connects(l) && l in w.live) || (exists i :: PicksUp(w, e, i, l))
            || (l == w.next && Creates(w, e) && (e.GroupDialIn? || (e.RingAnswer? && Answers(w, e, e.user))))
  {
    hide Inv, Cleared;
    if e.SwitchLegs? && l in Connecting(w, e) {
      assert PicksUp(w, e, e.user, l);
    }
    if e.LegGone? && l in Connecting(w, e) {
      assert PicksUp(w, e, w.owner[e.leg], l);
    }
    if i :| PicksUp(w, e, i, l) {
      if e.LegGone? {
        SlotOwner(w, i, e.leg);
      }
    }
  }

  /** A leg is born only in these events, and at once connected only if its far end has called in or been answered. */
  lemma LegsAfter(w: World, e: Event, l: Leg)
    requires Inv(w)
    ensures Shaped(w)
    ensures var x := Step(w, e);
            && (l in x.live <==> l in w.live - Victims(w, e) || (l == w.next && Creates(w, e)))
            && x.next == w.next + (if Creates(w, e) then 1 else 0)
            && (l in x.connected <==>
                || l in w.connected || (e == Connects(l) && l in w.live) || (exists i :: PicksUp(w, e, i, l))
                || (l == w.next && Creates(w, e) && (e.GroupDialIn? || (e.RingAnswer? && Answers(w, e, e.user)))))
  {
    hide Inv, Victims, Step, Creates, Connecting, PicksUp;
    InvShaped(w);
    NextIsNew(w);
    OnlyVictimsEnd(w, e);
    NobodyReturns(w, e);
    StepMakes(w, e);
    ConnectingIff(w, e, l);
  }

  // ---- Voice chats and bridges ----

  predicate Opens(w: World, e: Event, g: Gateway) {
    e.ToGroup? && e.user < |w.users| == |w.gateways| && w.gateways[e.user] == g
  }

  /** A leg that is in a chat leaves it when its call has ended. */
  predicate Leaves(w: World, e: Event, l: Leg) {
    e == LegGone(l) && l !in w.live
  }

  predicate Enters(w: World, e: Event, g: Gateway, l: Leg) {
    || (Opens(w, e, g) && l in w.live && !w.users[e.user].stuck
        && (w.users[e.user].active == Some(l) || w.users[e.user].held == Some(l)))
    || (e.GroupDialIn? && e.user < |w.users| && e.gateway == g && l == w.next
        && g in w.groups && w.groups[g].number == e.session)
  }

  predicate Closes(w: World, e: Event, g: Gateway)
    requires g in w.groups
  {
    e == LeaveGroup(g) || (e.LegGone? && Leaves(w, e, e.leg) && w.groups[g].legs == {e.leg})
  }

  predicate InChatOf(w: World, g: Gateway, l: Leg) {
    g in w.groups && l in w.groups[g].legs
  }

  predicate GroupsSeen(w: World, e: Event, x: World, g: Gateway, l: Leg) {
    && (g in x.groups <==> Opens(w, e, g) || (g in w.groups && !Closes(w, e, g)))
    && (InChatOf(x, g, l) <==>
        Enters(w, e, g, l) || (InChatOf(w, g, l) && !Closes(w, e, g) && !Leaves(w, e, l)))
    && (g in w.groups && g in x.groups ==> x.groups[g].number == w.groups[g].number)
  }

  lemma GroupsMove(w: World, e: Event, g: Gateway, l: Leg)
    requires Shaped(w) && e.ToGroup? && e.user < |w.users|
    ensures GroupsSeen(w, e, Step(w, e), g, l)
  {
    hide Reslot, Put, Slots, MovedOut;
  }

  lemma GroupsGone(w: World, e: Event, g: Gateway, l: Leg)
    requires Shaped(w) && e.LegGone? && forall h :: InChatOf(w, h, e.leg) ==> e.leg in w.owner
    ensures GroupsSeen(w, e, Step(w, e), g, l)
  {
    hide Reslot, Put, Slots, LegEnded;
    assert InChatOf(w, g, e.leg) ==> InGroup(w, e.leg);
    if g in w.groups && w.groups[g].legs == {e.leg} {
      assert e.leg in w.groups[g].legs;
    }
  }

  lemma GroupsDial(w: World, e: Event, g: Gateway, l: Leg)
    requires Shaped(w) && Dialling(e)
    ensures GroupsSeen(w, e, Step(w, e), g, l)
  {
    hide Reslot, Put, Slots, OutgoingAnswered, ReconnectWon, ReconnectFailed, RingWon, CancelRing;
  }

  lemma GroupsOther(w: World, e: Event, g: Gateway, l: Leg)
    requires Shaped(w) && !e.LegGone? && !e.ToGroup? && !Dialling(e)
    ensures GroupsSeen(w, e, Step(w, e), g, l)
  {
    hide Reslot, Put, Slots, TgEnded, EndEverything, Transferred, Switch, Consult, CancelRing;
  }

  /** A chat begins when a user goes there and ends when it is left, or its last leg has gone; a leg comes in when its
      user moves there or when it was dialled for this chat, and goes out only with its call or the chat. */
  lemma ChatsAfter(w: World, e: Event, g: Gateway, l: Leg)
    requires Inv(w)
    ensures Shaped(w) && GroupsSeen(w, e, Step(w, e), g, l)
  {
    hide Inv, GroupsSeen, Step;
    InvShaped(w);
    if e.LegGone? {
      ChatOwners(w, e.leg);
      GroupsGone(w, e, g, l);
    } else if e.ToGroup? && e.user < |w.users| {
      GroupsMove(w, e, g, l);
    } else if e.ToGroup? {
      GroupsNobody(w, e, g, l);
    } else if Dialling(e) {
      GroupsDial(w, e, g, l);
    } else {
      GroupsOther(w, e, g, l);
    }
  }

  lemma GroupsNobody(w: World, e: Event, g: Gateway, l: Leg)
    requires Shaped(w) && e.ToGroup? && e.user >= |w.users|
    ensures GroupsSeen(w, e, Step(w, e), g, l)
  {
  }

  lemma ChatOwners(w: World, l: Leg)
    requires Inv(w)
    ensures forall h :: InChatOf(w, h, l) ==> l in w.owner
  {
    hide Slots, Sound;
    forall h | InChatOf(w, h, l) ensures l in w.owner {
      assert l in w.place && w.place[l] == Group(h);
    }
  }

  predicate BridgesSeen(w: World, e: Event, x: World, k: nat) {
    var joins := e.Transfer? && e.user < |w.users| && Transfers(w, e, e.user) && k == w.entries;
    && (k in x.bridges <==>
        joins || (k in w.bridges && !(e == BridgeGone(k) && !(Ends(w.bridges[k]) <= w.live))))
    && (joins ==> x.bridges[k] == Pair(w.users[e.user].active.value, w.users[e.user].held.value))
    && (k in x.bridges && !joins ==> x.bridges[k] == w.bridges[k])
  }

  lemma BridgesDial(w: World, e: Event, k: nat)
    requires Shaped(w) && Dialling(e)
    ensures BridgesSeen(w, e, Step(w, e), k)
  {
    hide Reslot, Put, Slots, OutgoingAnswered, ReconnectWon, ReconnectFailed, RingWon, CancelRing;
  }

  lemma BridgesOther(w: World, e: Event, k: nat)
    requires Shaped(w) && !Dialling(e)
    ensures BridgesSeen(w, e, Step(w, e), k)
  {
    hide Reslot, Put, Slots, TgEnded, EndEverything, Switch, Consult, CancelRing, LegEnded, InGroup, WithoutLeg,
        MovedOut, Transferred;
  }

  /** A bridge begins with a transfer and ends when a call of it has. */
  lemma BridgesAfter(w: World, e: Event, k: nat)
    requires Inv(w)
    ensures Shaped(w) && BridgesSeen(w, e, Step(w, e), k)
  {
    hide Inv, BridgesSeen, Step;
    InvShaped(w);
    if Dialling(e) {
      BridgesDial(w, e, k);
    } else {
      BridgesOther(w, e, k);
    }
  }

  // ---- Call waiting ----

  /** Whether a second call is put in the queue: the user talks, nothing is on hold, nobody waits and no reconnect is in
      progress. */
  predicate Accepts(u: User) {
    u.tg.Some? && u.held.None? && u.waiting.None? && !u.attempt.Reconnect?
  }

  /** A second call waits, alive and unanswered, and the conversation goes on; or it is refused and nothing changes. */
  lemma OfferWaits(w: World, i: nat)
    requires Inv(w) && i < |w.users|
    ensures Shaped(w)
    ensures var u, x := w.users[i], Step(w, Offer(i));
            if !Accepts(u) then x == w
            else
              && At(x, w.next, WaitingOf(i)) && w.next !in w.live && w.next !in x.connected
              && x.live == w.live + {w.next} && x.connected == w.connected && x.next == w.next + 1
              && x.users == w.users[i := u.(waiting := Some(w.next))]
              && x.groups == w.groups && x.bridges == w.bridges
  {
    hide Inv, Reslot;
    InvShaped(w);
    UserSound(w, i);
    NextIsNew(w);
  }

  /** Declined, the waiting call ends, and it alone; once it has gone everybody is as before. */
  lemma DeclineEnds(w: World, i: nat)
    requires Inv(w) && i < |w.users| && Accepts(w.users[i])
    ensures Shaped(w) && Shaped(Step(w, Offer(i))) && Shaped(Step(Step(w, Offer(i)), Decline(i)))
    ensures var x := Step(w, Offer(i)); var y := Step(x, Decline(i)); var z := Step(y, LegGone(w.next));
            && y.live == x.live - {w.next} == w.live && y.users == x.users
            && z.users == w.users && z.live == w.live && z.connected == w.connected && z.groups == w.groups
            && z.bridges == w.bridges
  {
    hide Inv, Reslot, Slots, InGroup;
    OfferWaits(w, i);
    OfferOwned(w, i);
    var y := Step(Step(w, Offer(i)), Decline(i));
    StepInv(w, Offer(i));
    StepInv(Step(w, Offer(i)), Decline(i));
    WaitingSlot(y, i, w.next);
    SlotOwner(y, i, w.next);
    UserSound(y, i);
    LegEndedSound(y.users[i], w.next);
    UserSound(w, i);
  }

  lemma WaitingSlot(w: World, i: nat, l: Leg)
    requires i < |w.users| && w.users[i].waiting == Some(l)
    ensures l in Slots(w.users[i])
  {
  }

  lemma OfferOwned(w: World, i: nat)
    requires i < |w.users| && MayWait(w.users[i])
    ensures OfferWaiting(w, i).users[i].waiting == Some(w.next)
  {
  }

  /** Accepted, the waiting call is answered and active, and the conversation before it is on hold. */
  lemma SwitchAccepts(w: World, i: nat)
    requires Inv(w) && i < |w.users| && Accepts(w.users[i])
    ensures Shaped(w) && Shaped(Step(w, Offer(i)))
    ensures var u, x := w.users[i], Step(w, Offer(i)); var y := Step(x, SwitchLegs(i));
            && u.active.Some?
            && At(y, w.next, ActiveOf(i)) && w.next in y.connected && At(y, u.active.value, HeldOf(i))
            && y.live == x.live && y.users[i].waiting.None? && y.users[i].tg == u.tg
  {
    hide Inv, Reslot;
    OfferWaits(w, i);
    UserSound(w, i);
    StepInv(w, Offer(i));
    UserSound(Step(w, Offer(i)), i);
    SwitchExchanges(Step(w, Offer(i)), i);
  }

  // ---- Ringing ----

  /** No telephone rings for the call. */
  predicate Silent(w: World, call: nat) {
    forall i :: 0 <= i < |w.users| ==> w.users[i].attempt != Ring(call)
  }

  /** A telephone starts to ring for a call only when the call does. */
  lemma StaysSilent(w: World, e: Event, call: nat)
    requires Inv(w) && Silent(w, call) && !(e.RingStart? && e.call == call)
    ensures Shaped(w) && Silent(Step(w, e), call)
  {
    hide Inv, Step, AsSeen, Cleared, Resumes, Busy;
    InvShaped(w);
    SameUsers(w, e);
    forall i | 0 <= i < |Step(w, e).users| ensures Step(w, e).users[i].attempt != Ring(call) {
      UserAfter(w, e, i);
      AttemptSeen(w, e, i);
    }
  }

  lemma AttemptSeen(w: World, e: Event, i: nat)
    requires AsSeen(w, e, i)
    ensures Step(w, e).users[i].attempt == AttemptAfter(w, e, i)
  {
    hide Step, AttemptAfter, ActiveAfter, HeldAfter, WaitingAfter, TelegramAfter;
  }

  lemma SameUsers(w: World, e: Event)
    requires Shaped(w)
    ensures |Step(w, e).users| == |w.users|
  {
    hide DialStep, CommandStep, Put, InGroup, WithoutLeg, LegEnded, Reslot, Slots;
    if ForUser(e) && e.user < |w.users| {
      if Dialling(e) {
        SameDialled(w, e);
      } else {
        SameCommanded(w, e);
      }
    }
  }

  lemma SameDialled(w: World, e: Event)
    requires Dialling(e) && e.user < |w.users|
    ensures |DialStep(w, e.user, e).users| == |w.users|
  {
    hide Reslot, Put, Slots, OutgoingAnswered, ReconnectWon, ReconnectFailed, RingWon;
  }

  lemma SameCommanded(w: World, e: Event)
    requires Shaped(w) && ForUser(e) && !Dialling(e) && e.user < |w.users|
    ensures |CommandStep(w, e.user, e).users| == |w.users|
  {
    hide Reslot, Put, Slots, TgEnded, EndEverything, Switch, Consult, MovedOut, Transferred;
  }

  lemma OverSilent(w: World, e: Event, call: nat)
    requires Inv(w) && RingOver(w, e, call)
    ensures Shaped(w) && Silent(Step(w, e), call)
  {
    hide Inv, Step, AsSeen, Cleared, Resumes, Busy;
    InvShaped(w);
    SameUsers(w, e);
    forall i | 0 <= i < |Step(w, e).users| ensures Step(w, e).users[i].attempt != Ring(call) {
      UserAfter(w, e, i);
      AttemptSeen(w, e, i);
    }
  }

  /** How often a ringing telephone was answered for the call. */
  ghost function Pickups(w: World, events: seq<Event>, call: nat): nat
    requires Inv(w)
    decreases |events|
  {
    if events == [] then 0
    else
      var e := events[0];
      StepInv(w, e);
      (if e.RingAnswer? && RingOver(w, e, call) then 1 else 0) + Pickups(Step(w, e), events[1..], call)
  }

  lemma {:induction false} NobodyPicksUp(w: World, events: seq<Event>, call: nat)
    requires Inv(w) && Silent(w, call)
    requires forall k :: 0 <= k < |events| ==> !(events[k].RingStart? && events[k].call == call)
    ensures Pickups(w, events, call) == 0
    decreases |events|
  {
    hide Inv, Step;
    if events != [] {
      StepInv(w, events[0]);
      StaysSilent(w, events[0], call);
      NobodyPicksUp(Step(w, events[0]), events[1..], call);
    }
  }

  /** However many telephones ring for a call, at most one of them takes it, in any run. */
  lemma {:induction false} OnePickup(w: World, events: seq<Event>, call: nat)
    requires Inv(w) && forall k :: 0 <= k < |events| ==> !(events[k].RingStart? && events[k].call == call)
    ensures Pickups(w, events, call) <= 1
    decreases |events|
  {
    hide Inv, Step;
    if events != [] {
      StepInv(w, events[0]);
      if events[0].RingAnswer? && RingOver(w, events[0], call) {
        OverSilent(w, events[0], call);
        NobodyPicksUp(Step(w, events[0]), events[1..], call);
      } else {
        OnePickup(Step(w, events[0]), events[1..], call);
      }
    }
  }
}
