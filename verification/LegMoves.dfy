/** Where the steps of module CallWorld take the legs: who may end in a step, who goes where, and which steps undo each
    other. */
module LegMoves {
  import opened Options
  import opened CallControl
  import opened CallWorld
  import opened LegConservation
  import opened LegTheorems

  // ---- Who may end ----

  /** Whether the end of user i's Telegram call is followed by a reconnect. */
  predicate Resumes(w: World, i: nat, retry: bool)
    requires i < |w.users|
  {
    var u := w.users[i];
    retry && u.active.Some? && u.active.value in w.live && u.active.value in w.connected && !u.attempt.Reconnect?
  }

  function Ends(p: Pair): set<Leg> {
    {p.one, p.other}
  }

  /** The legs that an event is there to end. */
  function Victims(w: World, e: Event): set<Leg>
    requires Shaped(w)
  {
    if e.Dies? then {e.leg}
    else if e.LeaveGroup? then if e.gateway in w.groups then w.groups[e.gateway].legs else {}
    else if e.BridgeGone? then
      if e.entry in w.bridges && !(Ends(w.bridges[e.entry]) <= w.live) then Ends(w.bridges[e.entry]) else {}
    else if ForUser(e) && e.user < |w.users| then UserVictims(w, e.user, e)
    else {}
  }

  function UserVictims(w: World, i: nat, e: Event): set<Leg>
    requires Shaped(w) && i < |w.users|
  {
    var u := w.users[i];
    match e
    case Hangup(_) =>
      if u.active.Some? && u.active.value in w.live then {u.active.value}
      else if Busy(u) then if u.stuck then {} else Slots(u)
      else if w.gateways[i] in w.groups then
        set l | l in w.groups[w.gateways[i]].legs && l in w.owner && w.owner[l] == i
      else {}
    case Decline(_) => One(u.waiting)
    case ToGroup(_) => if u.tg.Some? && Movable(u, w.live) != {} then One(u.waiting) else {}
    case ReconnectFail(_) => if u.attempt.Reconnect? then Slots(u) else {}
    case TelegramGone(_, tg, retry) => if u.tg == Some(tg) && !Resumes(w, i, retry) then Slots(u) else {}
    case _ => {}
  }

  lemma DialSpares(w: World, i: nat, e: Event)
    requires Inv(w) && i < |w.users| && Dialling(e)
    ensures w.live - UserVictims(w, i, e) == w.live * DialStep(w, i, e).live
  {
    hide Inv, Reslot;
    UserSound(w, i);
    var u := w.users[i];
    match e
    case RingAnswer(_, tg, present) =>
    case OutgoingAnswer(_, tg, invited) =>
    case ReconnectAnswer(_, tg) =>
    case _ =>
  }

  lemma CommandSpares(w: World, i: nat, e: Event)
    requires Inv(w) && Shaped(w) && i < |w.users| && ForUser(e) && !Dialling(e)
    ensures w.live - UserVictims(w, i, e) == w.live * CommandStep(w, i, e).live
  {
    hide Inv, Reslot, Put, Sound, Consult, Switch, MovedOut, Transferred, MayTransfer;
    UserSound(w, i);
    var u := w.users[i];
    NotStuck(u);
    if e.ConsultDial? {
      if MayConsult(u) {
        NextIsFree(w, i);
        ConsultSound(u, if e.invited then Some(w.next) else None);
      }
    } else if e.SwitchLegs? {
      SwitchSound(u);
    } else if e.ToGroup? {
      MoveEnds(w, i);
    }
  }

  lemma NotStuck(u: User)
    requires Sound(u)
    ensures u.tg.Some? ==> !u.stuck
  {
  }

  lemma MoveEnds(w: World, i: nat)
    requires Inv(w) && i < |w.users| == |w.gateways|
    ensures var u := w.users[i];
            w.live * MoveToGroup(w, i).live
            == w.live - if u.tg.Some? && Movable(u, w.live) != {} then One(u.waiting) else {}
  {
    hide Inv, Reslot, Put, Sound, MovedOut;
    var u := w.users[i];
    UserSound(w, i);
    MoveSpares(u, w.live);
    var lost, moved := Slots(u) - Slots(MovedOut(u, w.live)), Movable(u, w.live);
    assert MoveToGroup(w, i).live == w.live - lost + moved;
    LeftOver(w.live, lost, moved, if u.tg.Some? && moved != {} then One(u.waiting) else {});
  }

  lemma LeftOver(live: set<Leg>, lost: set<Leg>, moved: set<Leg>, other: set<Leg>)
    requires lost * live == (moved + other) * live && moved !! other && moved <= live
    ensures live * (live - lost + moved) == live - other
  {
    forall l | l in live ensures l in live - lost + moved <==> l !in other {
      assert l in lost * live <==> l in (moved + other) * live;
    }
  }

  lemma MoveSpares(u: User, live: set<Leg>)
    requires Sound(u)
    ensures (Slots(u) - Slots(MovedOut(u, live))) * live
            == (Movable(u, live) + if u.tg.Some? && Movable(u, live) != {} then One(u.waiting) else {}) * live
    ensures One(u.waiting) !! Movable(u, live)
  {
  }

  /** In every step exactly those live legs end that the event is there to end: no switch, consultation call, transfer,
      reconnect, waiting call or end of another leg costs a leg its life. */
  lemma OnlyVictimsEnd(w: World, e: Event)
    requires Inv(w)
    ensures Shaped(w) && w.live - Victims(w, e) == w.live * Step(w, e).live
  {
    hide Inv, UserVictims, DialStep, CommandStep;
    InvShaped(w);
    if ForUser(e) {
      if e.user < |w.users| {
        if Dialling(e) {
          DialSpares(w, e.user, e);
        } else {
          CommandSpares(w, e.user, e);
        }
      }
    } else if e.LegGone? {
      EndSpares(w, e.leg);
    }
  }

  lemma EndSpares(w: World, leg: Leg)
    requires Inv(w)
    ensures w.live <= EndLeg(w, leg).live
  {
    hide Inv, Reslot, LegEnded, Sound;
    if leg !in w.live && leg in w.owner && !InGroup(w, leg) && w.owner[leg] < |w.users| {
      UserSound(w, w.owner[leg]);
      LegEndedSound(w.users[w.owner[leg]], leg);
    }
  }

  /** All that x has and w has not is the leg that w would make next. */
  predicate OneNew(w: World, x: World) {
    x.live <= w.live + {w.next} && x.next >= w.next
  }

  lemma RingersReturn(w: World, i: nat, tg: Telegram, flag: bool)
    requires i < |w.users|
    ensures OneNew(w, AnswerRing(w, i, tg, flag)) && OneNew(w, AnswerOutgoing(w, i, tg, flag))
    ensures OneNew(w, WinReconnect(w, i, tg))
    ensures OneNew(w, OfferWaiting(w, i)) && OneNew(w, DialConsult(w, i, flag))
  {
    hide Slots, Reslot, Put, CancelRing, RingWon, OutgoingAnswered, ReconnectWon, MayWait, MayConsult, Consult;
  }

  lemma CommandsReturn(w: World, i: nat, tg: Telegram, retry: bool)
    requires i < |w.users| == |w.gateways|
    ensures OneNew(w, EndTelegram(w, i, tg, retry)) && OneNew(w, HangUp(w, i)) && OneNew(w, DoSwitch(w, i))
    ensures OneNew(w, Change(w, i, ReconnectFailed(w.users[i])))
  {
    hide Slots, Reslot, TgEnded, EndEverything, Switch, ReconnectFailed;
  }

  lemma MovesReturn(w: World, i: nat, g: Gateway, session: nat)
    requires i < |w.users| == |w.gateways|
    ensures OneNew(w, DoTransfer(w, i)) && OneNew(w, MoveToGroup(w, i)) && OneNew(w, DialIntoGroup(w, i, g, session))
  {
    hide Slots, Reslot, Put, MovedOut, Transferred;
    forall connected | MayTransfer(w.users[i], connected) ensures w.users[i].active.Some? && w.users[i].held.Some? {
    }
  }

  lemma DialReturns(w: World, i: nat, e: Event)
    requires i < |w.users| == |w.gateways| && Dialling(e)
    ensures OneNew(w, DialStep(w, i, e))
  {
    hide AnswerRing, OfferWaiting, AnswerOutgoing, WinReconnect, Change, ReconnectFailed;
    if e.RingAnswer? {
      RingersReturn(w, i, e.tg, e.present);
    } else if e.OutgoingAnswer? {
      RingersReturn(w, i, e.tg, e.invited);
    } else if e.ReconnectAnswer? {
      RingersReturn(w, i, e.tg, false);
    } else {
      RingersReturn(w, i, 0, false);
      CommandsReturn(w, i, 0, false);
    }
  }

  lemma CommandReturns(w: World, i: nat, e: Event)
    requires Shaped(w) && i < |w.users| && ForUser(e) && !Dialling(e)
    ensures OneNew(w, CommandStep(w, i, e))
  {
    hide DialConsult, EndTelegram, HangUp, DoSwitch, DoTransfer, MoveToGroup, DialIntoGroup;
    if e.ConsultDial? {
      RingersReturn(w, i, 0, e.invited);
    } else if e.TelegramGone? {
      CommandsReturn(w, i, e.tg, e.retry);
    } else if e.GroupDialIn? {
      MovesReturn(w, i, e.gateway, e.session);
    } else {
      CommandsReturn(w, i, 0, false);
      MovesReturn(w, i, 0, 0);
    }
  }

  lemma EndReturns(w: World, leg: Leg)
    ensures EndLeg(w, leg).live <= w.live && EndLeg(w, leg).next == w.next
  {
    hide Slots, Reslot, Put, LegEnded, WithoutLeg, InGroup;
  }

  lemma RingReturns(w: World, call: nat, users: set<nat>)
    ensures StartRing(w, call, users).live == w.live && StartRing(w, call, users).next == w.next
  {
  }

  /** Nobody comes back: all a step can bring to life is the leg it makes. */
  lemma NobodyReturns(w: World, e: Event)
    requires Inv(w)
    ensures Shaped(w) && OneNew(w, Step(w, e))
  {
    hide Inv, Put, StartRing, CancelRing, EndLeg, DialStep, CommandStep;
    InvShaped(w);
    if e.LegGone? {
      EndReturns(w, e.leg);
    } else if e.RingStart? {
      RingReturns(w, e.call, e.users);
    } else if ForUser(e) && e.user < |w.users| {
      if Dialling(e) {
        DialReturns(w, e.user, e);
      } else {
        CommandReturns(w, e.user, e);
      }
    }
  }

  /** No event of the run is there to end the leg. */
  ghost predicate Spared(w: World, events: seq<Event>, l: Leg)
    requires Inv(w)
    decreases |events|
  {
    events == [] || (StepInv(w, events[0]); l !in Victims(w, events[0]) && Spared(Step(w, events[0]), events[1..], l))
  }

  lemma {:induction false} DeadStays(w: World, events: seq<Event>, l: Leg)
    requires Inv(w) && l !in w.live && l < w.next
    ensures l !in Run(w, events).live
    decreases |events|
  {
    hide Inv, Step;
    if events != [] {
      StepInv(w, events[0]);
      NobodyReturns(w, events[0]);
      DeadStays(Step(w, events[0]), events[1..], l);
    }
  }

  lemma LiveIsOld(w: World, l: Leg)
    requires Inv(w) && l in w.live
    ensures l < w.next
  {
    hide Slots, Sound;
  }

  /** Over any run a leg lives on if and only if none of the events was there to end it. */
  lemma {:induction false} SurvivesIffSpared(w: World, events: seq<Event>, l: Leg)
    requires Inv(w) && l in w.live
    ensures l in Run(w, events).live <==> Spared(w, events, l)
    decreases |events|
  {
    hide Inv, Step, Victims;
    if events != [] {
      var e := events[0];
      StepInv(w, e);
      OnlyVictimsEnd(w, e);
      LiveIsOld(w, l);
      NobodyReturns(w, e);
      assert l in w.live - Victims(w, e) <==> l in w.live * Step(w, e).live;
      if l in Step(w, e).live {
        SurvivesIffSpared(Step(w, e), events[1..], l);
      } else {
        DeadStays(Step(w, e), events[1..], l);
      }
    }
  }

  // ---- Who goes where: what one or two steps come to ----

  /** `/switch`: the waiting leg is answered and the active one held, or active and held change places. */
  lemma SwitchExchanges(w: World, i: nat)
    requires Inv(w) && i < |w.users| && w.users[i].tg.Some?
    ensures Shaped(w)
    ensures var u := w.users[i]; var x := Step(w, SwitchLegs(i));
            && x.live == w.live
            && (u.waiting.Some? ==>
                 && At(x, u.waiting.value, ActiveOf(i)) && At(x, u.active.value, HeldOf(i))
                 && (u.waiting.value in w.live ==> u.waiting.value in x.connected))
            && (u.held.Some? ==> At(x, u.held.value, ActiveOf(i)) && At(x, u.active.value, HeldOf(i)))
  {
    hide Inv, Reslot;
    InvShaped(w);
    UserSound(w, i);
    SwitchSound(w.users[i]);
  }

  /** Switching twice between two legs changes nothing. */
  lemma SwitchTwice(u: User)
    requires Sound(u) && u.held.Some? && u.tg.Some?
    ensures Switch(u) != u && Switch(Switch(u)) == u
  {
  }

  /** A transfer joins exactly the two far ends, alive, in a bridge of their own, and leaves the user nothing. */
  lemma TransferJoins(w: World, i: nat)
    requires Inv(w) && i < |w.users|
    requires var u := w.users[i];
            MayTransfer(u, u.active.Some? && u.active.value in w.live && u.active.value in w.connected)
    ensures Shaped(w)
    ensures var u := w.users[i]; var x := Step(w, Transfer(i));
            && u.active.Some? && u.held.Some?
            && At(x, u.active.value, InBridge(w.entries)) && At(x, u.held.value, InBridge(w.entries))
            && w.entries !in w.bridges && x.bridges.Keys == w.bridges.Keys + {w.entries}
            && x.live == w.live && Slots(x.users[i]) == {} && x.users[i].tg.None?
  {
    InvShaped(w);
    UserSound(w, i);
  }

  /** The move into a voice chat takes every live leg of active and held along, and nothing of the Telegram call is
      left. */
  lemma MoveJoinsChat(w: World, i: nat, l: Leg)
    requires Inv(w) && i < |w.users| && !w.users[i].stuck && l in w.live
    requires w.users[i].active == Some(l) || w.users[i].held == Some(l)
    ensures Shaped(w)
    ensures var x := Step(w, ToGroup(i));
            && At(x, l, InChat(w.gateways[i])) && l in x.live
            && x.users[i].tg.None? && (w.users[i].tg.Some? ==> Slots(x.users[i]) == {})
  {
    hide Inv, Reslot, Put, Sound, Slots, MovedOut, Movable;
    InvShaped(w);
    UserSound(w, i);
    MoveEmpties(w.users[i], w.live, l);
  }

  lemma MoveEmpties(u: User, live: set<Leg>, l: Leg)
    requires Sound(u) && !u.stuck && l in live && (u.active == Some(l) || u.held == Some(l))
    ensures var v := MovedOut(u, live);
            l in Movable(u, live) && v.tg.None? && (u.tg.Some? ==> Slots(v) == {})
  {
  }

  /** A consultation call holds the active leg; if the INVITE cannot be sent, nothing has changed. */
  lemma ConsultHolds(w: World, i: nat, invited: bool)
    requires Inv(w) && i < |w.users| && MayConsult(w.users[i])
    ensures Shaped(w)
    ensures var u := w.users[i]; var x := Step(w, ConsultDial(i, invited));
            if invited then At(x, u.active.value, HeldOf(i)) && At(x, w.next, ActiveOf(i))
                && x.live == w.live + {w.next}
            else x.users[i] == u && x.live == w.live
  {
    hide Inv, Reslot;
    InvShaped(w);
    UserSound(w, i);
    NextIsFree(w, i);
    ConsultSound(w.users[i], if invited then Some(w.next) else None);
  }

  /** When the active leg has ended, the held one takes over, else the waiting one, which is answered, else the Telegram
      call ends. */
  lemma NextLegTakesOver(w: World, i: nat, l: Leg)
    requires Inv(w) && i < |w.users| && w.users[i].active == Some(l) && l !in w.live && w.users[i].tg.Some?
    ensures Shaped(w)
    ensures var u := w.users[i]; var x := Step(w, LegGone(l));
            if u.held.Some? then At(x, u.held.value, ActiveOf(i)) && x.users[i].tg == u.tg
            else if u.waiting.Some? then
              && At(x, u.waiting.value, ActiveOf(i)) && x.users[i].tg == u.tg
              && (u.waiting.value in w.live ==> u.waiting.value in x.connected)
            else Slots(x.users[i]) == {} && x.users[i].tg.None?
  {
    hide Inv, Reslot, InGroup;
    InvShaped(w);
    UserSound(w, i);
    AtPlace(w, l, ActiveOf(i));
    SlotNotInGroup(w, i, l);
  }

  lemma SlotNotInGroup(w: World, i: nat, l: Leg)
    requires Inv(w) && i < |w.users| && w.users[i].active == Some(l)
    ensures !InGroup(w, l) && l in w.owner && w.owner[l] == i
  {
    hide Sound;
    AtPlace(w, l, ActiveOf(i));
  }

  /** A dropped Telegram call and a successful reconnect leave every leg in its slot: only the Telegram call is
      another. */
  lemma ReconnectRestores(w: World, i: nat, tg: Telegram, again: Telegram)
    requires Inv(w) && i < |w.users| && w.users[i].tg == Some(tg) && Resumes(w, i, true)
    ensures Shaped(w) && Shaped(Step(w, TelegramGone(i, tg, true)))
    ensures var x := Step(Step(w, TelegramGone(i, tg, true)), ReconnectAnswer(i, again));
            && x.users[i] == w.users[i].(tg := Some(again), bridge := Some(Bridge(w.users[i].active.value, again)))
            && x.live == w.live
  {
    hide Inv, Reslot;
    InvShaped(w);
    UserSound(w, i);
    StepInv(w, TelegramGone(i, tg, true));
    InvShaped(Step(w, TelegramGone(i, tg, true)));
  }
}
