/** The branch of `_reconnect` that waits for the user's lock while holding it (sipgram/manager.py:821-824):
    exactly when it is taken, and what it does to the user's legs. */
module LostLocks {
  import opened Options
  import opened CallControl
  import opened CallWorld
  import opened LegConservation
  import opened LegTheorems

  // ---- When ----

  /** The user answers the reconnecting call, but the leg it was for has gone. */
  predicate LateReturn(w: World, e: Event, i: nat) {
    && e.ReconnectAnswer? && e.user == i && i < |w.users|
    && w.users[i].attempt.Reconnect?
    && (w.users[i].active != Some(w.users[i].attempt.leg) || w.users[i].attempt.leg !in w.live)
  }

  /** What the functions on one user do to the flag. */
  lemma UserFlag(u: User, tg: Telegram, leg: Leg, invited: Option<Leg>, flag: bool, live: set<Leg>)
    ensures RingWon(u, tg, leg).stuck == u.stuck && OutgoingAnswered(u, tg, invited).stuck == u.stuck
    ensures LegEnded(u, leg).stuck == u.stuck && TgEnded(u, tg, flag).stuck == u.stuck
    ensures EndEverything(u).stuck == u.stuck && Switch(u).stuck == u.stuck && MovedOut(u, live).stuck == u.stuck
    ensures MayConsult(u) ==> Consult(u, invited).stuck == u.stuck
    ensures Transferred(u).stuck == u.stuck && ReconnectFailed(u).stuck == u.stuck
  {
  }

  /** User j's flag is the same afterwards. */
  predicate SameFlag(w: World, x: World, j: nat) {
    j < |w.users| == |x.users| && x.users[j].stuck == w.users[j].stuck
  }

  lemma ChangeFlag(w: World, i: nat, v: User, j: nat)
    requires i < |w.users| && j < |w.users| && v.stuck == w.users[i].stuck
    ensures SameFlag(w, Change(w, i, v), j)
  {
    hide Slots, Reslot;
  }

  lemma RingFlag(w: World, i: nat, tg: Telegram, present: bool, j: nat)
    requires i < |w.users| && j < |w.users|
    ensures SameFlag(w, AnswerRing(w, i, tg, present), j) && SameFlag(w, OfferWaiting(w, i), j)
  {
    hide Slots, Reslot, Put, RingWon, MayWait;
    UserFlag(w.users[i], tg, w.next, None, false, {});
  }

  lemma DialFlag(w: World, i: nat, tg: Telegram, invited: bool, j: nat)
    requires i < |w.users| && j < |w.users|
    ensures SameFlag(w, AnswerOutgoing(w, i, tg, invited), j) && SameFlag(w, DialConsult(w, i, invited), j)
  {
    hide Slots, Reslot, OutgoingAnswered, Consult, MayConsult, SameFlag, Change;
    var u, x := w.users[i], NewLeg(w, i, false);
    SameFlagRefl(w, j);
    SameFlagRefl(x, j);
    UserFlag(u, tg, 0, None, false, {});
    UserFlag(u, tg, 0, Some(w.next), false, {});
    ChangeFlag(w, i, OutgoingAnswered(u, tg, None), j);
    ChangeFlag(x, i, OutgoingAnswered(u, tg, Some(w.next)), j);
    NewLegFlag(w, i, OutgoingAnswered(u, tg, Some(w.next)), j);
    if MayConsult(u) {
      ChangeFlag(w, i, Consult(u, None), j);
      ChangeFlag(x, i, Consult(u, Some(w.next)), j);
      NewLegFlag(w, i, Consult(u, Some(w.next)), j);
    }
  }

  lemma SameFlagRefl(w: World, j: nat)
    requires j < |w.users|
    ensures SameFlag(w, w, j)
  {
  }

  lemma NewLegFlag(w: World, i: nat, v: User, j: nat)
    requires i < |w.users| && SameFlag(NewLeg(w, i, false), Change(NewLeg(w, i, false), i, v), j)
    ensures SameFlag(w, Change(NewLeg(w, i, false), i, v), j)
  {
    hide Change;
  }

  lemma EndFlag(w: World, i: nat, tg: Telegram, retry: bool, j: nat)
    requires i < |w.users| == |w.gateways| && j < |w.users|
    ensures SameFlag(w, EndTelegram(w, i, tg, retry), j) && SameFlag(w, HangUp(w, i), j)
    ensures SameFlag(w, DoSwitch(w, i), j)
    ensures SameFlag(w, Change(w, i, ReconnectFailed(w.users[i])), j)
  {
    hide Slots, Reslot, TgEnded, ReconnectFailed, EndEverything, Switch;
    forall flag ensures TgEnded(w.users[i], tg, flag).stuck == w.users[i].stuck {
      UserFlag(w.users[i], tg, 0, None, flag, {});
    }
    UserFlag(w.users[i], tg, 0, None, retry, {});
  }

  lemma MoveFlag(w: World, i: nat, j: nat)
    requires i < |w.users| == |w.gateways| && j < |w.users|
    ensures SameFlag(w, DoTransfer(w, i), j) && SameFlag(w, MoveToGroup(w, i), j)
  {
    hide Slots, Reslot, Transferred, MovedOut, Movable, MayTransfer, Put;
    UserFlag(w.users[i], 0, 0, None, false, w.live);
    var u := w.users[i];
    if u.active.Some? && u.held.Some? {
    } else {
      NotTransferable(u);
    }
  }

  lemma NotTransferable(u: User)
    requires u.active.None? || u.held.None?
    ensures forall connected :: !MayTransfer(u, connected)
  {
  }

  lemma DialStepFlag(w: World, i: nat, e: Event, j: nat)
    requires i < |w.users| == |w.gateways| && j < |w.users| && Dialling(e) && !e.ReconnectAnswer?
    ensures SameFlag(w, DialStep(w, i, e), j)
  {
    hide AnswerRing, OfferWaiting, AnswerOutgoing, WinReconnect, Change, ReconnectFailed;
    match e {
      case RingAnswer(_, tg, present) => RingFlag(w, i, tg, present, j);
      case RingFail(_) =>
      case Offer(_) => RingFlag(w, i, 0, false, j);
      case OutgoingStart(_) =>
      case OutgoingAnswer(_, tg, invited) => DialFlag(w, i, tg, invited, j);
      case OutgoingFail(_) =>
      case ReconnectFail(_) => EndFlag(w, i, 0, false, j);
    }
  }

  lemma CommandStepFlag(w: World, i: nat, e: Event, j: nat)
    requires Shaped(w) && i < |w.users| && j < |w.users| && ForUser(e) && !Dialling(e)
    ensures SameFlag(w, CommandStep(w, i, e), j)
  {
    hide DialConsult, EndTelegram, HangUp, DoSwitch, DoTransfer, MoveToGroup;
    match e {
      case ConsultDial(_, invited) => DialFlag(w, i, 0, invited, j);
      case TelegramGone(_, tg, retry) => EndFlag(w, i, tg, retry, j);
      case Hangup(_) => EndFlag(w, i, 0, false, j);
      case SwitchLegs(_) => EndFlag(w, i, 0, false, j);
      case Transfer(_) => MoveFlag(w, i, j);
      case Decline(_) =>
      case ToGroup(_) => MoveFlag(w, i, j);
      case GroupDialIn(_, g, session) =>
    }
  }

  lemma StepFlag(w: World, e: Event, j: nat)
    requires Shaped(w) && j < |w.users| && !e.ReconnectAnswer?
    ensures SameFlag(w, Step(w, e), j)
  {
    hide Slots, Reslot, LegEnded, InGroup, WithoutLeg, DialStep, CommandStep, Put;
    if e.LegGone? {
      if e.leg in w.owner && w.owner[e.leg] < |w.users| {
        UserFlag(w.users[w.owner[e.leg]], 0, e.leg, None, false, {});
      }
    } else if e.RingStart? || e.CallerGone? || e.Connects? || e.Dies? || e.LeaveGroup? || e.BridgeGone? {
    } else if e.user < |w.users| {
      if Dialling(e) {
        DialStepFlag(w, e.user, e, j);
      } else {
        CommandStepFlag(w, e.user, e, j);
      }
    }
  }

  /** A user's lock is lost in a step if and only if the user returns to a leg that has gone. */
  lemma LockLostIffLateReturn(w: World, e: Event, i: nat)
    requires Inv(w) && i < |w.users| && !w.users[i].stuck
    ensures Shaped(w)
    ensures var x := Step(w, e); |x.users| == |w.users| && (x.users[i].stuck <==> LateReturn(w, e, i))
  {
    hide Slots, Reslot, Placed, LiveOk;
    InvShaped(w);
    if e.ReconnectAnswer? {
    } else {
      StepFlag(w, e, i);
    }
  }

  // ---- What happens then ----

  /** A live leg on hold whose user's lock is lost. */
  predicate Abandoned(w: World, i: nat, l: Leg) {
    i < |w.users| && w.users[i].stuck && w.users[i].held == Some(l) && l in w.live
  }

  /** With the lock lost, no function moves the held leg. */
  lemma HeldStays(u: User, tg: Telegram, leg: Leg, invited: Option<Leg>, flag: bool, live: set<Leg>)
    requires Sound(u) && u.stuck
    ensures OutgoingAnswered(u, tg, invited) == u
    ensures LegEnded(u, leg) == u && TgEnded(u, tg, flag) == u && EndEverything(u) == u && Switch(u) == u
    ensures MovedOut(u, live) == u && Movable(u, live) == {}
    ensures !MayConsult(u) && !MayWait(u) && !MayTransfer(u, flag) && !u.attempt.Reconnect?
  {
  }

  predicate HoldsOn(u: User, l: Leg) {
    u.stuck && u.held == Some(l)
  }

  lemma ChangeSpares(w: World, j: nat, v: User, i: nat, l: Leg)
    requires Placed(w) && Abandoned(w, i, l) && j < |w.users| && (j == i ==> HoldsOn(v, l))
    ensures Abandoned(Change(w, j, v), i, l)
  {
    hide Sound, Slots, Reslot, GroupsOk, BridgesOk, LegsOk;
    HeldInSlots(w.users[i], l);
    InPlace(w, i, l);
    if j == i {
      HeldInSlots(v, l);
    } else if l in Slots(w.users[j]) {
      InPlace(w, j, l);
    }
  }

  lemma HeldInSlots(u: User, l: Leg)
    requires u.held == Some(l)
    ensures l in Slots(u)
  {
  }

  lemma NewLegSpares(w: World, j: nat, connected: bool, i: nat, l: Leg)
    requires Abandoned(w, i, l)
    ensures Abandoned(NewLeg(w, j, connected), i, l)
  {
  }

  lemma OtherLegs(w: World, i: nat, l: Leg)
    requires Inv(w) && Abandoned(w, i, l)
    ensures forall g :: g in w.groups ==> l !in w.groups[g].legs
    ensures forall k :: k in w.bridges ==> !Joins(w.bridges[k], l)
    ensures w.users[i].active != Some(l) && w.users[i].waiting != Some(l)
    ensures forall j :: 0 <= j < |w.users| && j != i ==> l !in Slots(w.users[j])
  {
    hide Slots, Joins;
    HeldInSlots(w.users[i], l);
    InPlace(w, i, l);
    forall j | 0 <= j < |w.users| && j != i ensures l !in Slots(w.users[j]) {
      assert l in Slots(w.users[j]) <==> l in w.place && w.place[l] == Slot(j);
    }
    forall g | g in w.groups ensures l !in w.groups[g].legs {
      if l in w.groups[g].legs {
        InChatPlace(w, g, l);
      }
    }
    forall k | k in w.bridges ensures !Joins(w.bridges[k], l) {
      if Joins(w.bridges[k], l) {
        DropBridges(w, k);
      }
    }
    assert Sound(w.users[i]);
  }

  lemma HeldIs(w: World, i: nat, l: Leg)
    requires Inv(w) && Abandoned(w, i, l)
    ensures Sound(w.users[i]) && HoldsOn(w.users[i], l)
  {
  }

  lemma CancelSpares(w: World, call: nat, winner: Option<nat>, i: nat, l: Leg)
    requires Abandoned(w, i, l)
    ensures Abandoned(w.(users := CancelRing(w.users, call, winner)), i, l)
  {
  }

  lemma RingSpares(w: World, j: nat, tg: Telegram, present: bool, i: nat, l: Leg)
    requires Inv(w) && Abandoned(w, i, l) && j < |w.users|
    ensures Abandoned(AnswerRing(w, j, tg, present), i, l)
  {
    hide Inv, Abandoned, Slots, Sound, Change, NewLeg, RingWon, CancelRing, Strand;
    var u := w.users[j];
    if u.attempt.Ring? {
      var x := w.(users := CancelRing(w.users, u.attempt.call, Some(j)));
      CancelRingInv(w, u.attempt.call, Some(j));
      CancelShape(w.users, u.attempt.call, Some(j));
      CancelSpares(w, u.attempt.call, Some(j), i, l);
      InvPlaced(x);
      HeldIs(w, i, l);
      if j == i {
        HeldStays(u, tg, x.next, None, false, {});
      }
      if !present {
        ChangeSpares(x, j, u.(attempt := Idle), i, l);
      } else if u.stuck {
        ChangeSpares(x, j, u.(attempt := Idle), i, l);
        StrandSpares(Change(x, j, u.(attempt := Idle)), j, i, l);
      } else {
        NewLegPlaced(x, j, true);
        NewLegSpares(x, j, true, i, l);
        NewLegUsers(x, j, true);
        ChangeSpares(NewLeg(x, j, true), j, RingWon(u, tg, x.next), i, l);
      }
    }
  }

  lemma StrandSpares(w: World, j: nat, i: nat, l: Leg)
    requires Abandoned(w, i, l)
    ensures Abandoned(Strand(w, j, false), i, l)
  {
    hide Put;
  }

  lemma CancelShape(users: seq<User>, call: nat, winner: Option<nat>)
    ensures |CancelRing(users, call, winner)| == |users|
  {
  }

  lemma NewLegUsers(w: World, j: nat, connected: bool)
    ensures NewLeg(w, j, connected).users == w.users
  {
  }

  lemma InvPlaced(w: World)
    requires Inv(w)
    ensures Placed(w)
  {
  }

  lemma DialSpares(w: World, j: nat, tg: Telegram, invited: bool, i: nat, l: Leg)
    requires Inv(w) && Abandoned(w, i, l) && j < |w.users|
    ensures Abandoned(AnswerOutgoing(w, j, tg, invited), i, l) && Abandoned(DialConsult(w, j, invited), i, l)
    ensures Abandoned(OfferWaiting(w, j), i, l)
  {
    hide Inv, Abandoned, Slots, Sound, Change, NewLeg, OutgoingAnswered, Consult, MayConsult, MayWait;
    var u := w.users[j];
    InvPlaced(w);
    HeldIs(w, i, l);
    NewLegPlaced(w, j, false);
    NewLegSpares(w, j, false, i, l);
    NewLegUsers(w, j, false);
    if j == i {
      HeldStays(u, tg, w.next, None, false, {});
      HeldStays(u, tg, w.next, Some(w.next), false, {});
      ChangeSpares(w, j, OutgoingAnswered(u, tg, None), i, l);
    } else {
      ChangeSpares(w, j, OutgoingAnswered(u, tg, None), i, l);
      ChangeSpares(NewLeg(w, j, false), j, OutgoingAnswered(u, tg, Some(w.next)), i, l);
      ChangeSpares(NewLeg(w, j, false), j, u.(waiting := Some(w.next)), i, l);
      if MayConsult(u) {
        ChangeSpares(w, j, Consult(u, None), i, l);
        ChangeSpares(NewLeg(w, j, false), j, Consult(u, Some(w.next)), i, l);
      }
    }
  }

  lemma ConnectedSpares(w: World, connected: set<Leg>, i: nat, l: Leg)
    requires Abandoned(w, i, l)
    ensures Abandoned(w.(connected := connected), i, l)
  {
  }

  lemma EndSpares(w: World, j: nat, tg: Telegram, retry: bool, i: nat, l: Leg)
    requires Inv(w) && Abandoned(w, i, l) && j < |w.users|
    ensures Abandoned(EndTelegram(w, j, tg, retry), i, l) && Abandoned(DoSwitch(w, j), i, l)
    ensures Abandoned(Change(w, j, EndEverything(w.users[j])), i, l)
  {
    hide Inv, Abandoned, Slots, Sound, Change, TgEnded, EndEverything, Switch, Answered;
    var u := w.users[j];
    var resumable := retry && u.active.Some? && u.active.value in w.live && u.active.value in w.connected;
    InvPlaced(w);
    HeldIs(w, i, l);
    if j == i {
      HeldStays(u, tg, 0, None, resumable, {});
    }
    ChangeSpares(w, j, TgEnded(u, tg, resumable), i, l);
    ChangeSpares(w, j, EndEverything(u), i, l);
    ChangeSpares(w, j, Switch(u), i, l);
    var x := Change(w, j, Switch(u));
    ChangeShape(w, j, Switch(u));
    ConnectedSpares(x, x.connected + Answered(u, x.users[j], x.live), i, l);
  }

  lemma KillSpares(w: World, legs: set<Leg>, i: nat, l: Leg)
    requires Abandoned(w, i, l) && l !in legs
    ensures Abandoned(Kill(w, legs), i, l)
  {
  }

  lemma HangUpSpares(w: World, j: nat, i: nat, l: Leg)
    requires Inv(w) && Abandoned(w, i, l) && j < |w.users| == |w.gateways|
    ensures Abandoned(HangUp(w, j), i, l)
    ensures w.users[j].waiting.Some? ==> Abandoned(Kill(w, {w.users[j].waiting.value}), i, l)
  {
    hide Inv, Abandoned, Slots, Sound, Change, EndEverything, Kill;
    EndSpares(w, j, 0, false, i, l);
    OtherLegs(w, i, l);
    NotInSlots(w.users[j]);
    var u := w.users[j];
    if u.active.Some? {
      KillSpares(w, {u.active.value}, i, l);
    }
    if u.waiting.Some? {
      KillSpares(w, {u.waiting.value}, i, l);
    }
    if w.gateways[j] in w.groups {
      KillSpares(w, (set k | k in w.groups[w.gateways[j]].legs && k in w.owner && w.owner[k] == j), i, l);
    }
  }

  lemma NotInSlots(u: User)
    ensures u.active.Some? ==> u.active.value in Slots(u)
    ensures u.waiting.Some? ==> u.waiting.value in Slots(u)
    ensures u.held.Some? ==> u.held.value in Slots(u)
  {
  }

  lemma ReconnectSpares(w: World, j: nat, tg: Telegram, i: nat, l: Leg)
    requires Inv(w) && Abandoned(w, i, l) && j < |w.users|
    ensures Abandoned(WinReconnect(w, j, tg), i, l)
    ensures w.users[j].attempt.Reconnect? ==> Abandoned(Change(w, j, ReconnectFailed(w.users[j])), i, l)
  {
    hide Inv, Abandoned, Slots, Sound, Change, ReconnectWon, ReconnectFailed;
    var u := w.users[j];
    InvPlaced(w);
    HeldIs(w, i, l);
    if j == i {
      HeldStays(u, tg, 0, None, false, {});
    } else if u.attempt.Reconnect? {
      ChangeSpares(w, j, ReconnectWon(u, tg, u.attempt.leg in w.live), i, l);
      ChangeSpares(w, j, ReconnectFailed(u), i, l);
    }
  }

  lemma MoveSpares(w: World, j: nat, i: nat, l: Leg)
    requires Inv(w) && Abandoned(w, i, l) && j < |w.users| == |w.gateways|
    ensures Abandoned(DoTransfer(w, j), i, l) && Abandoned(MoveToGroup(w, j), i, l)
  {
    hide Inv, Slots, Sound, Reslot, Put, Transferred, MovedOut, Movable, MayTransfer;
    HeldIs(w, i, l);
    HeldInSlots(w.users[i], l);
    OtherLegs(w, i, l);
    var u := w.users[j];
    if j == i {
      HeldStays(u, 0, 0, None, true, w.live);
      HeldStays(u, 0, 0, None, false, w.live);
    }
  }

  lemma DialStepSpares(w: World, j: nat, e: Event, i: nat, l: Leg)
    requires Inv(w) && Abandoned(w, i, l) && j < |w.users| && Dialling(e)
    ensures Abandoned(DialStep(w, j, e), i, l)
  {
    hide Inv, AnswerRing, OfferWaiting, AnswerOutgoing, WinReconnect, Change, ReconnectFailed;
    match e {
      case RingAnswer(_, tg, present) => RingSpares(w, j, tg, present, i, l);
      case RingFail(_) =>
      case Offer(_) => DialSpares(w, j, 0, false, i, l);
      case OutgoingStart(_) =>
      case OutgoingAnswer(_, tg, invited) => DialSpares(w, j, tg, invited, i, l);
      case OutgoingFail(_) =>
      case ReconnectAnswer(_, tg) => ReconnectSpares(w, j, tg, i, l);
      case ReconnectFail(_) => ReconnectSpares(w, j, 0, i, l);
    }
  }

  lemma CommandStepSpares(w: World, j: nat, e: Event, i: nat, l: Leg)
    requires Inv(w) && Shaped(w) && Abandoned(w, i, l) && j < |w.users| && ForUser(e) && !Dialling(e)
    ensures Abandoned(CommandStep(w, j, e), i, l)
  {
    hide Inv, DialConsult, EndTelegram, HangUp, DoSwitch, DoTransfer, MoveToGroup, Kill, Put;
    match e {
      case ConsultDial(_, invited) => DialSpares(w, j, 0, invited, i, l);
      case TelegramGone(_, tg, retry) => EndSpares(w, j, tg, retry, i, l);
      case Hangup(_) => HangUpSpares(w, j, i, l);
      case SwitchLegs(_) => EndSpares(w, j, 0, false, i, l);
      case Transfer(_) => MoveSpares(w, j, i, l);
      case Decline(_) => HangUpSpares(w, j, i, l);
      case ToGroup(_) => MoveSpares(w, j, i, l);
      case GroupDialIn(_, g, session) =>
    }
  }

  lemma EndLegSpares(w: World, leg: Leg, i: nat, l: Leg)
    requires Inv(w) && Abandoned(w, i, l)
    ensures Abandoned(EndLeg(w, leg), i, l)
  {
    hide Inv, Abandoned, Slots, Sound, Change, LegEnded, InGroup, WithoutLeg, Put, Answered;
    if leg in w.live || leg !in w.owner {
    } else if InGroup(w, leg) {
      PlaceSpares(w, w.(groups := WithoutLeg(w.groups, leg), place := Put(w.place, {leg}, Nowhere)), i, l);
    } else if w.owner[leg] < |w.users| {
      var j := w.owner[leg];
      InvPlaced(w);
      HeldIs(w, i, l);
      if j == i {
        HeldStays(w.users[i], 0, leg, None, false, {});
      }
      ChangeSpares(w, j, LegEnded(w.users[j], leg), i, l);
      ChangeShape(w, j, LegEnded(w.users[j], leg));
      var x := Change(w, j, LegEnded(w.users[j], leg));
      ConnectedSpares(x, x.connected + Answered(w.users[j], x.users[j], x.live), i, l);
    }
  }

  lemma PlaceSpares(w: World, x: World, i: nat, l: Leg)
    requires Abandoned(w, i, l) && x.users == w.users && x.live == w.live
    ensures Abandoned(x, i, l)
  {
  }

  lemma OthersSpare(w: World, e: Event, i: nat, l: Leg)
    requires Inv(w) && Abandoned(w, i, l) && e != Dies(l) && !ForUser(e)
    ensures Shaped(w) && Abandoned(Step(w, e), i, l)
  {
    hide Inv, Slots, EndLeg, UserStep, Put;
    InvShaped(w);
    OtherLegs(w, i, l);
    match e {
      case RingStart(call, users) => HeldIs(w, i, l);
      case CallerGone(call) => CancelSpares(w, call, None, i, l);
      case Connects(leg) =>
      case Dies(leg) =>
      case LegGone(leg) => EndLegSpares(w, leg, i, l);
      case LeaveGroup(g) =>
      case BridgeGone(k) =>
    }
  }

  lemma StepSpares(w: World, e: Event, i: nat, l: Leg)
    requires Inv(w) && Abandoned(w, i, l) && e != Dies(l)
    ensures Shaped(w) && Abandoned(Step(w, e), i, l)
  {
    hide Inv, Abandoned, StartRing, CancelRing, Kill, EndLeg, EndGroup, EndBridge, DialStep, CommandStep;
    InvShaped(w);
    if !ForUser(e) {
      OthersSpare(w, e, i, l);
    } else if e.user < |w.users| {
      if Dialling(e) {
        DialStepSpares(w, e.user, e, i, l);
      } else {
        CommandStepSpares(w, e.user, e, i, l);
      }
    }
  }

  /** From then on, nothing the user or the gateway does reaches the held leg: it lives, on hold, until its far end
      hangs up. */
  lemma {:induction false} HeldLegAbandoned(w: World, events: seq<Event>, i: nat, l: Leg)
    requires Inv(w) && Abandoned(w, i, l) && Dies(l) !in events
    ensures Abandoned(Run(w, events), i, l)
    decreases |events|
  {
    hide Placed, LiveOk, Step, Abandoned;
    if events != [] {
      StepInv(w, events[0]);
      StepSpares(w, events[0], i, l);
      HeldLegAbandoned(Step(w, events[0]), events[1..], i, l);
    }
  }

  // ---- It happens ----

  /** What the following run needs to know of a world with one user. */
  predicate Scene(w: World, u: User, live: set<Leg>, connected: set<Leg>, next: nat) {
    && w.users == [u] && w.gateways == [0] && w.groups == map[] && w.live == live && w.connected == connected
    && w.next == next
    && (forall l :: 0 <= l < next ==> l in w.owner && w.owner[l] == 0)
  }

  /** Leg 0 is abandoned, and the user looks idle. */
  predicate AllAlone(w: World) {
    Abandoned(w, 0, 0) && w.users[0].attempt == Idle && w.users[0].tg.None?
  }

  lemma RunStep(w: World, e: Event, rest: seq<Event>)
    requires Inv(w)
    ensures Shaped(w) && Inv(Step(w, e)) && Run(w, [e] + rest) == Run(Step(w, e), rest)
  {
    hide Placed, LiveOk, Step;
    InvShaped(w);
    StepInv(w, e);
    assert ([e] + rest)[1..] == rest;
  }

  /** A call, a consultation call, the Telegram call drops, the consulted leg hangs up, and the user answers again. */
  function UnluckyReturn(): seq<Event> {
    [OutgoingStart(0)] + ([OutgoingAnswer(0, 1, true)] + ([ConsultDial(0, true)] + ([Connects(1)] + Return())))
  }

  function Return(): seq<Event> {
    [TelegramGone(0, 1, true)] + ([Dies(1)] + ([LegGone(1)] + ([ReconnectAnswer(0, 2)] + [])))
  }

  lemma Called(w: World)
    requires Inv(w) && Scene(w, NOBODY, {}, {}, 0)
    ensures Shaped(w)
    ensures var a := Step(w, OutgoingStart(0));
            && Shaped(a)
            && Scene(Step(a, OutgoingAnswer(0, 1, true)),
                     User(Some(1), Idle, Some(0), None, None, Some(Bridge(0, 1)), false), {0}, {}, 1)
  {
    hide Placed, LiveOk, Reslot;
    InvShaped(w);
  }

  lemma Consulted(w: World)
    requires Inv(w) && Scene(w, User(Some(1), Idle, Some(0), None, None, Some(Bridge(0, 1)), false), {0}, {}, 1)
    ensures Shaped(w)
    ensures var a := Step(w, ConsultDial(0, true));
            && Shaped(a)
            && Scene(Step(a, Connects(1)),
                     User(Some(1), Idle, Some(1), Some(0), None, Some(Bridge(1, 1)), false), {0, 1}, {1}, 2)
  {
    hide Placed, LiveOk, Reslot;
    InvShaped(w);
  }

  lemma DropAndReturn(w: World)
    requires Inv(w) && Scene(w, User(Some(1), Idle, Some(1), Some(0), None, Some(Bridge(1, 1)), false), {0, 1}, {1}, 2)
    ensures Shaped(w)
    ensures var a := Step(w, TelegramGone(0, 1, true));
            Shaped(a) && var b := Step(a, Dies(1));
            Shaped(b) && var c := Step(b, LegGone(1));
            Shaped(c) && AllAlone(Step(c, ReconnectAnswer(0, 2)))
  {
    hide Placed, LiveOk, Reslot;
    InvShaped(w);
    var a := Step(w, TelegramGone(0, 1, true));
    assert Scene(a, User(None, Reconnect(1), Some(1), Some(0), None, None, false), {0, 1}, {1}, 2);
    var b := Step(a, Dies(1));
    assert Scene(b, User(None, Reconnect(1), Some(1), Some(0), None, None, false), {0}, {1}, 2);
    var c := Step(b, LegGone(1));
    assert Scene(c, User(None, Reconnect(1), None, Some(0), None, None, false), {0}, {1}, 2);
  }

  lemma LegCanBeAbandoned()
    ensures Inv(Initial([0])) && AllAlone(Run(Initial([0]), UnluckyReturn()))
  {
    hide Inv, Step, Run, Scene, AllAlone;
    var w := Initial([0]);
    InitialInv([0]);
    InitialScene();
    Called(w);
    RunStep(w, OutgoingStart(0), [OutgoingAnswer(0, 1, true)] + ([ConsultDial(0, true)] + ([Connects(1)] + Return())));
    var a := Step(w, OutgoingStart(0));
    RunStep(a, OutgoingAnswer(0, 1, true), [ConsultDial(0, true)] + ([Connects(1)] + Return()));
    var b := Step(a, OutgoingAnswer(0, 1, true));
    Consulted(b);
    RunStep(b, ConsultDial(0, true), [Connects(1)] + Return());
    var c := Step(b, ConsultDial(0, true));
    RunStep(c, Connects(1), Return());
    ReturnRuns(Step(c, Connects(1)));
  }

  lemma ReturnRuns(w: World)
    requires Inv(w) && Scene(w, User(Some(1), Idle, Some(1), Some(0), None, Some(Bridge(1, 1)), false), {0, 1}, {1}, 2)
    ensures AllAlone(Run(w, Return()))
  {
    hide Inv, Step, Run, Scene, AllAlone;
    DropAndReturn(w);
    RunStep(w, TelegramGone(0, 1, true), [Dies(1)] + ([LegGone(1)] + ([ReconnectAnswer(0, 2)] + [])));
    var a := Step(w, TelegramGone(0, 1, true));
    RunStep(a, Dies(1), [LegGone(1)] + ([ReconnectAnswer(0, 2)] + []));
    var b := Step(a, Dies(1));
    RunStep(b, LegGone(1), [ReconnectAnswer(0, 2)] + []);
    var c := Step(b, LegGone(1));
    RunStep(c, ReconnectAnswer(0, 2), []);
    RunNothing(Step(c, ReconnectAnswer(0, 2)));
  }

  /** After that, a SIP call rings the user's telephone and the user answers. */
  function LockedOut(): seq<Event> {
    [RingStart(7, {0})] + ([RingAnswer(0, 3, true)] + [])
  }

  lemma {:induction false} RunOn(w: World, events: seq<Event>, more: seq<Event>)
    requires Inv(w)
    ensures Inv(Run(w, events)) && Run(w, events + more) == Run(Run(w, events), more)
    decreases |events|
  {
    hide Placed, LiveOk, Step;
    if events == [] {
      assert [] + more == more;
    } else {
      StepInv(w, events[0]);
      RunOn(Step(w, events[0]), events[1..], more);
      assert (events + more)[0] == events[0] && (events + more)[1..] == events[1..] + more;
    }
  }

  /** The leg of a call answered by a user whose lock is lost: it lives, and nobody has it. */
  lemma LockedRingStrands(w: World)
    requires Inv(w) && AllAlone(w)
    ensures Inv(Run(w, LockedOut())) && w.next in Run(w, LockedOut()).live && !Housed(Run(w, LockedOut()), w.next)
  {
    hide Placed, LiveOk, Run, Housed, CancelRing, Reslot, Slots, Put;
    InvShaped(w);
    RunStep(w, RingStart(7, {0}), [RingAnswer(0, 3, true)] + []);
    var x := Step(w, RingStart(7, {0}));
    assert x.users[0].attempt == Ring(7) && x.users[0].stuck && x.next == w.next;
    InvShaped(x);
    RunStep(x, RingAnswer(0, 3, true), []);
    RunNothing(Step(x, RingAnswer(0, 3, true)));
    StrandedLeg(x, RingAnswer(0, 3, true));
    NextStranded(Step(x, RingAnswer(0, 3, true)), x.next);
  }

  /** A run from the start at whose end a live leg has no place, although no number was dialled into a voice chat. */
  lemma LegCanBeStranded()
    ensures Inv(Initial([0]))
    ensures var w := Run(Initial([0]), UnluckyReturn() + LockedOut());
            exists l :: l in w.live && !Housed(w, l)
  {
    hide Placed, LiveOk, Run, Housed, AllAlone, UnluckyReturn, LockedOut;
    var start := Initial([0]);
    LegCanBeAbandoned();
    RunOn(start, UnluckyReturn(), LockedOut());
    LockedRingStrands(Run(start, UnluckyReturn()));
  }

  lemma RunNothing(w: World)
    requires Inv(w)
    ensures Run(w, []) == w
  {
  }

  lemma InitialScene()
    ensures Scene(Initial([0]), NOBODY, {}, {}, 0)
  {
  }
}
