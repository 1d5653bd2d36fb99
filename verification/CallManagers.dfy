/** `UserState` and `CallManager` (sipgram/manager.py) as objects that change in place, proved against the
    transition system of modules CallControl and CallWorld. */
module CallManagers {
  import opened Options
  import opened CallControl
  import opened CallWorld
  import opened LegConservation

  function Elements(legs: seq<Leg>): set<Leg> {
    set l | l in legs
  }

  class UserState {
    var tg: Option<Telegram>
    var attempt: Attempt
    var active: Option<Leg>
    var held: Option<Leg>
    var waiting: Option<Leg>
    var bridge: Option<Bridge>
    /** The user's lock is held by a handler that waits for it. */
    var stuck: bool

    function View(): User
      reads this
    {
      User(tg, attempt, active, held, waiting, bridge, stuck)
    }

    constructor ()
      ensures View() == NOBODY
    {
      tg, attempt, active, held, waiting, bridge, stuck := None, Idle, None, None, None, None, false;
    }

    /** `legs` */
    function Legs(): (legs: seq<Leg>)
      reads this
      ensures forall l :: l in legs <==> l in Slots(View())
    {
      (if active.Some? then [active.value] else []) + (if held.Some? then [held.value] else [])
      + (if waiting.Some? then [waiting.value] else [])
    }

    /** `_stop_bridge` */
    method StopBridge()
      modifies `bridge
      ensures bridge == None
    {
      bridge := None;
    }

    /** `_attach` */
    method AttachLeg(leg: Leg)
      requires tg.Some?
      modifies this
      ensures View() == Attach(old(View()), leg)
    {
      StopBridge();
      active := Some(leg);
      bridge := Some(Bridge(leg, tg.value));
    }

    /** `_resume_held` */
    method Resume()
      modifies this
      ensures View() == ResumeHeld(old(View()))
    {
      var h := held;
      if h.None? || tg.None? {
        return;
      }
      held := None;
      AttachLeg(h.value);
    }

    /** `_end_everything` up to the hang-ups */
    method Clear() returns (legs: seq<Leg>)
      modifies this
      ensures View() == EndEverything(old(View()))
      ensures forall l :: l in legs <==> l in Slots(old(View())) - Slots(View())
    {
      if stuck {
        return [];
      }
      StopBridge();
      legs := Legs();
      active, held, waiting := None, None, None;
      tg := None;
      attempt := Idle;
    }

    /** `_leg_ended` under the lock; says whether a waiting leg took over and is to be answered. */
    method Ended(leg: Leg) returns (taken: Option<Leg>)
      requires Distinct(View())
      modifies this
      ensures View() == LegEnded(old(View()), leg)
      ensures One(taken) == One(old(waiting)) * One(active)
    {
      taken := None;
      if stuck {
        return;
      }
      if waiting == Some(leg) {
        waiting := None;
        return;
      }
      if held == Some(leg) {
        held := None;
        return;
      }
      if active != Some(leg) {
        return;
      }
      active := None;
      StopBridge();
      if held.Some? {
        Resume();
      } else if waiting.Some? && tg.Some? {
        var w := waiting.value;
        waiting := None;
        AttachLeg(w);
        taken := Some(w);
      } else if tg.Some? {
        tg := None;
      }
    }

    /** `_switch` under the lock */
    method SwitchOver()
      modifies this
      ensures View() == Switch(old(View()))
    {
      if stuck {
        return;
      }
      if waiting.Some? && tg.Some? {
        var w := waiting.value;
        waiting := None;
        if active.Some? {
          StopBridge();
          held := active;
          active := None;
        }
        AttachLeg(w);
      } else if held.Some? && tg.Some? {
        var a, h := active, held.value;
        if a.Some? {
          StopBridge();
        }
        held := a;
        AttachLeg(h);
      }
    }

    /** `_dial` with consultation, and the rest of `_dial_leg` */
    method ConsultWith(invited: Option<Leg>)
      requires MayConsult(View())
      modifies this
      ensures View() == Consult(old(View()), invited)
    {
      var current := active;
      StopBridge();
      held := current;
      active := None;
      if invited.None? {
        Resume();
        return;
      }
      AttachLeg(invited.value);
    }

    /** The continuation of a callback or an accepted call */
    method Connected(call: Telegram, invited: Option<Leg>) returns (legs: seq<Leg>)
      modifies this
      ensures View() == OutgoingAnswered(old(View()), call, invited)
      ensures forall l :: l in legs ==> l in Slots(old(View())) - Slots(View())
      ensures invited.None? ==> forall l :: l in Slots(old(View())) - Slots(View()) ==> l in legs
    {
      legs := [];
      if stuck {
        return;
      }
      attempt := Idle;
      tg := Some(call);
      if invited.None? {
        legs := Clear();
        return;
      }
      AttachLeg(invited.value);
    }

    /** `_tg_ended` */
    method TelegramEnded(call: Telegram, resumable: bool) returns (legs: seq<Leg>)
      modifies this
      ensures View() == TgEnded(old(View()), call, resumable)
      ensures forall l :: l in legs <==> l in Slots(old(View())) - Slots(View())
    {
      if stuck || tg != Some(call) {
        return [];
      }
      tg := None;
      StopBridge();
      if resumable && active.Some? && !attempt.Reconnect? {
        attempt := Reconnect(active.value);
        return [];
      }
      legs := Clear();
    }

    /** `_reconnect` after the call; `present` says whether the leg is still alive. */
    method Reconnected(call: Telegram, present: bool)
      requires attempt.Reconnect?
      modifies this
      ensures View() == ReconnectWon(old(View()), call, present)
    {
      var leg := attempt.leg;
      attempt := Idle;
      if active != Some(leg) || !present {
        stuck := true;
        return;
      }
      tg := Some(call);
      AttachLeg(leg);
    }

    /** `_transfer` under the lock */
    method HandOver()
      modifies this
      ensures View() == Transferred(old(View()))
    {
      StopBridge();
      active, held := None, None;
      tg := None;
    }

    /** `_move_to_group`: the live ones of held and active leave, and everything else ends with the Telegram call. */
    method MoveOut(live: set<Leg>) returns (moved: seq<Leg>, legs: seq<Leg>)
      requires Distinct(View())
      modifies this
      ensures View() == MovedOut(old(View()), live)
      ensures forall l :: l in moved <==> l in Movable(old(View()), live)
      ensures forall l :: l in legs ==> l in Slots(old(View()))
      ensures forall l :: l in Slots(old(View())) - Slots(View()) ==> l in moved || l in legs
      ensures forall l :: l in legs ==> l !in Slots(View())
    {
      moved, legs := [], [];
      if stuck {
        return;
      }
      if held.Some? && held.value in live {
        moved := moved + [held.value];
        held := None;
      }
      if active.Some? && active.value in live {
        moved := moved + [active.value];
        StopBridge();
        active := None;
      }
      if moved != [] && tg.Some? {
        legs := Clear();
      }
    }
  }

  ghost function Views(users: seq<UserState>): (views: seq<User>)
    reads users
    ensures |views| == |users| && forall i :: 0 <= i < |users| ==> views[i] == users[i].View()
  {
    seq(|users|, i requires 0 <= i < |users| reads users => users[i].View())
  }

  /** One object of the list has changed. */
  lemma OneView(users: seq<UserState>, before: seq<User>, i: nat, u: User)
    requires |before| == |users| && i < |users| && users[i].View() == u
    requires forall j :: 0 <= j < |users| && j != i ==> users[j].View() == before[j]
    ensures Views(users) == before[i := u]
  {
  }

  predicate AllDistinct(users: seq<UserState>) {
    forall i, j :: 0 <= i < j < |users| ==> users[i] != users[j]
  }

  lemma OthersDiffer(users: seq<UserState>, i: nat)
    requires AllDistinct(users) && i < |users|
    ensures forall j :: 0 <= j < |users| && j != i ==> users[j] != users[i]
  {
  }

  class CallManager {
    const users: seq<UserState>
    const gateways: seq<Gateway>
    var groups: map<Gateway, Session>
    var bridges: map<nat, Pair>
    /** The SIP side: whose call each leg is, which calls have not ended and which were answered. */
    var owner: map<Leg, nat>
    var live: set<Leg>
    var connected: set<Leg>
    var next: nat
    var sessions: nat
    var entries: nat
    ghost var place: map<Leg, Place>

    ghost predicate Valid() {
      AllDistinct(users) && |users| == |gateways|
    }

    ghost function View(): World
      reads this, users
    {
      World(Views(users), gateways, groups, bridges, owner, live, connected, next, sessions, entries, place)
    }

    constructor (users: seq<UserState>, gateways: seq<Gateway>)
      requires AllDistinct(users) && |users| == |gateways| && forall u :: u in users ==> u.View() == NOBODY
      ensures Valid() && View() == Initial(gateways) && this.users == users
    {
      this.users, this.gateways := users, gateways;
      groups, bridges, owner, live, connected, next, sessions, entries, place := map[], map[], map[], {}, {}, 0, 0, 0,
          map[];
    }

    /** Every leg of the list is hung up or rejected. */
    method HangUpAll(legs: seq<Leg>)
      modifies `live
      ensures live == old(live) - Elements(legs)
    {
      for i := 0 to |legs|
        invariant live == old(live) - Elements(legs[..i])
      {
        live := live - {legs[i]};
        assert legs[..i + 1] == legs[..i] + [legs[i]];
      }
      assert legs[..|legs|] == legs;
    }

    /** A new SIP call of user i. */
    method Call(i: nat, answered: bool) returns (leg: Leg)
      requires i < |users|
      modifies `owner, `live, `connected, `next
      ensures leg == old(next) && View() == NewLeg(old(View()), i, answered)
    {
      leg := next;
      owner := owner[leg := i];
      live := live + {leg};
      next := next + 1;
      if answered {
        connected := connected + {leg};
      }
    }

    /** User i has a new value, and the legs that lost their slot have been hung up. */
    ghost method Settle(i: nat, before: World)
      requires Valid() && i < |users| == |before.users|
      requires forall j :: 0 <= j < |users| && j != i ==> users[j].View() == before.users[j]
      requires groups == before.groups && bridges == before.bridges && owner == before.owner
      requires connected == before.connected
      requires next == before.next && sessions == before.sessions && entries == before.entries && place == before.place
      requires gateways == before.gateways && live == before.live - (Slots(before.users[i]) - Slots(users[i].View()))
      modifies `place
      ensures View() == Change(before, i, users[i].View())
    {
      hide Slots, Reslot, Views;
      place := Reslot(place, i, Slots(users[i].View()));
      OneView(users, before.users, i, users[i].View());
    }

    /** `_end_everything` */
    method EndAll(i: nat)
      requires Valid() && i < |users|
      modifies `live, `place, users[i]
      ensures View() == Change(old(View()), i, EndEverything(old(users[i].View())))
    {
      hide Slots, Views, EndEverything, Change;
      OthersDiffer(users, i);
      var legs := users[i].Clear();
      HangUpAll(legs);
      Settle(i, old(View()));
    }

    /** `_tg_ended` */
    method TelegramEnded(i: nat, tg: Telegram, retry: bool)
      requires Valid() && i < |users|
      modifies `live, `place, users[i]
      ensures View() == EndTelegram(old(View()), i, tg, retry)
    {
      hide Slots, Views, TgEnded, Change;
      OthersDiffer(users, i);
      var u := users[i];
      var resumable := retry && u.active.Some? && u.active.value in live && u.active.value in connected;
      var legs := u.TelegramEnded(tg, resumable);
      HangUpAll(legs);
      Settle(i, old(View()));
    }

    /** `_reconnect` once the user answers */
    method ReconnectAnswered(i: nat, tg: Telegram)
      requires Valid() && i < |users| && users[i].attempt.Reconnect? && Sound(users[i].View())
      modifies `place, users[i]
      ensures View() == WinReconnect(old(View()), i, tg)
    {
      hide Slots, Views, ReconnectWon, Change, Sound;
      OthersDiffer(users, i);
      var u := users[i];
      ReconnectSound(u.View(), tg, u.attempt.leg in live);
      u.Reconnected(tg, u.attempt.leg in live);
      Settle(i, old(View()));
    }

    /** `_switch` */
    method SwitchLegs(i: nat)
      requires Valid() && i < |users| && Sound(users[i].View())
      modifies `place, `connected, users[i]
      ensures View() == DoSwitch(old(View()), i)
    {
      hide Slots, Views, Switch, Change, Sound;
      OthersDiffer(users, i);
      var u := users[i];
      var w := u.waiting;
      SwitchSound(u.View());
      u.SwitchOver();
      Settle(i, old(View()));
      ChangeShape(old(View()), i, u.View());
      connected := connected + One(w) * One(u.active) * live;
    }

    /** `_dial` during a call */
    method DialDuringCall(i: nat, invited: bool)
      requires Valid() && i < |users| && Inv(View())
      modifies `owner, `live, `connected, `next, `place, users[i]
      ensures View() == DialConsult(old(View()), i, invited)
    {
      hide Slots, Views, Consult, Change, Sound, Placed, LiveOk, NewLeg;
      OthersDiffer(users, i);
      UserSound(View(), i);
      NextIsFree(View(), i);
      var u := users[i];
      if !(u.tg.Some? && u.attempt == Idle && u.held.None? && u.waiting.None? && u.active.Some?) {
        return;
      }
      if invited {
        ConsultSound(u.View(), Some(next));
        var leg := Call(i, false);
        ghost var before := View();
        u.ConsultWith(Some(leg));
        Settle(i, before);
      } else {
        ConsultSound(u.View(), None);
        u.ConsultWith(None);
        Settle(i, old(View()));
      }
    }

    /** `_offer_waiting` */
    method OfferToWait(i: nat)
      requires Valid() && i < |users| && Inv(View())
      modifies `owner, `live, `connected, `next, `place, users[i]
      ensures View() == OfferWaiting(old(View()), i)
    {
      hide Slots, Views, Change, Sound, Placed, LiveOk, NewLeg, Put;
      OthersDiffer(users, i);
      UserSound(View(), i);
      NextIsFree(View(), i);
      var u := users[i];
      if u.waiting.Some? || u.held.Some? || u.attempt.Reconnect? || u.tg.None? {
        return;
      }
      OfferSound(u.View(), next);
      var leg := Call(i, false);
      ghost var before := View();
      u.waiting := Some(leg);
      NothingFreed(Slots(before.users[i]), Slots(u.View()), live);
      Settle(i, before);
    }

    /** The continuation of a callback or of an accepted call, with the INVITE it sends */
    method OutgoingReached(i: nat, tg: Telegram, invited: bool)
      requires Valid() && i < |users| && Inv(View()) && users[i].attempt == Outgoing
      modifies `owner, `live, `connected, `next, `place, users[i]
      ensures View() == AnswerOutgoing(old(View()), i, tg, invited)
    {
      hide Slots, Views, OutgoingAnswered, Change, Sound, Placed, LiveOk, NewLeg;
      OthersDiffer(users, i);
      UserSound(View(), i);
      NextIsFree(View(), i);
      var u := users[i];
      if invited && !u.stuck {
        IdleHasNoLegs(u.View());
        OutgoingSound(u.View(), tg, Some(next));
        var leg := Call(i, false);
        ghost var before := View();
        var legs := u.Connected(tg, Some(leg));
        Settle(i, before);
      } else {
        var legs := u.Connected(tg, None);
        HangUpAll(legs);
        Settle(i, old(View()));
      }
    }

    /** `_ring_users` when user i has answered: the other telephones stop ringing. */
    method CancelOthers(i: nat, call: nat)
      requires Valid() && i < |users|
      modifies users
      ensures View() == old(View()).(users := CancelRing(old(View()).users, call, Some(i)))
    {
      hide Slots;
      for j := 0 to |users|
        invariant forall k :: 0 <= k < j ==> users[k].View() == CancelRing(old(View()).users, call, Some(i))[k]
        invariant forall k :: j <= k < |users| ==> users[k].View() == old(users[k].View())
      {
        OthersDiffer(users, j);
        if j != i && users[j].attempt == Ring(call) {
          users[j].attempt := Idle;
        }
      }
    }

    method RingAnswered(i: nat, tg: Telegram, present: bool)
      requires Valid() && i < |users| && Inv(View()) && users[i].attempt.Ring?
      modifies `owner, `live, `connected, `next, `place, users
      ensures View() == AnswerRing(old(View()), i, tg, present)
    {
      hide Slots, Views, RingWon, Change, Sound, Placed, LiveOk, NewLeg, CancelRing, Attach, Strand;
      var u := users[i];
      ghost var was := u.View();
      CancelRingInv(View(), u.attempt.call, Some(i));
      CancelSpared(View().users, u.attempt.call, i);
      CancelOthers(i, u.attempt.call);
      RingFound(i, tg, present);
    }

    /** The rest of `_ring_users` for the user who answered. */
    method RingFound(i: nat, tg: Telegram, present: bool)
      requires Valid() && i < |users| && Inv(View()) && users[i].attempt.Ring?
      modifies `owner, `live, `connected, `next, `place, users[i]
      ensures var w := old(View()); var u := old(users[i].View());
              View() == if !present then Change(w, i, u.(attempt := Idle))
                        else if u.stuck then Strand(Change(w, i, u.(attempt := Idle)), i, false)
                        else Change(NewLeg(w, i, true), i, RingWon(u, tg, w.next))
    {
      hide Slots, Views, Change, Sound, Placed, LiveOk, NewLeg, Put;
      OthersDiffer(users, i);
      UserSound(View(), i);
      NextIsFree(View(), i);
      var u := users[i];
      AttemptSound(u.View(), Idle);
      if !present || u.stuck {
        u.attempt := Idle;
        Settle(i, old(View()));
        if present {
          var stranded := Call(i, false);
          place := Put(place, {stranded}, Stray);
        }
        return;
      }
      IdleHasNoLegs(u.View());
      RingSound(u.View(), tg, next);
      RingTakes(u.View(), tg, next);
      var leg := Call(i, true);
      ghost var before := View();
      u.attempt := Idle;
      u.tg := Some(tg);
      u.AttachLeg(leg);
      NothingFreed(Slots(before.users[i]), Slots(u.View()), live);
      Settle(i, before);
    }

    /** `_group_of` */
    method GroupOf(leg: Leg) returns (g: Option<Gateway>)
      ensures g.Some? ==> g.value in groups && leg in groups[g.value].legs
      ensures g.None? ==> forall h :: h in groups ==> leg !in groups[h].legs
    {
      var keys := groups.Keys;
      while keys != {}
        invariant keys <= groups.Keys
        invariant forall h :: h in groups && h !in keys ==> leg !in groups[h].legs
        decreases |keys|
      {
        var h :| h in keys;
        if leg in groups[h].legs {
          return Some(h);
        }
        keys := keys - {h};
      }
      return None;
    }

    /** `_leg_ended` for a leg in a voice chat: the last one to leave closes it. */
    method LeftGroup(leg: Leg, g: Gateway)
      requires Valid() && Inv(View()) && g in groups && leg in groups[g].legs
      modifies `groups, `place
      ensures View() == old(View()).(groups := WithoutLeg(old(groups), leg), place := Put(old(place), {leg}, Nowhere))
    {
      hide Slots, Views, Sound, LiveOk, UsersOk, SlotsOk, BridgesOk, LegsOk, Put, GroupsOk, WithoutLeg;
      InChatPlace(View(), g, leg);
      groups := groups[g := groups[g].(legs := groups[g].legs - {leg})];
      if groups[g].legs == {} {
        groups := groups - {g};
      }
      place := Put(place, {leg}, Nowhere);
      OneLeaves(old(groups), leg, g);
    }

    /** `_leg_ended` */
    method LegEnds(leg: Leg)
      requires Valid() && Inv(View()) && leg !in live && leg in owner && owner[leg] < |users|
      modifies this, users
      ensures View() == EndLeg(old(View()), leg)
    {
      hide Slots, Views, Sound, Placed, LiveOk, LegEnded, Change, WithoutLeg, Put;
      var g := GroupOf(leg);
      if g.Some? {
        assert InGroup(View(), leg);
        LeftGroup(leg, g.value);
        return;
      }
      assert !InGroup(View(), leg);
      UserSound(View(), owner[leg]);
      LeftUser(leg, owner[leg]);
    }

    /** `_leg_ended` for a leg outside the voice chats */
    method LeftUser(leg: Leg, i: nat)
      requires Valid() && leg !in live && i < |users| && Sound(users[i].View())
      modifies `connected, `place, users[i]
      ensures var w := old(View()); var x := Change(w, i, LegEnded(w.users[i], leg));
              && |x.users| == |w.users|
              && View() == x.(connected := x.connected + Answered(w.users[i], x.users[i], x.live))
    {
      hide Slots, Views, Sound, LegEnded, Change;
      OthersDiffer(users, i);
      var u := users[i];
      ghost var was := u.View();
      LegEndedSound(was, leg);
      SoundDistinct(was);
      var taken := u.Ended(leg);
      OneFreed(Slots(was), Slots(u.View()), leg, live);
      Settle(i, old(View()));
      ChangeShape(old(View()), i, u.View());
      connected := connected + One(taken) * live;
    }

    /** `_hangup` */
    method Hangup(i: nat)
      requires Valid() && i < |users|
      modifies `live, `place, users[i]
      ensures View() == HangUp(old(View()), i)
    {
      hide Slots, Views, EndEverything, Change;
      OthersDiffer(users, i);
      var u := users[i];
      if u.active.Some? && u.active.value in live {
        live := live - {u.active.value};
        return;
      }
      if u.tg.Some? || u.attempt != Idle {
        EndAll(i);
        return;
      }
      if gateways[i] in groups {
        live := live - (set l | l in groups[gateways[i]].legs && l in owner && owner[l] == i);
      }
    }

    /** `_transfer` */
    method TransferCall(i: nat)
      requires Valid() && i < |users| && Sound(users[i].View())
      modifies `bridges, `entries, `place, users[i]
      ensures View() == DoTransfer(old(View()), i)
    {
      hide Slots, Views, Sound, Put, Reslot;
      OthersDiffer(users, i);
      var u := users[i];
      if u.stuck || u.active.None? || u.held.None? || u.active.value !in live || u.active.value !in connected {
        return;
      }
      var p := Pair(u.active.value, u.held.value);
      u.HandOver();
      OneView(users, old(View()).users, i, u.View());
      place := Put(Reslot(place, i, Slots(u.View())), {p.one, p.other}, Bridged(entries));
      bridges := bridges[entries := p];
      entries := entries + 1;
    }

    /** `_group` and `_move_to_group` */
    method ToVoiceChat(i: nat)
      requires Valid() && i < |users| && Inv(View())
      modifies `groups, `sessions, `live, `place, users[i]
      ensures View() == MoveToGroup(old(View()), i)
    {
      hide Slots, Views, Sound, Put, Placed, LiveOk, MovedOut, Movable, Change;
      var g := gateways[i];
      UserSound(View(), i);
      if g !in groups {
        groups := groups[g := Session(sessions, {})];
        sessions := sessions + 1;
      }
      HandToChat(i, g);
    }

    method HandToChat(i: nat, g: Gateway)
      requires Valid() && i < |users| && g in groups && Sound(users[i].View())
      modifies `groups, `live, `place, users[i]
      ensures g in Change(old(View()), i, MovedOut(old(users[i].View()), old(live))).groups
      ensures View() == JoinGroup(Change(old(View()), i, MovedOut(old(users[i].View()), old(live))), g,
                                  Movable(old(users[i].View()), old(live)))
    {
      hide Slots, Views, Sound, Put, MovedOut, Movable, Change;
      ChangeFields(View(), i, MovedOut(users[i].View(), live));
      var moved := LeaveSlots(i);
      EnterChat(g, moved);
    }

    /** The lock-protected half of `_move_to_group`, and `_end_everything` for what stays behind */
    method LeaveSlots(i: nat) returns (moved: seq<Leg>)
      requires Valid() && i < |users| && Sound(users[i].View())
      modifies `live, `place, users[i]
      ensures View() == Change(old(View()), i, MovedOut(old(users[i].View()), old(live)))
      ensures Elements(moved) == Movable(old(users[i].View()), old(live))
    {
      hide Slots, Views, Sound, MovedOut, Movable, Change;
      OthersDiffer(users, i);
      var u := users[i];
      SoundDistinct(u.View());
      MoveSound(u.View(), live);
      ghost var was, movable := u.View(), Movable(u.View(), live);
      var legs;
      moved, legs := u.MoveOut(live);
      HangUpAll(moved + legs);
      FreedSame(Slots(was), Slots(u.View()), moved, legs, movable);
      Settle(i, old(View()));
    }

    method EnterChat(g: Gateway, moved: seq<Leg>)
      requires g in groups
      modifies `groups, `live, `place
      ensures View() == JoinGroup(old(View()), g, Elements(moved))
    {
      hide Views, Put;
      live := live + Elements(moved);
      groups := groups[g := groups[g].(legs := groups[g].legs + Elements(moved))];
      place := Put(place, Elements(moved), Group(g));
    }

    /** `_dial_into_group` once the number has answered */
    method JoinDialled(i: nat, g: Gateway, session: nat)
      requires Valid() && i < |users|
      modifies `owner, `live, `connected, `next, `groups, `place
      ensures View() == DialIntoGroup(old(View()), i, g, session)
    {
      hide Views, Put;
      var leg := Call(i, true);
      if g in groups && groups[g].number == session {
        groups := groups[g := groups[g].(legs := groups[g].legs + {leg})];
        place := Put(place, {leg}, Group(g));
      } else {
        place := Put(place, {leg}, Stray);
      }
    }

    /** `_leave_group` and `_watch_group` */
    method CloseGroup(g: Gateway)
      modifies `groups, `live, `place
      ensures View() == EndGroup(old(View()), g)
    {
      hide Views, Put;
      if g !in groups {
        return;
      }
      var legs := groups[g].legs;
      live := live - legs;
      groups := groups - {g};
      place := Put(place, legs, Nowhere);
    }

    /** The watcher of a SIP-to-SIP bridge */
    method CloseBridge(k: nat)
      modifies `bridges, `live, `place
      ensures View() == EndBridge(old(View()), k)
    {
      hide Views, Put;
      if k !in bridges || (bridges[k].one in live && bridges[k].other in live) {
        return;
      }
      var legs := {bridges[k].one, bridges[k].other};
      live := live - legs;
      bridges := bridges - {k};
      place := Put(place, legs, Nowhere);
    }
  }

  lemma OneLeaves(groups: map<Gateway, Session>, leg: Leg, g: Gateway)
    requires g in groups && leg in groups[g].legs && forall h :: h in groups && leg in groups[h].legs ==> h == g
    ensures WithoutLeg(groups, leg)
            == if groups[g].legs - {leg} == {} then groups[g := groups[g].(legs := groups[g].legs - {leg})] - {g}
               else groups[g := groups[g].(legs := groups[g].legs - {leg})]
  {
    assert groups[g].legs - {leg} == {} <==> groups[g].legs == {leg};
    forall h | h in groups && h != g ensures groups[h].legs - {leg} == groups[h].legs && groups[h].legs != {leg} {
    }
  }

  lemma ChangeFields(w: World, i: nat, u: User)
    requires i < |w.users|
    ensures Change(w, i, u).groups == w.groups
  {
  }

  lemma NothingFreed(before: set<Leg>, after: set<Leg>, live: set<Leg>)
    requires before <= after
    ensures live == live - (before - after)
  {
  }

  lemma OneFreed(before: set<Leg>, after: set<Leg>, leg: Leg, live: set<Leg>)
    requires before - after <= {leg} && leg !in live
    ensures live == live - (before - after)
  {
  }

  lemma FreedSame(before: set<Leg>, after: set<Leg>, moved: seq<Leg>, legs: seq<Leg>, movable: set<Leg>)
    requires forall l :: l in moved <==> l in movable
    requires movable <= before && after <= before - movable
    requires forall l :: l in legs ==> l in before && l !in after
    requires forall l :: l in before - after ==> l in moved || l in legs
    ensures Elements(moved + legs) == before - after && Elements(moved) == movable
  {
  }

  lemma SoundDistinct(u: User)
    requires Sound(u)
    ensures Distinct(u)
  {
  }

  lemma IdleHasNoLegs(u: User)
    requires Sound(u) && (u.attempt.Ring? || u.attempt == Outgoing) && !u.stuck
    ensures Slots(u) == {} && u.tg.None? && u.bridge.None?
  {
  }

  lemma CancelSpared(users: seq<User>, call: nat, i: nat)
    requires i < |users|
    ensures |CancelRing(users, call, Some(i))| == |users| && CancelRing(users, call, Some(i))[i] == users[i]
  {
  }
}
