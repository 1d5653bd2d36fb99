/** What the invariant of module LegConservation says of every run: no leg is lost or owned twice, the slots
    fit together, and the one way a user's lock is lost. */
module LegTheorems {
  import opened Options
  import opened CallControl
  import opened CallWorld
  import opened LegConservation

  // ---- Every leg has one place ----

  datatype Spot =
    | ActiveOf(user: nat) | HeldOf(user: nat) | WaitingOf(user: nat) | InChat(gateway: Gateway) | InBridge(entry: nat)

  predicate At(w: World, l: Leg, s: Spot) {
    match s
    case ActiveOf(i) => i < |w.users| && w.users[i].active == Some(l)
    case HeldOf(i) => i < |w.users| && w.users[i].held == Some(l)
    case WaitingOf(i) => i < |w.users| && w.users[i].waiting == Some(l)
    case InChat(g) => g in w.groups && l in w.groups[g].legs
    case InBridge(k) => k in w.bridges && Joins(w.bridges[k], l)
  }

  function PlaceOf(s: Spot): Place {
    match s
    case ActiveOf(i) => Slot(i)
    case HeldOf(i) => Slot(i)
    case WaitingOf(i) => Slot(i)
    case InChat(g) => Group(g)
    case InBridge(k) => Bridged(k)
  }

  lemma AtPlace(w: World, l: Leg, s: Spot)
    requires Inv(w) && At(w, l, s)
    ensures l in w.place && w.place[l] == PlaceOf(s)
  {
    hide Sound;
    if s.ActiveOf? || s.HeldOf? || s.WaitingOf? {
      InPlace(w, s.user, l);
    }
  }

  /** No leg is in two places, in any state a run can reach. */
  lemma AtMostOneSpot(w: World, l: Leg, s: Spot, t: Spot)
    requires Inv(w) && At(w, l, s) && At(w, l, t)
    ensures s == t
  {
    hide Inv;
    AtPlace(w, l, s);
    AtPlace(w, l, t);
    if s.ActiveOf? || s.HeldOf? || s.WaitingOf? {
      UserSound(w, s.user);
    }
  }

  lemma PlaceAt(w: World, l: Leg)
    requires Inv(w) && l in w.place && w.place[l] != Nowhere && w.place[l] != Stray
    ensures exists s :: At(w, l, s)
  {
    hide Sound, Joins;
    match w.place[l] {
      case Slot(i) =>
        assert l in Slots(w.users[i]);
        assert At(w, l, ActiveOf(i)) || At(w, l, HeldOf(i)) || At(w, l, WaitingOf(i));
      case Group(g) =>
        assert At(w, l, InChat(g));
      case Bridged(k) =>
        assert At(w, l, InBridge(k));
    }
  }

  /** A number that answers a `/group` call into a voice chat that has meanwhile ended. */
  predicate LateDialIn(w: World, e: Event) {
    e.GroupDialIn? && e.user < |w.users| && !(e.gateway in w.groups && w.groups[e.gateway].number == e.session)
  }

  /** A ringing SIP call is answered by a user whose lock is lost. */
  predicate LockedRing(w: World, e: Event) {
    && e.RingAnswer? && e.present && e.user < |w.users|
    && w.users[e.user].attempt.Ring? && w.users[e.user].stuck
  }

  /** The two ways in which a step makes a leg that nobody owns. */
  predicate Strands(w: World, e: Event) {
    LateDialIn(w, e) || LockedRing(w, e)
  }

  /** Nothing becomes a stray. */
  predicate NoNewStray(place: map<Leg, Place>, later: map<Leg, Place>) {
    forall l :: l in later && later[l] == Stray ==> l in place && place[l] == Stray
  }

  lemma ReslotStray(place: map<Leg, Place>, i: nat, slots: set<Leg>)
    ensures NoNewStray(place, Reslot(place, i, slots))
  {
  }

  lemma PutStray(place: map<Leg, Place>, legs: set<Leg>, p: Place)
    requires p != Stray
    ensures NoNewStray(place, Put(place, legs, p))
  {
  }

  lemma StrayTwice(place: map<Leg, Place>, middle: map<Leg, Place>, later: map<Leg, Place>)
    requires NoNewStray(place, middle) && NoNewStray(middle, later)
    ensures NoNewStray(place, later)
  {
  }

  /** Nothing moves but user i's legs. */
  ghost predicate OnlySlots(w: World, x: World, i: nat) {
    x.place == w.place || exists slots :: x.place == Reslot(w.place, i, slots)
  }

  lemma DialSlots(w: World, i: nat, e: Event)
    requires i < |w.users| && Dialling(e) && e.user == i && !LockedRing(w, e)
    ensures OnlySlots(w, DialStep(w, i, e), i)
  {
    hide Slots, Reslot, RingWon, OutgoingAnswered, CancelRing, MayWait, ReconnectWon, ReconnectFailed;
  }

  lemma CommandSlots(w: World, i: nat, e: Event)
    requires Shaped(w) && i < |w.users| && ForUser(e) && !Dialling(e) && !e.Transfer? && !e.ToGroup? && !e.GroupDialIn?
    ensures OnlySlots(w, CommandStep(w, i, e), i)
  {
    hide Slots, Reslot, Consult, MayConsult, TgEnded, EndEverything, Switch;
  }

  lemma StepStray(w: World, e: Event)
    requires Inv(w) && !Strands(w, e)
    ensures Shaped(w) && NoNewStray(w.place, Step(w, e).place)
  {
    hide Inv, NoNewStray, Slots, Reslot, Put, LegEnded, CancelRing, Transferred, MovedOut, Movable, MayTransfer,
        InGroup, WithoutLeg;
    InvShaped(w);
    SameStray(w.place);
    if e.LegGone? {
      PutStray(w.place, {e.leg}, Nowhere);
      if e.leg in w.owner && w.owner[e.leg] < |w.users| {
        ReslotStray(w.place, w.owner[e.leg], Slots(LegEnded(w.users[w.owner[e.leg]], e.leg)));
      }
    } else if e.LeaveGroup? {
      if e.gateway in w.groups {
        PutStray(w.place, w.groups[e.gateway].legs, Nowhere);
      }
    } else if e.BridgeGone? {
      if e.entry in w.bridges {
        PutStray(w.place, {w.bridges[e.entry].one, w.bridges[e.entry].other}, Nowhere);
      }
    } else if e.RingStart? || e.CallerGone? || e.Connects? || e.Dies? || e.user >= |w.users| {
    } else {
      UserStepStray(w, e.user, e);
    }
  }

  lemma SameStray(place: map<Leg, Place>)
    ensures NoNewStray(place, place)
  {
  }

  lemma UserStepStray(w: World, i: nat, e: Event)
    requires Shaped(w) && i < |w.users| && !Strands(w, e) && ForUser(e) && e.user == i
    ensures NoNewStray(w.place, UserStep(w, i, e).place)
  {
    hide NoNewStray, Slots, Reslot, Put, Transferred, MovedOut, Movable, MayTransfer, DialStep, DialConsult,
        EndTelegram, HangUp, DoSwitch, Kill;
    SameStray(w.place);
    if e.Transfer? {
      TransferStray(w, i);
    } else if e.ToGroup? {
      var g := w.gateways[i];
      var x := if g in w.groups then w
          else w.(groups := w.groups[g := Session(w.sessions, {})], sessions := w.sessions + 1);
      var middle := Reslot(w.place, i, Slots(MovedOut(w.users[i], w.live)));
      ReslotStray(w.place, i, Slots(MovedOut(w.users[i], w.live)));
      PutStray(middle, Movable(w.users[i], w.live), Group(g));
      StrayTwice(w.place, middle, Put(middle, Movable(w.users[i], w.live), Group(g)));
    } else if e.GroupDialIn? {
      PutStray(w.place, {w.next}, Group(e.gateway));
    } else {
      if Dialling(e) {
        DialSlots(w, i, e);
      } else {
        CommandSlots(w, i, e);
      }
      if slots :| UserStep(w, i, e).place == Reslot(w.place, i, slots) {
        ReslotStray(w.place, i, slots);
      }
    }
  }

  lemma TransferStray(w: World, i: nat)
    requires i < |w.users|
    ensures NoNewStray(w.place, DoTransfer(w, i).place)
  {
    hide NoNewStray, Slots, Reslot, Put, Transferred, MayTransfer;
    SameStray(w.place);
    var u := w.users[i];
    var connected := u.active.Some? && u.active.value in w.live && u.active.value in w.connected;
    if MayTransfer(u, connected) {
      TransferLegs(u, connected);
      var middle := Reslot(w.place, i, Slots(Transferred(u)));
      ReslotStray(w.place, i, Slots(Transferred(u)));
      PutStray(middle, {u.active.value, u.held.value}, Bridged(w.entries));
      StrayTwice(w.place, middle, Put(middle, {u.active.value, u.held.value}, Bridged(w.entries)));
    }
  }

  lemma TransferLegs(u: User, connected: bool)
    requires MayTransfer(u, connected)
    ensures u.active.Some? && u.held.Some?
  {
  }

  /** A run in which every dialled-in number still finds its voice chat, and no call is answered by a user whose lock is
      lost. */
  ghost predicate Prompt(w: World, events: seq<Event>)
    requires Inv(w)
    decreases |events|
  {
    events == [] ||
    (StepInv(w, events[0]);
     !Strands(w, events[0]) && Prompt(Step(w, events[0]), events[1..]))
  }

  predicate NoStrays(w: World) {
    forall l :: l in w.place ==> w.place[l] != Stray
  }

  lemma {:induction false} RunNoStrays(w: World, events: seq<Event>)
    requires Inv(w) && NoStrays(w) && Prompt(w, events)
    ensures NoStrays(Run(w, events))
    decreases |events|
  {
    hide Placed, LiveOk, Step, Strands;
    if events != [] {
      StepInv(w, events[0]);
      StepStray(w, events[0]);
      RunNoStrays(Step(w, events[0]), events[1..]);
    }
  }

  /** The leg sits in exactly one place: one slot of one user, one voice chat, or one bridge. */
  ghost predicate Housed(w: World, l: Leg) {
    exists s :: At(w, l, s) && forall t :: At(w, l, t) ==> t == s
  }

  ghost predicate AllHoused(w: World) {
    forall l :: l in w.live ==> Housed(w, l)
  }

  lemma HousedIffAt(w: World, l: Leg)
    requires Inv(w)
    ensures Housed(w, l) <==> exists s :: At(w, l, s)
  {
    hide Inv, At;
    if s :| At(w, l, s) {
      forall t | At(w, l, t) ensures t == s {
        AtMostOneSpot(w, l, t, s);
      }
    }
  }

  lemma NoStraysHoused(w: World)
    requires Inv(w) && NoStrays(w)
    ensures AllHoused(w)
  {
    hide Placed, At, Housed;
    forall l | l in w.live ensures Housed(w, l) {
      PlaceAt(w, l);
      HousedIffAt(w, l);
    }
  }

  /** Every live leg is housed in every state of the run. */
  ghost predicate AlwaysHoused(w: World, events: seq<Event>)
    requires Inv(w)
    decreases |events|
  {
    AllHoused(w) && (events == [] || (StepInv(w, events[0]); AlwaysHoused(Step(w, events[0]), events[1..])))
  }

  lemma {:induction false} AlwaysHousedIffPrompt(w: World, events: seq<Event>)
    requires Inv(w) && NoStrays(w)
    ensures AlwaysHoused(w, events) <==> Prompt(w, events)
    decreases |events|
  {
    hide Placed, LiveOk, Step, Strands, AllHoused, NoStrays;
    NoStraysHoused(w);
    if events != [] {
      var e := events[0];
      StepInv(w, e);
      if Strands(w, e) {
        StrandedLeg(w, e);
        NextStranded(Step(w, e), w.next);
        HousedAtOnce(Step(w, e), events[1..]);
      } else {
        StrayFree(w, e);
        AlwaysHousedIffPrompt(Step(w, e), events[1..]);
      }
    }
  }

  lemma HousedAtOnce(w: World, events: seq<Event>)
    requires Inv(w)
    ensures AlwaysHoused(w, events) ==> AllHoused(w)
  {
    hide Inv, AllHoused;
  }

  lemma StrayFree(w: World, e: Event)
    requires Inv(w) && NoStrays(w) && !Strands(w, e)
    ensures Shaped(w) && NoStrays(Step(w, e))
  {
    hide Inv, Step, Strands;
    StepStray(w, e);
  }

  /** In every run: every live leg sits in exactly one place in every state of the run, if and only if no number dialled
      into a voice chat comes too late and no call is answered by a user whose lock is lost. */
  lemma EveryLegOnce(gateways: seq<Gateway>, events: seq<Event>)
    ensures Inv(Initial(gateways))
    ensures AlwaysHoused(Initial(gateways), events) <==> Prompt(Initial(gateways), events)
    ensures Prompt(Initial(gateways), events) ==> AllHoused(Run(Initial(gateways), events))
  {
    hide Prompt, AlwaysHoused, Placed, LiveOk, AllHoused, NoStrays;
    var w := Initial(gateways);
    InitialInv(gateways);
    InitialNoStrays(gateways);
    AlwaysHousedIffPrompt(w, events);
    if Prompt(w, events) {
      RunNoStrays(w, events);
      RunInv(w, events);
      NoStraysHoused(Run(w, events));
    }
  }

  lemma InitialNoStrays(gateways: seq<Gateway>)
    ensures NoStrays(Initial(gateways))
  {
  }

  /** What a step that strands a leg does. */
  lemma StrandedLeg(w: World, e: Event)
    requires Inv(w) && Strands(w, e)
    ensures Shaped(w)
    ensures var x := Step(w, e); w.next in x.live && w.next in x.place && x.place[w.next] == Stray
  {
    hide Inv, Slots, Reslot, CancelRing;
    InvShaped(w);
  }

  lemma NextStranded(w: World, l: Leg)
    requires Inv(w) && l in w.live && l in w.place && w.place[l] == Stray
    ensures !Housed(w, l) && !AllHoused(w) && forall s :: !At(w, l, s)
  {
    hide Inv, At;
    forall s | At(w, l, s) ensures false {
      AtPlace(w, l, s);
    }
  }

  /** A SIP call that a user answers gets a place if and only if the user's lock is free. */
  lemma AnsweredRingPlacedIffFree(w: World, i: nat, tg: Telegram)
    requires Inv(w) && i < |w.users| && w.users[i].attempt.Ring?
    ensures Shaped(w)
    ensures var x := Step(w, RingAnswer(i, tg, true));
            && w.next in x.live && ((exists s :: At(x, w.next, s)) <==> !w.users[i].stuck)
            && (w.next in x.connected <==> !w.users[i].stuck || w.next in w.connected)
  {
    hide Inv, Slots, Reslot;
    InvShaped(w);
    NextIsFree(w, i);
    var e := RingAnswer(i, tg, true);
    StepInv(w, e);
    if w.users[i].stuck {
      StrandedLeg(w, e);
      NextStranded(Step(w, e), w.next);
    } else {
      assert At(Step(w, e), w.next, ActiveOf(i));
    }
  }

  /** A number that is dialled into a voice chat has a place if and only if the chat it was dialled for still runs. */
  lemma DialInPlacedIffPrompt(w: World, i: nat, g: Gateway, session: nat)
    requires Inv(w) && i < |w.users|
    ensures Shaped(w)
    ensures var x := Step(w, GroupDialIn(i, g, session));
            w.next in x.live && ((exists s :: At(x, w.next, s)) <==> !LateDialIn(w, GroupDialIn(i, g, session)))
  {
    hide Placed, LiveOk, At, Put;
    InvShaped(w);
    var e := GroupDialIn(i, g, session);
    var x := Step(w, e);
    StepInv(w, e);
    DialInPlace(w, i, g, session);
    if LateDialIn(w, e) {
      if s :| At(x, w.next, s) {
        AtPlace(x, w.next, s);
      }
    } else {
      PlaceAt(x, w.next);
    }
  }

  lemma DialInPlace(w: World, i: nat, g: Gateway, session: nat)
    requires i < |w.users|
    ensures var x := DialIntoGroup(w, i, g, session);
            && w.next in x.live && w.next in x.place
            && x.place[w.next] == if g in w.groups && w.groups[g].number == session then Group(g) else Stray
  {
  }

  // ---- The slots ----

  /** In every reachable state: held and waiting are never both taken, a bridge exists exactly when there are an active
      leg and a Telegram call and joins those two, a Telegram call has an active leg, and a leg without a Telegram call
      has a reconnect in progress, or a user whose lock is lost. */
  lemma SlotsFit(gateways: seq<Gateway>, events: seq<Event>, i: nat)
    ensures Inv(Initial(gateways))
    ensures i < |Run(Initial(gateways), events).users| ==>
            var u := Run(Initial(gateways), events).users[i];
            && !(u.held.Some? && u.waiting.Some?)
            && (u.bridge.Some? <==> u.active.Some? && u.tg.Some?)
            && (u.bridge.Some? ==> u.bridge.value == Bridge(u.active.value, u.tg.value))
            && (u.tg.Some? ==> u.active.Some?)
            && (u.active.Some? || u.held.Some? || u.waiting.Some? ==> u.tg.Some? || u.attempt.Reconnect? || u.stuck)
  {
    hide Inv;
    InitialInv(gateways);
    RunInv(Initial(gateways), events);
    if i < |Run(Initial(gateways), events).users| {
      UserSound(Run(Initial(gateways), events), i);
      SoundMeans(Run(Initial(gateways), events).users[i]);
    }
  }

  lemma SoundMeans(u: User)
    requires Sound(u)
    ensures !(u.held.Some? && u.waiting.Some?)
    ensures u.active.Some? || u.held.Some? || u.waiting.Some? ==> u.tg.Some? || u.attempt.Reconnect? || u.stuck
    ensures u.bridge == (if u.tg.Some? && u.active.Some? then Some(Bridge(u.active.value, u.tg.value)) else None)
    ensures u.tg.Some? ==> u.active.Some?
  {
    if u.active.Some? {
      assert u.active.value in Slots(u);
    } else if u.held.Some? {
      assert u.held.value in Slots(u);
    } else if u.waiting.Some? {
      assert u.waiting.value in Slots(u);
    }
  }
}
