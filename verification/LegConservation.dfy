/** No leg is lost or owned twice: the inductive invariant of module CallWorld and what it says of every run. */
module LegConservation {
  import opened Options
  import opened CallControl
  import opened CallWorld

  // ---- The invariant ----

  predicate UsersOk(w: World) {
    Shaped(w) && forall i :: 0 <= i < |w.users| ==> Sound(w.users[i])
  }

  /** `place` says Slot(i) for exactly the legs in user i's slots. */
  ghost predicate SlotsOk(w: World) {
    && (forall i, l :: 0 <= i < |w.users| ==> (l in Slots(w.users[i]) <==> l in w.place && w.place[l] == Slot(i)))
    && (forall l :: l in w.place && w.place[l].Slot? ==> w.place[l].user < |w.users|)
  }

  ghost predicate GroupsOk(w: World) {
    forall g, l :: (g in w.groups && l in w.groups[g].legs) <==> (l in w.place && w.place[l] == Group(g))
  }

  predicate Joins(p: Pair, l: Leg) {
    l == p.one || l == p.other
  }

  ghost predicate BridgesOk(w: World) {
    && (forall k, l :: (k in w.bridges && Joins(w.bridges[k], l)) <==> (l in w.place && w.place[l] == Bridged(k)))
    && (forall k :: k in w.bridges ==> k < w.entries && w.bridges[k].one != w.bridges[k].other)
    && (forall l :: l in w.place && w.place[l].Bridged? ==> w.place[l].entry in w.bridges)
  }

  predicate LegsOk(w: World) {
    && (forall l :: l in w.place ==> l < w.next && l in w.owner)
    && (forall l :: l in w.place && w.place[l].Slot? ==> w.owner[l] == w.place[l].user)
    && (forall l :: l in w.owner ==> l < w.next)
    && (forall l :: l in w.live + w.connected ==> l in w.owner)
  }

  /** Every live leg is somewhere, but for `loose` ones in the middle of a step. */
  predicate LiveOk(w: World, loose: set<Leg>) {
    forall l :: l in w.live ==> l in loose || (l in w.place && w.place[l] != Nowhere)
  }

  ghost predicate Placed(w: World) {
    UsersOk(w) && SlotsOk(w) && GroupsOk(w) && BridgesOk(w) && LegsOk(w)
  }

  ghost predicate Inv(w: World) {
    Placed(w) && LiveOk(w, {})
  }

  // ---- A user changes ----

  /** The new legs a change may bring in: made for this user and not put anywhere yet. */
  predicate Novel(w: World, i: nat, novel: set<Leg>) {
    forall l :: l in novel ==> l !in w.place && l in w.owner && w.owner[l] == i
  }

  lemma ReslotSlots(w: World, i: nat, u: User, novel: set<Leg>)
    requires i < |w.users| && SlotsOk(w) && LegsOk(w) && Novel(w, i, novel) && Slots(u) <= Slots(w.users[i]) + novel
    ensures SlotsOk(w.(users := w.users[i := u], place := Reslot(w.place, i, Slots(u))))
  {
    hide Slots;
    var x := w.(users := w.users[i := u], place := Reslot(w.place, i, Slots(u)));
    forall j, l | 0 <= j < |x.users| ensures l in Slots(x.users[j]) <==> l in x.place && x.place[l] == Slot(j) {
      assert l in Slots(w.users[j]) <==> l in w.place && w.place[l] == Slot(j);
    }
  }

  lemma ReslotKeeps(w: World, i: nat, u: User, novel: set<Leg>, l: Leg, p: Place)
    requires i < |w.users| && SlotsOk(w) && Novel(w, i, novel) && Slots(u) <= Slots(w.users[i]) + novel
    requires !p.Slot? && p != Nowhere
    ensures var place := Reslot(w.place, i, Slots(u));
            (l in place && place[l] == p) <==> (l in w.place && w.place[l] == p)
  {
    hide Slots;
    assert l in Slots(w.users[i]) <==> l in w.place && w.place[l] == Slot(i);
  }

  lemma ReslotGroups(w: World, i: nat, u: User, novel: set<Leg>)
    requires i < |w.users| && SlotsOk(w) && GroupsOk(w) && Novel(w, i, novel) && Slots(u) <= Slots(w.users[i]) + novel
    ensures GroupsOk(w.(users := w.users[i := u], place := Reslot(w.place, i, Slots(u))))
  {
    hide Slots, Reslot, SlotsOk, Novel;
    var x := w.(users := w.users[i := u], place := Reslot(w.place, i, Slots(u)));
    forall g, l ensures (g in x.groups && l in x.groups[g].legs) <==> (l in x.place && x.place[l] == Group(g)) {
      ReslotKeeps(w, i, u, novel, l, Group(g));
      assert (g in w.groups && l in w.groups[g].legs) <==> (l in w.place && w.place[l] == Group(g));
    }
  }

  lemma ReslotBridges(w: World, i: nat, u: User, novel: set<Leg>)
    requires i < |w.users| && SlotsOk(w) && BridgesOk(w) && Novel(w, i, novel) && Slots(u) <= Slots(w.users[i]) + novel
    ensures BridgesOk(w.(users := w.users[i := u], place := Reslot(w.place, i, Slots(u))))
  {
    hide Slots, Reslot, SlotsOk, Novel, Joins;
    var x := w.(users := w.users[i := u], place := Reslot(w.place, i, Slots(u)));
    forall k, l ensures (k in x.bridges && Joins(x.bridges[k], l)) <==> (l in x.place && x.place[l] == Bridged(k)) {
      ReslotKeeps(w, i, u, novel, l, Bridged(k));
      assert (k in w.bridges && Joins(w.bridges[k], l)) <==> (l in w.place && w.place[l] == Bridged(k));
    }
    forall l | l in x.place && x.place[l].Bridged? ensures x.place[l].entry in x.bridges {
      ReslotKeeps(w, i, u, novel, l, x.place[l]);
    }
  }

  lemma ReslotLegs(w: World, i: nat, u: User, novel: set<Leg>)
    requires i < |w.users| && SlotsOk(w) && LegsOk(w) && Novel(w, i, novel) && Slots(u) <= Slots(w.users[i]) + novel
    ensures LegsOk(w.(users := w.users[i := u], place := Reslot(w.place, i, Slots(u))))
  {
    hide Slots;
    var x := w.(users := w.users[i := u], place := Reslot(w.place, i, Slots(u)));
    forall l | l in x.place ensures l < x.next && l in x.owner && (x.place[l].Slot? ==> x.owner[l] == x.place[l].user) {
      assert l in Slots(w.users[i]) <==> l in w.place && w.place[l] == Slot(i);
    }
  }

  lemma ReslotUsers(w: World, i: nat, u: User)
    requires i < |w.users| && UsersOk(w) && Sound(u)
    ensures UsersOk(w.(users := w.users[i := u]))
  {
    hide Sound;
  }

  /** A change of user i keeps the invariant, and leaves loose what lost its slot. */
  lemma ReslotPlaced(w: World, i: nat, u: User, novel: set<Leg>)
    requires Placed(w) && i < |w.users| && Novel(w, i, novel) && Sound(u) && Slots(u) <= Slots(w.users[i]) + novel
    ensures Placed(w.(users := w.users[i := u], place := Reslot(w.place, i, Slots(u))))
  {
    hide Slots, Sound, Reslot, SlotsOk, GroupsOk, BridgesOk, LegsOk, Novel, UsersOk;
    ReslotSlots(w, i, u, novel);
    ReslotGroups(w, i, u, novel);
    ReslotBridges(w, i, u, novel);
    ReslotLegs(w, i, u, novel);
    ReslotUsers(w, i, u);
    UsersFrame(w.(users := w.users[i := u]), w.(users := w.users[i := u], place := Reslot(w.place, i, Slots(u))));
  }

  lemma UsersFrame(w: World, x: World)
    requires UsersOk(w) && x.users == w.users && x.gateways == w.gateways
    ensures UsersOk(x)
  {
    hide Sound;
  }

  lemma ReslotLive(w: World, i: nat, u: User, loose: set<Leg>)
    requires i < |w.users| && SlotsOk(w) && LiveOk(w, loose)
    ensures LiveOk(w.(users := w.users[i := u], place := Reslot(w.place, i, Slots(u))),
                   (loose + Slots(w.users[i])) - Slots(u))
  {
    hide Slots;
  }

  /** Hanging up keeps everything else. */
  lemma KillPlaced(w: World, legs: set<Leg>)
    requires Placed(w)
    ensures Placed(Kill(w, legs))
    ensures forall loose :: LiveOk(w, loose) ==> LiveOk(Kill(w, legs), loose - legs)
  {
    hide Slots, Sound;
    LegsKill(w, legs);
  }

  lemma LegsKill(w: World, legs: set<Leg>)
    requires LegsOk(w)
    ensures LegsOk(Kill(w, legs))
  {
  }

  lemma ChangeInv(w: World, i: nat, u: User, novel: set<Leg>)
    requires Placed(w) && LiveOk(w, novel) && i < |w.users| && Novel(w, i, novel) && novel <= Slots(u)
    requires Sound(u) && Slots(u) <= Slots(w.users[i]) + novel
    ensures Inv(Change(w, i, u))
  {
    hide Slots, Sound, Reslot, Placed, LiveOk, Novel;
    var x := w.(users := w.users[i := u], place := Reslot(w.place, i, Slots(u)));
    var gone := Slots(w.users[i]) - Slots(u);
    ReslotPlaced(w, i, u, novel);
    PlacedSlots(w);
    ReslotLive(w, i, u, novel);
    assert (novel + Slots(w.users[i])) - Slots(u) == gone;
    KillPlaced(x, gone);
    assert gone - gone == {};
  }

  lemma PlacedSlots(w: World)
    requires Placed(w)
    ensures SlotsOk(w) && GroupsOk(w) && BridgesOk(w) && LegsOk(w) && UsersOk(w)
  {
  }

  /** A change without new legs. */
  lemma PlainChange(w: World, i: nat, u: User)
    requires Inv(w) && i < |w.users| && Sound(u) && Slots(u) <= Slots(w.users[i])
    ensures Inv(Change(w, i, u))
  {
    hide Slots, Sound, Placed, LiveOk;
    ChangeInv(w, i, u, {});
  }

  lemma NewLegPlaced(w: World, i: nat, connected: bool)
    requires Inv(w) && i < |w.users|
    ensures var x := NewLeg(w, i, connected);
            Placed(x) && LiveOk(x, {w.next}) && Novel(x, i, {w.next}) && w.next !in w.place
  {
    hide Slots, Sound;
    var x := NewLeg(w, i, connected);
    UsersFrame(w, x);
    NewLegLegs(w, i, connected);
  }

  lemma NewLegLegs(w: World, i: nat, connected: bool)
    requires LegsOk(w)
    ensures LegsOk(NewLeg(w, i, connected)) && w.next !in w.place
  {
  }

  /** A change that brings in one new leg. */
  lemma LegJoins(w: World, i: nat, u: User, connected: bool)
    requires Inv(w) && i < |w.users| && Sound(u) && w.next in Slots(u) && Slots(u) <= Slots(w.users[i]) + {w.next}
    ensures Inv(Change(NewLeg(w, i, connected), i, u))
  {
    hide Slots, Sound, Placed, LiveOk, Change, Novel;
    NewLegPlaced(w, i, connected);
    ChangeInv(NewLeg(w, i, connected), i, u, {w.next});
  }

  lemma InPlace(w: World, i: nat, l: Leg)
    requires SlotsOk(w) && i < |w.users| && l in Slots(w.users[i])
    ensures l in w.place && w.place[l] == Slot(i)
  {
    hide Slots;
  }

  lemma NextIsFree(w: World, i: nat)
    requires Inv(w) && i < |w.users|
    ensures w.next !in Slots(w.users[i])
  {
    hide Slots, Sound;
    if w.next in Slots(w.users[i]) {
      InPlace(w, i, w.next);
    }
  }

  // ---- Moves to a voice chat or a bridge ----

  /** Legs that are nowhere are put into chat g. */
  lemma GroupTakes(w: World, g: Gateway, legs: set<Leg>, loose: set<Leg>)
    requires Placed(w) && LiveOk(w, loose) && g in w.groups
    requires forall l :: l in legs ==> l in w.owner && (l in w.place ==> w.place[l] == Nowhere)
    ensures var x := w.(groups := w.groups[g := w.groups[g].(legs := w.groups[g].legs + legs)],
                        place := Put(w.place, legs, Group(g)));
            Placed(x) && LiveOk(x, loose - legs)
  {
    hide Slots, Sound, UsersOk, SlotsOk, GroupsOk, BridgesOk, LegsOk, LiveOk, Put;
    var x := w.(groups := w.groups[g := w.groups[g].(legs := w.groups[g].legs + legs)],
                place := Put(w.place, legs, Group(g)));
    UsersFrame(w, x);
    GroupTakesGroups(w, g, legs);
    PutLegs(w, x, legs, Group(g));
    PutSlots(w, x, legs, Group(g));
    PutBridges(w, x, legs, Group(g));
    PutLive(w, x, legs, Group(g), loose);
  }

  lemma GroupTakesGroups(w: World, g: Gateway, legs: set<Leg>)
    requires GroupsOk(w) && g in w.groups && forall l :: l in legs && l in w.place ==> w.place[l] == Nowhere
    ensures GroupsOk(w.(groups := w.groups[g := w.groups[g].(legs := w.groups[g].legs + legs)],
                        place := Put(w.place, legs, Group(g))))
  {
    var x := w.(groups := w.groups[g := w.groups[g].(legs := w.groups[g].legs + legs)],
                place := Put(w.place, legs, Group(g)));
    forall h, l ensures (h in x.groups && l in x.groups[h].legs) <==> (l in x.place && x.place[l] == Group(h)) {
      assert (h in w.groups && l in w.groups[h].legs) <==> (l in w.place && w.place[l] == Group(h));
    }
  }

  lemma PutLegs(w: World, x: World, legs: set<Leg>, p: Place)
    requires LegsOk(w) && !p.Slot? && forall l :: l in legs ==> l in w.owner
    requires x.place == Put(w.place, legs, p) && x.owner == w.owner && x.next == w.next && x.live == w.live
    requires x.connected == w.connected
    ensures LegsOk(x)
  {
  }

  lemma PutSlots(w: World, x: World, legs: set<Leg>, p: Place)
    requires SlotsOk(w) && !p.Slot? && forall l :: l in legs && l in w.place ==> !w.place[l].Slot?
    requires x.place == Put(w.place, legs, p) && x.users == w.users
    ensures SlotsOk(x)
  {
    hide Slots;
    forall i, l | 0 <= i < |x.users| ensures l in Slots(x.users[i]) <==> l in x.place && x.place[l] == Slot(i) {
      assert l in Slots(w.users[i]) <==> l in w.place && w.place[l] == Slot(i);
    }
  }

  lemma PutBridges(w: World, x: World, legs: set<Leg>, p: Place)
    requires BridgesOk(w) && !p.Bridged? && forall l :: l in legs && l in w.place ==> !w.place[l].Bridged?
    requires x.place == Put(w.place, legs, p) && x.bridges == w.bridges && x.entries == w.entries
    ensures BridgesOk(x)
  {
    hide Joins;
    forall k, l ensures (k in x.bridges && Joins(x.bridges[k], l)) <==> (l in x.place && x.place[l] == Bridged(k)) {
      assert (k in w.bridges && Joins(w.bridges[k], l)) <==> (l in w.place && w.place[l] == Bridged(k));
    }
  }

  lemma PutGroups(w: World, x: World, legs: set<Leg>, p: Place)
    requires GroupsOk(w) && !p.Group? && forall l :: l in legs && l in w.place ==> !w.place[l].Group?
    requires x.place == Put(w.place, legs, p) && x.groups == w.groups
    ensures GroupsOk(x)
  {
    forall g, l ensures (g in x.groups && l in x.groups[g].legs) <==> (l in x.place && x.place[l] == Group(g)) {
      assert (g in w.groups && l in w.groups[g].legs) <==> (l in w.place && w.place[l] == Group(g));
    }
  }

  lemma PutLive(w: World, x: World, legs: set<Leg>, p: Place, loose: set<Leg>)
    requires LiveOk(w, loose) && p != Nowhere && x.place == Put(w.place, legs, p) && x.live == w.live
    ensures LiveOk(x, loose - legs)
  {
  }

  /** Two legs that are nowhere are joined. */
  lemma BridgeTakes(w: World, p: Pair, loose: set<Leg>)
    requires Placed(w) && LiveOk(w, loose) && p.one != p.other
    requires forall l :: Joins(p, l) ==> l in w.owner && (l in w.place ==> w.place[l] == Nowhere)
    ensures var legs := {p.one, p.other};
            var x := w.(bridges := w.bridges[w.entries := p], entries := w.entries + 1,
                        place := Put(w.place, legs, Bridged(w.entries)));
            Placed(x) && LiveOk(x, loose - legs)
  {
    hide Slots, Sound, UsersOk, SlotsOk, GroupsOk, BridgesOk, LegsOk, LiveOk;
    var legs := {p.one, p.other};
    var x := w.(bridges := w.bridges[w.entries := p], entries := w.entries + 1,
                place := Put(w.place, legs, Bridged(w.entries)));
    UsersFrame(w, x);
    BridgeTakesBridges(w, p);
    PutLegs(w, x, legs, Bridged(w.entries));
    PutSlots(w, x, legs, Bridged(w.entries));
    PutGroups(w, x, legs, Bridged(w.entries));
    PutLive(w, x, legs, Bridged(w.entries), loose);
  }

  lemma BridgeTakesBridges(w: World, p: Pair)
    requires BridgesOk(w) && p.one != p.other && forall l :: Joins(p, l) && l in w.place ==> w.place[l] == Nowhere
    ensures BridgesOk(w.(bridges := w.bridges[w.entries := p], entries := w.entries + 1,
                         place := Put(w.place, {p.one, p.other}, Bridged(w.entries))))
  {
    var x := w.(bridges := w.bridges[w.entries := p], entries := w.entries + 1,
                place := Put(w.place, {p.one, p.other}, Bridged(w.entries)));
    forall k, l ensures (k in x.bridges && Joins(x.bridges[k], l)) <==> (l in x.place && x.place[l] == Bridged(k)) {
      assert (k in w.bridges && Joins(w.bridges[k], l)) <==> (l in w.place && w.place[l] == Bridged(k));
      assert l in w.place && w.place[l].Bridged? ==> w.place[l].entry < w.entries;
    }
  }

  lemma StrayTaken(w: World, legs: set<Leg>, loose: set<Leg>)
    requires Placed(w) && LiveOk(w, loose)
    requires forall l :: l in legs ==> l in w.owner && l !in w.place
    ensures var x := w.(place := Put(w.place, legs, Stray)); Placed(x) && LiveOk(x, loose - legs)
  {
    hide Slots, Sound, UsersOk, SlotsOk, GroupsOk, BridgesOk, LegsOk, LiveOk, Put;
    var x := w.(place := Put(w.place, legs, Stray));
    UsersFrame(w, x);
    PutLegs(w, x, legs, Stray);
    PutSlots(w, x, legs, Stray);
    PutGroups(w, x, legs, Stray);
    PutBridges(w, x, legs, Stray);
    PutLive(w, x, legs, Stray, loose);
  }

  // ---- Chats and bridges end ----

  /** The legs leave their chats and everyone else stays. */
  ghost predicate Parted(groups: map<Gateway, Session>, later: map<Gateway, Session>, legs: set<Leg>) {
    forall g, l :: (g in later && l in later[g].legs) <==> (g in groups && l in groups[g].legs && l !in legs)
  }

  lemma DropGroups(w: World, x: World, legs: set<Leg>)
    requires GroupsOk(w) && x.place == Put(w.place, legs, Nowhere)
    requires Parted(w.groups, x.groups, legs)
    ensures GroupsOk(x)
  {
    forall g, l ensures (g in x.groups && l in x.groups[g].legs) <==> (l in x.place && x.place[l] == Group(g)) {
      assert (g in w.groups && l in w.groups[g].legs) <==> (l in w.place && w.place[l] == Group(g));
    }
  }

  lemma DropLive(w: World, x: World, legs: set<Leg>)
    requires LiveOk(w, {}) && x.place == Put(w.place, legs, Nowhere) && x.live <= w.live - legs
    ensures LiveOk(x, {})
  {
  }

  lemma LegsShrink(w: World, x: World)
    requires LegsOk(w) && x.place == w.place && x.owner == w.owner && x.next == w.next && x.live <= w.live
    requires x.connected == w.connected
    ensures LegsOk(x)
  {
  }

  /** Legs of a chat, all of them dead by now, leave it. */
  lemma GroupDrops(w: World, x: World, legs: set<Leg>)
    requires Inv(w) && x == w.(live := x.live, groups := x.groups, place := Put(w.place, legs, Nowhere))
    requires x.live <= w.live - legs
    requires forall l :: l in legs ==> l in w.place && w.place[l].Group?
    requires Parted(w.groups, x.groups, legs)
    ensures Inv(x)
  {
    hide Slots, Sound, UsersOk, SlotsOk, GroupsOk, BridgesOk, LegsOk, LiveOk, Put, Parted;
    var y := w.(live := x.live);
    LegsShrink(w, y);
    UsersFrame(w, x);
    OwnersKnown(w, legs);
    PutLegs(y, x, legs, Nowhere);
    PutSlots(w, x, legs, Nowhere);
    PutBridges(w, x, legs, Nowhere);
    DropGroups(w, x, legs);
    DropLive(w, x, legs);
  }

  lemma OwnersKnown(w: World, legs: set<Leg>)
    requires LegsOk(w) && forall l :: l in legs ==> l in w.place
    ensures forall l :: l in legs ==> l in w.owner
  {
  }

  lemma InChatPlace(w: World, g: Gateway, l: Leg)
    requires GroupsOk(w) && g in w.groups && l in w.groups[g].legs
    ensures l in w.place && w.place[l] == Group(g)
    ensures forall h :: h in w.groups && l in w.groups[h].legs ==> h == g
  {
    forall h | h in w.groups && l in w.groups[h].legs ensures h == g {
      assert w.place[l] == Group(h);
    }
  }

  lemma EndGroupInv(w: World, g: Gateway)
    requires Inv(w)
    ensures Inv(EndGroup(w, g))
  {
    hide Slots, Sound, UsersOk, SlotsOk, BridgesOk, LegsOk, LiveOk, GroupsOk, Put;
    if g in w.groups {
      var x, legs := EndGroup(w, g), w.groups[g].legs;
      forall l | l in legs
          ensures l in w.place && w.place[l].Group? && forall h :: h in w.groups && l in w.groups[h].legs ==> h == g {
        InChatPlace(w, g, l);
      }
      GroupDrops(w, x, legs);
    }
  }

  lemma LegLeavesGroup(w: World, leg: Leg)
    requires Inv(w) && leg !in w.live && InGroup(w, leg)
    ensures Inv(w.(groups := WithoutLeg(w.groups, leg), place := Put(w.place, {leg}, Nowhere)))
  {
    hide Slots, Sound, UsersOk, SlotsOk, BridgesOk, LegsOk, LiveOk, GroupsOk, Put;
    var g :| g in w.groups && leg in w.groups[g].legs;
    InChatPlace(w, g, leg);
    GroupDrops(w, w.(groups := WithoutLeg(w.groups, leg), place := Put(w.place, {leg}, Nowhere)), {leg});
  }

  lemma DropBridges(w: World, k: nat)
    requires BridgesOk(w) && k in w.bridges
    ensures var legs := {w.bridges[k].one, w.bridges[k].other};
            BridgesOk(Kill(w, legs).(bridges := w.bridges - {k}, place := Put(w.place, legs, Nowhere)))
    ensures forall l :: Joins(w.bridges[k], l) ==> l in w.place && w.place[l] == Bridged(k)
  {
    hide Joins;
    var legs := {w.bridges[k].one, w.bridges[k].other};
    var x := Kill(w, legs).(bridges := w.bridges - {k}, place := Put(w.place, legs, Nowhere));
    forall l ensures l in legs <==> Joins(w.bridges[k], l) {
      JoinsEither(w.bridges[k], l);
    }
    forall j, l ensures (j in x.bridges && Joins(x.bridges[j], l)) <==> (l in x.place && x.place[l] == Bridged(j)) {
      assert (j in w.bridges && Joins(w.bridges[j], l)) <==> (l in w.place && w.place[l] == Bridged(j));
      assert (k in w.bridges && Joins(w.bridges[k], l)) <==> (l in w.place && w.place[l] == Bridged(k));
    }
  }

  lemma JoinsEither(p: Pair, l: Leg)
    ensures l in {p.one, p.other} <==> Joins(p, l)
  {
  }

  lemma EndBridgeInv(w: World, k: nat)
    requires Inv(w)
    ensures Inv(EndBridge(w, k))
  {
    hide Slots, Sound, UsersOk, SlotsOk, GroupsOk, BridgesOk, LegsOk, LiveOk, Put;
    var x := EndBridge(w, k);
    if x != w {
      var legs := {w.bridges[k].one, w.bridges[k].other};
      DropBridges(w, k);
      var y := w.(live := x.live);
      LegsShrink(w, y);
      UsersFrame(w, x);
      OwnersKnown(w, legs);
      PutLegs(y, x, legs, Nowhere);
      PutSlots(w, x, legs, Nowhere);
      PutGroups(w, x, legs, Nowhere);
      DropLive(w, x, legs);
    }
  }

  // ---- The handlers ----

  /** Changes to the attempts only. */
  lemma AttemptsInv(w: World, users: seq<User>)
    requires Inv(w) && |users| == |w.users|
    requires forall i :: 0 <= i < |users| ==> Sound(users[i]) && Slots(users[i]) == Slots(w.users[i])
    ensures Inv(w.(users := users))
  {
    hide Slots, Sound;
    var x := w.(users := users);
    forall i, l | 0 <= i < |x.users| ensures l in Slots(x.users[i]) <==> l in x.place && x.place[l] == Slot(i) {
      assert l in Slots(w.users[i]) <==> l in w.place && w.place[l] == Slot(i);
    }
  }

  lemma AttemptSound(u: User, a: Attempt)
    requires Sound(u) && !a.Reconnect? && (u.attempt.Ring? || u.attempt == Outgoing || !Busy(u))
    ensures Sound(u.(attempt := a)) && Slots(u.(attempt := a)) == Slots(u)
  {
  }

  lemma UserSound(w: World, i: nat)
    requires Inv(w) && i < |w.users|
    ensures Sound(w.users[i])
  {
    hide Sound;
  }

  lemma StartRingInv(w: World, call: nat, users: set<nat>)
    requires Inv(w)
    ensures Inv(StartRing(w, call, users))
  {
    hide Inv, Sound, Slots;
    var x := StartRing(w, call, users);
    forall i | 0 <= i < |w.users| ensures Sound(x.users[i]) && Slots(x.users[i]) == Slots(w.users[i]) {
      UserSound(w, i);
      if !Busy(w.users[i]) {
        AttemptSound(w.users[i], Ring(call));
      }
    }
    AttemptsInv(w, x.users);
  }

  lemma CancelRingInv(w: World, call: nat, winner: Option<nat>)
    requires Inv(w)
    ensures Inv(w.(users := CancelRing(w.users, call, winner)))
  {
    hide Inv, Sound, Slots;
    var users := CancelRing(w.users, call, winner);
    forall i | 0 <= i < |w.users| ensures Sound(users[i]) && Slots(users[i]) == Slots(w.users[i]) {
      UserSound(w, i);
      if w.users[i].attempt == Ring(call) {
        AttemptSound(w.users[i], Idle);
      }
    }
    AttemptsInv(w, users);
  }

  lemma SetInv(w: World, i: nat, a: Attempt)
    requires Inv(w) && i < |w.users| && !a.Reconnect?
    requires w.users[i].attempt.Ring? || w.users[i].attempt == Outgoing || !Busy(w.users[i])
    ensures Inv(Set(w, i, w.users[i].(attempt := a)))
  {
    hide Inv, Sound, Slots;
    UserSound(w, i);
    AttemptSound(w.users[i], a);
    forall j | 0 <= j < |w.users| ensures Sound(w.users[j]) {
      UserSound(w, j);
    }
    AttemptsInv(w, w.users[i := w.users[i].(attempt := a)]);
  }

  lemma KillInv(w: World, legs: set<Leg>)
    requires Inv(w)
    ensures Inv(Kill(w, legs))
  {
    hide Placed, LiveOk;
    KillPlaced(w, legs);
    assert {} - legs == {};
  }

  lemma AnswerRingInv(w: World, i: nat, tg: Telegram, present: bool)
    requires Inv(w) && i < |w.users|
    ensures Inv(AnswerRing(w, i, tg, present))
  {
    hide Inv, Sound, Slots, Change, NewLeg, RingWon, Strand;
    var u := w.users[i];
    if u.attempt.Ring? {
      var x := w.(users := CancelRing(w.users, u.attempt.call, Some(i)));
      CancelRingInv(w, u.attempt.call, Some(i));
      UserSound(w, i);
      NextIsFree(w, i);
      AttemptSound(u, Idle);
      if !present {
        PlainChange(x, i, u.(attempt := Idle));
      } else if u.stuck {
        PlainChange(x, i, u.(attempt := Idle));
        ChangeShape(x, i, u.(attempt := Idle));
        StrandInv(Change(x, i, u.(attempt := Idle)), i, false);
      } else {
        RingSound(u, tg, x.next);
        RingTakes(u, tg, x.next);
        LegJoins(x, i, RingWon(u, tg, x.next), true);
      }
    }
  }

  lemma StrandInv(w: World, i: nat, connected: bool)
    requires Inv(w) && i < |w.users|
    ensures Inv(Strand(w, i, connected))
  {
    hide Sound, Slots, Placed, LiveOk, Put, NewLeg;
    NewLegPlaced(w, i, connected);
    NewLegShape(w, i, connected);
    assert {w.next} - {w.next} == {};
    StrayTaken(NewLeg(w, i, connected), {w.next}, {w.next});
  }

  lemma RingTakes(u: User, tg: Telegram, leg: Leg)
    ensures leg in Slots(RingWon(u, tg, leg))
  {
  }

  lemma OfferInv(w: World, i: nat)
    requires Inv(w) && i < |w.users|
    ensures Inv(OfferWaiting(w, i))
  {
    hide Inv, Sound, Slots, Change, NewLeg;
    var u := w.users[i];
    if MayWait(u) {
      UserSound(w, i);
      NextIsFree(w, i);
      OfferSound(u, w.next);
      LegJoins(w, i, u.(waiting := Some(w.next)), false);
    }
  }

  lemma OfferSound(u: User, leg: Leg)
    requires Sound(u) && MayWait(u) && leg !in Slots(u)
    ensures Sound(u.(waiting := Some(leg))) && Slots(u.(waiting := Some(leg))) == Slots(u) + {leg}
  {
  }

  lemma AnswerOutgoingInv(w: World, i: nat, tg: Telegram, invited: bool)
    requires Inv(w) && i < |w.users|
    ensures Inv(AnswerOutgoing(w, i, tg, invited))
  {
    hide Inv, Sound, Slots, Change, NewLeg, OutgoingAnswered;
    var u := w.users[i];
    if u.attempt == Outgoing {
      UserSound(w, i);
      NextIsFree(w, i);
      if invited && !u.stuck {
        OutgoingSound(u, tg, Some(w.next));
        OutgoingTakes(u, tg, w.next);
        LegJoins(w, i, OutgoingAnswered(u, tg, Some(w.next)), false);
      } else {
        OutgoingSound(u, tg, None);
        PlainChange(w, i, OutgoingAnswered(u, tg, None));
      }
    }
  }

  lemma OutgoingTakes(u: User, tg: Telegram, leg: Leg)
    ensures !u.stuck ==> leg in Slots(OutgoingAnswered(u, tg, Some(leg)))
  {
  }

  lemma DialConsultInv(w: World, i: nat, invited: bool)
    requires Inv(w) && i < |w.users|
    ensures Inv(DialConsult(w, i, invited))
  {
    hide Inv, Sound, Slots, Change, NewLeg, Consult, MayConsult;
    var u := w.users[i];
    if MayConsult(u) {
      UserSound(w, i);
      NextIsFree(w, i);
      if invited {
        ConsultSound(u, Some(w.next));
        LegJoins(w, i, Consult(u, Some(w.next)), false);
      } else {
        ConsultSound(u, None);
        PlainChange(w, i, Consult(u, None));
      }
    }
  }

  lemma ChangeShape(w: World, i: nat, u: User)
    requires i < |w.users|
    ensures Change(w, i, u).users == w.users[i := u]
  {
    hide Slots, Reslot;
  }

  lemma ConnectedInv(w: World, connected: set<Leg>)
    requires Inv(w) && connected <= w.connected + w.live
    ensures Inv(w.(connected := connected))
  {
    hide Slots, Sound;
  }

  lemma EndLegInv(w: World, leg: Leg)
    requires Inv(w)
    ensures Inv(EndLeg(w, leg))
  {
    hide Inv, Sound, Slots, Change, LegEnded, InGroup;
    if leg in w.live || leg !in w.owner {
    } else if InGroup(w, leg) {
      LegLeavesGroup(w, leg);
    } else if w.owner[leg] < |w.users| {
      var i := w.owner[leg];
      UserSound(w, i);
      LegEndedSound(w.users[i], leg);
      var x := Change(w, i, LegEnded(w.users[i], leg));
      PlainChange(w, i, LegEnded(w.users[i], leg));
      ChangeShape(w, i, LegEnded(w.users[i], leg));
      ConnectedInv(x, x.connected + Answered(w.users[i], x.users[i], x.live));
    }
  }

  lemma EndTelegramInv(w: World, i: nat, tg: Telegram, retry: bool)
    requires Inv(w) && i < |w.users|
    ensures Inv(EndTelegram(w, i, tg, retry))
  {
    hide Inv, Sound, Slots, Change, TgEnded;
    var u := w.users[i];
    var resumable := retry && u.active.Some? && u.active.value in w.live && u.active.value in w.connected;
    UserSound(w, i);
    TgEndedSound(u, tg, resumable);
    PlainChange(w, i, TgEnded(u, tg, resumable));
  }

  lemma ReconnectInv(w: World, i: nat, tg: Telegram)
    requires Inv(w) && i < |w.users|
    ensures Inv(WinReconnect(w, i, tg))
    ensures w.users[i].attempt.Reconnect? ==> Inv(Change(w, i, ReconnectFailed(w.users[i])))
  {
    hide Inv, Sound, Slots, Change, ReconnectWon, ReconnectFailed;
    var u := w.users[i];
    if u.attempt.Reconnect? {
      UserSound(w, i);
      ReconnectSound(u, tg, u.attempt.leg in w.live);
      PlainChange(w, i, ReconnectWon(u, tg, u.attempt.leg in w.live));
      PlainChange(w, i, ReconnectFailed(u));
    }
  }

  lemma HangUpInv(w: World, i: nat)
    requires Inv(w) && i < |w.users| == |w.gateways|
    ensures Inv(HangUp(w, i))
  {
    hide Inv, Sound, Slots, Change, EndEverything, Kill;
    var u := w.users[i];
    UserSound(w, i);
    EndSound(u);
    PlainChange(w, i, EndEverything(u));
    if u.active.Some? {
      KillInv(w, {u.active.value});
    }
    if w.gateways[i] in w.groups {
      KillInv(w, set l | l in w.groups[w.gateways[i]].legs && l in w.owner && w.owner[l] == i);
    }
  }

  lemma SwitchInv(w: World, i: nat)
    requires Inv(w) && i < |w.users|
    ensures Inv(DoSwitch(w, i))
  {
    hide Inv, Sound, Slots, Change, Switch;
    var u := w.users[i];
    UserSound(w, i);
    SwitchSound(u);
    PlainChange(w, i, Switch(u));
    var x := Change(w, i, Switch(u));
    ChangeShape(w, i, Switch(u));
    ConnectedInv(x, x.connected + Answered(u, x.users[i], x.live));
  }

  lemma TransferInv(w: World, i: nat)
    requires Inv(w) && i < |w.users|
    ensures Inv(DoTransfer(w, i))
  {
    hide Sound, Slots, UsersOk, SlotsOk, GroupsOk, BridgesOk, LegsOk, Reslot;
    var u := w.users[i];
    var connected := u.active.Some? && u.active.value in w.live && u.active.value in w.connected;
    if MayTransfer(u, connected) {
      var p := Pair(u.active.value, u.held.value);
      var x := w.(users := w.users[i := Transferred(u)], place := Reslot(w.place, i, Slots(Transferred(u))));
      UserSound(w, i);
      TransferSound(u, connected);
      TransferSlots(u);
      ReslotPlaced(w, i, Transferred(u), {});
      ReslotLive(w, i, Transferred(u), {});
      ReslotLoose(w, i, Transferred(u), {});
      BridgeTakes(x, p, Slots(u));
      assert ({} + Slots(u)) - {} == Slots(u);
      assert Slots(u) - {p.one, p.other} == {};
    }
  }

  lemma TransferSlots(u: User)
    requires Sound(u) && u.active.Some? && u.held.Some?
    ensures Slots(u) == {u.active.value, u.held.value} && Slots(Transferred(u)) == {}
  {
  }

  /** What lost its slot is nowhere, and has an owner. */
  lemma ReslotLoose(w: World, i: nat, u: User, novel: set<Leg>)
    requires i < |w.users| && SlotsOk(w) && LegsOk(w)
    ensures var place := Reslot(w.place, i, Slots(u));
            forall l :: l in Slots(w.users[i]) - Slots(u) ==> l in w.owner && l in place && place[l] == Nowhere
  {
    hide Slots;
    forall l | l in Slots(w.users[i]) - Slots(u) ensures l in w.place && w.place[l] == Slot(i) {
      InPlace(w, i, l);
    }
  }

  lemma ChatOpens(w: World, g: Gateway)
    requires Inv(w) && g !in w.groups
    ensures Inv(w.(groups := w.groups[g := Session(w.sessions, {})], sessions := w.sessions + 1))
  {
    hide Slots, Sound, SlotsOk, BridgesOk, LegsOk, LiveOk;
    var x := w.(groups := w.groups[g := Session(w.sessions, {})], sessions := w.sessions + 1);
    UsersFrame(w, x);
    Framed(w, x);
    forall h, l ensures (h in x.groups && l in x.groups[h].legs) <==> (l in x.place && x.place[l] == Group(h)) {
      assert (h in w.groups && l in w.groups[h].legs) <==> (l in w.place && w.place[l] == Group(h));
    }
  }

  /** Fields a predicate does not look at. */
  lemma Framed(w: World, x: World)
    requires x.place == w.place && x.users == w.users && x.bridges == w.bridges && x.entries == w.entries
    requires x.owner == w.owner && x.next == w.next && x.live == w.live && x.connected == w.connected
    ensures SlotsOk(w) ==> SlotsOk(x)
    ensures BridgesOk(w) ==> BridgesOk(x)
    ensures LegsOk(w) ==> LegsOk(x)
    ensures forall loose :: LiveOk(w, loose) ==> LiveOk(x, loose)
  {
    hide Slots, Joins;
  }

  lemma MoveToGroupInv(w: World, i: nat)
    requires Inv(w) && i < |w.users| == |w.gateways|
    ensures Inv(MoveToGroup(w, i))
  {
    hide Inv, Sound, Slots, Movable, MovedOut, Reslot, Put;
    var g := w.gateways[i];
    var x := if g in w.groups then w
        else w.(groups := w.groups[g := Session(w.sessions, {})], sessions := w.sessions + 1);
    if g !in w.groups {
      ChatOpens(w, g);
    }
    UserSound(x, i);
    JoinChat(x, i, g);
  }

  lemma JoinChat(w: World, i: nat, g: Gateway)
    requires Inv(w) && i < |w.users| && g in w.groups && Sound(w.users[i])
    ensures Inv(JoinGroup(Change(w, i, MovedOut(w.users[i], w.live)), g, Movable(w.users[i], w.live)))
  {
    hide Sound, Slots, UsersOk, SlotsOk, GroupsOk, BridgesOk, LegsOk, LiveOk, Movable, MovedOut, Reslot, Put;
    var u := w.users[i];
    var v, moved := MovedOut(u, w.live), Movable(u, w.live);
    MoveSound(u, w.live);
    var x := w.(users := w.users[i := v], place := Reslot(w.place, i, Slots(v)));
    var gone := Slots(u) - Slots(v);
    ReslotPlaced(w, i, v, {});
    ReslotLive(w, i, v, {});
    assert ({} + Slots(u)) - Slots(v) == gone;
    ReslotLoose(w, i, v, {});
    KillPlaced(x, gone - moved);
    assert gone - (gone - moved) == moved;
    var y := Kill(x, gone - moved);
    assert y.live == (w.live - gone) + moved;
    GroupTakes(y, g, moved, moved);
    assert moved - moved == {};
  }

  lemma DialIntoGroupInv(w: World, i: nat, g: Gateway, session: nat)
    requires Inv(w) && i < |w.users|
    ensures Inv(DialIntoGroup(w, i, g, session))
  {
    hide Sound, Slots, Placed, LiveOk, Put, NewLeg, Strand;
    var x := NewLeg(w, i, true);
    NewLegPlaced(w, i, true);
    NewLegShape(w, i, true);
    assert {w.next} - {w.next} == {};
    if g in w.groups && w.groups[g].number == session {
      GroupTakes(x, g, {w.next}, {w.next});
    } else {
      StrandInv(w, i, true);
    }
  }

  lemma NewLegShape(w: World, i: nat, connected: bool)
    ensures var x := NewLeg(w, i, connected); x.groups == w.groups && w.next in x.owner && x.place == w.place
  {
  }

  // ---- Steps and runs ----

  lemma DialStepInv(w: World, i: nat, e: Event)
    requires Inv(w) && i < |w.users| && Dialling(e)
    ensures Inv(DialStep(w, i, e))
  {
    hide Inv, AnswerRing, Set, OfferWaiting, AnswerOutgoing, WinReconnect, Change, ReconnectFailed;
    match e {
      case RingAnswer(_, tg, present) => AnswerRingInv(w, i, tg, present);
      case RingFail(_) =>
        if w.users[i].attempt.Ring? {
          SetInv(w, i, Idle);
        }
      case Offer(_) => OfferInv(w, i);
      case OutgoingStart(_) =>
        if !Busy(w.users[i]) {
          SetInv(w, i, Outgoing);
        }
      case OutgoingAnswer(_, tg, invited) => AnswerOutgoingInv(w, i, tg, invited);
      case OutgoingFail(_) =>
        if w.users[i].attempt == Outgoing {
          SetInv(w, i, Idle);
        }
      case ReconnectAnswer(_, tg) => ReconnectInv(w, i, tg);
      case ReconnectFail(_) => ReconnectInv(w, i, 0);
    }
  }

  lemma CommandStepInv(w: World, i: nat, e: Event)
    requires Inv(w) && Shaped(w) && i < |w.users| && ForUser(e) && !Dialling(e)
    ensures Inv(CommandStep(w, i, e))
  {
    hide Inv, DialConsult, EndTelegram, HangUp, DoSwitch, DoTransfer, Kill, MoveToGroup, DialIntoGroup;
    match e {
      case ConsultDial(_, invited) => DialConsultInv(w, i, invited);
      case TelegramGone(_, tg, retry) => EndTelegramInv(w, i, tg, retry);
      case Hangup(_) => HangUpInv(w, i);
      case SwitchLegs(_) => SwitchInv(w, i);
      case Transfer(_) => TransferInv(w, i);
      case Decline(_) =>
        if w.users[i].waiting.Some? {
          KillInv(w, {w.users[i].waiting.value});
        }
      case ToGroup(_) => MoveToGroupInv(w, i);
      case GroupDialIn(_, g, session) => DialIntoGroupInv(w, i, g, session);
    }
  }

  lemma UserStepInv(w: World, i: nat, e: Event)
    requires Inv(w) && Shaped(w) && i < |w.users| && ForUser(e)
    ensures Inv(UserStep(w, i, e))
  {
    hide Inv, DialStep, CommandStep;
    if Dialling(e) {
      DialStepInv(w, i, e);
    } else {
      CommandStepInv(w, i, e);
    }
  }

  lemma StepInv(w: World, e: Event)
    requires Inv(w)
    ensures Shaped(w) && Inv(Step(w, e))
  {
    hide Placed, LiveOk, StartRing, CancelRing, Kill, EndLeg, EndGroup, EndBridge, UserStep;
    InvShaped(w);
    match e {
      case RingStart(call, users) => StartRingInv(w, call, users);
      case CallerGone(call) => CancelRingInv(w, call, None);
      case Connects(leg) =>
        if leg in w.live {
          ConnectedInv(w, w.connected + {leg});
        }
      case Dies(leg) => KillInv(w, {leg});
      case LegGone(leg) => EndLegInv(w, leg);
      case LeaveGroup(g) => EndGroupInv(w, g);
      case BridgeGone(k) => EndBridgeInv(w, k);
      case _ =>
        if e.user < |w.users| {
          UserStepInv(w, e.user, e);
        }
    }
  }

  lemma InvShaped(w: World)
    requires Inv(w)
    ensures Shaped(w)
  {
  }

  lemma InitialInv(gateways: seq<Gateway>)
    ensures Inv(Initial(gateways))
  {
  }

  ghost function Run(w: World, events: seq<Event>): World
    requires Inv(w)
    decreases |events|
  {
    if events == [] then w
    else
      StepInv(w, events[0]);
      Run(Step(w, events[0]), events[1..])
  }

  /** The invariant holds at the end of every run. */
  lemma {:induction false} RunInv(w: World, events: seq<Event>)
    requires Inv(w)
    ensures Inv(Run(w, events))
    decreases |events|
  {
    hide Inv, Step;
    if events != [] {
      StepInv(w, events[0]);
      RunInv(Step(w, events[0]), events[1..]);
    }
  }
}
