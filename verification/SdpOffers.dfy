/** Offer and answer (sipgram/sip/sdp.py:44-61, 158-204; section 6.1 of RFC 3264). */
module SdpOffers {
  import opened Options
  import opened Text
  import opened SdpText
  import opened SdpRoundTrip

  const EVENT := "telephone-event"

  predicate Named(c: Codec, name: string) {
    Upper(c.name) == Upper(name)
  }

  predicate Fits(c: Codec, name: string, rate: Option<nat>) {
    Named(c, name) && (rate.None? || c.rate == rate.value)
  }

  /** `Sdp.codec`: the first codec of that name, and of that rate if one is given. */
  function FindCodec(codecs: seq<Codec>, name: string, rate: Option<nat>): (c: Option<Codec>)
    ensures c.Some? ==> c.value in codecs && Fits(c.value, name, rate)
    ensures c.None? ==> forall i :: 0 <= i < |codecs| ==> !Fits(codecs[i], name, rate)
  {
    if codecs == [] then None
    else if Fits(codecs[0], name, rate) then Some(codecs[0])
    else FindCodec(codecs[1..], name, rate)
  }

  method LookUp(codecs: seq<Codec>, name: string, rate: Option<nat>) returns (c: Option<Codec>)
    ensures c == FindCodec(codecs, name, rate)
  {
    hide Fits;
    assert codecs[0..] == codecs;
    for i := 0 to |codecs|
      invariant FindCodec(codecs, name, rate) == FindCodec(codecs[i..], name, rate)
    {
      assert codecs[i..][1..] == codecs[i + 1..];
      if Fits(codecs[i], name, rate) {
        return Some(codecs[i]);
      }
    }
    return None;
  }

  /** `dtmf_pt_for` */
  function DtmfTypeFor(s: Sdp, rate: nat): Option<nat> {
    var exact := FindCodec(s.codecs, EVENT, Some(rate));
    var any := FindCodec(s.codecs, EVENT, None);
    if exact.Some? then Some(exact.value.pt) else if any.Some? then Some(any.value.pt) else None
  }

  // ---- The offer ----

  /** dict.fromkeys over the clock rates. */
  function Rates(codecs: seq<Codec>): (rates: seq<nat>)
    ensures forall i, j :: 0 <= i < j < |rates| ==> rates[i] != rates[j]
    ensures forall r :: r in rates <==> exists i :: 0 <= i < |codecs| && codecs[i].rate == r
    decreases |codecs|
  {
    if codecs == [] then []
    else
      var front, last := Rates(codecs[..|codecs| - 1]), codecs[|codecs| - 1].rate;
      assert forall i :: 0 <= i < |codecs| - 1 ==> codecs[..|codecs| - 1][i] == codecs[i];
      if last in front then front else front + [last]
  }

  /** The first payload type from `pt` on that is not taken. */
  function FreeType(used: set<nat>, pt: nat): (free: nat)
    ensures free >= pt && free !in used && forall x :: pt <= x < free ==> x in used
    decreases |used|
  {
    if pt in used then
      var free := FreeType(used - {pt}, pt + 1);
      assert forall x :: pt <= x < free ==> x in used by {
        forall x | pt < x < free ensures x in used {
          assert x in used - {pt};
        }
      }
      free
    else pt
  }

  function Used(codecs: seq<Codec>): set<nat> {
    set i | 0 <= i < |codecs| :: codecs[i].pt
  }

  function EventCodec(pt: nat, rate: nat): Codec {
    Codec(pt, EVENT, rate, 1, "0-16")
  }

  /** One telephone-event for every rate that has none yet. */
  function AddEvents(codecs: seq<Codec>, rates: seq<nat>, pt: nat): seq<Codec>
    decreases |rates|
  {
    if rates == [] then codecs
    else if FindCodec(codecs, EVENT, Some(rates[0])).Some? then AddEvents(codecs, rates[1..], pt)
    else
      var free := FreeType(Used(codecs), pt);
      AddEvents(codecs + [EventCodec(free, rates[0])], rates[1..], free)
  }

  /** `local_offer` */
  function LocalOffer(ip: string, port: int, codecs: seq<Codec>, dtmf: Option<nat>): Sdp {
    BLANK.(originIp := ip, connIp := ip, port := port, ptime := Some(20),
           codecs := if dtmf.None? then codecs else AddEvents(codecs, Rates(codecs), dtmf.value))
  }

  method Offer(ip: string, port: int, codecs: seq<Codec>, dtmf: Option<nat>) returns (offer: Sdp)
    ensures offer == LocalOffer(ip, port, codecs, dtmf)
  {
    hide FindCodec, Used;
    offer := BLANK.(originIp := ip, connIp := ip, port := port, ptime := Some(20), codecs := codecs);
    if dtmf.None? {
      return;
    }
    var rates := Rates(codecs);
    var all := codecs;
    var pt := dtmf.value;
    assert rates[0..] == rates;
    for i := 0 to |rates|
      invariant AddEvents(codecs, rates, dtmf.value) == AddEvents(all, rates[i..], pt)
    {
      assert rates[i..][1..] == rates[i + 1..];
      var present := LookUp(all, EVENT, Some(rates[i]));
      if present.None? {
        pt := NextFree(Used(all), pt);
        all := all + [EventCodec(pt, rates[i])];
      }
    }
    offer := offer.(codecs := all);
  }

  /** `while pt in used: pt += 1` */
  method NextFree(used: set<nat>, start: nat) returns (pt: nat)
    ensures pt == FreeType(used, start)
  {
    pt := start;
    ghost var ahead := used;
    while pt in used
      invariant pt >= start && FreeType(used, start) == FreeType(ahead, pt)
      invariant ahead <= used && forall x :: x in used && x >= pt ==> x in ahead
      decreases |ahead|
    {
      ahead := ahead - {pt};
      pt := pt + 1;
    }
    assert pt !in ahead;
  }

  lemma {:induction false} AddEventsDistinct(codecs: seq<Codec>, rates: seq<nat>, pt: nat)
    requires DistinctTypes(codecs)
    ensures DistinctTypes(AddEvents(codecs, rates, pt)) && codecs <= AddEvents(codecs, rates, pt)
    ensures forall i :: |codecs| <= i < |AddEvents(codecs, rates, pt)| ==>
              var c := AddEvents(codecs, rates, pt)[i];
              c.rate in rates && c == EventCodec(c.pt, c.rate)
    decreases |rates|
  {
    hide FindCodec, EventCodec;
    if rates != [] {
      if FindCodec(codecs, EVENT, Some(rates[0])).Some? {
        AddEventsDistinct(codecs, rates[1..], pt);
      } else {
        var free := FreeType(Used(codecs), pt);
        var more := codecs + [EventCodec(free, rates[0])];
        EventFields(free, rates[0]);
        MoreDistinct(codecs, EventCodec(free, rates[0]));
        AddEventsDistinct(more, rates[1..], free);
        assert more[|codecs|] == EventCodec(free, rates[0]);
      }
    }
  }

  lemma EventFields(pt: nat, rate: nat)
    ensures EventCodec(pt, rate).pt == pt && EventCodec(pt, rate).rate == rate
    ensures Fits(EventCodec(pt, rate), EVENT, Some(rate))
    ensures EventCodec(pt, rate).name == EVENT
  {
  }

  lemma MoreDistinct(codecs: seq<Codec>, c: Codec)
    requires DistinctTypes(codecs) && c.pt !in Used(codecs)
    ensures DistinctTypes(codecs + [c])
  {
  }

  /** How many telephone-events run at the rate. */
  function EventsAt(codecs: seq<Codec>, rate: nat): nat
    decreases |codecs|
  {
    if codecs == [] then 0
    else EventsAt(codecs[..|codecs| - 1], rate) + if Fits(codecs[|codecs| - 1], EVENT, Some(rate)) then 1 else 0
  }

  lemma EventsSnoc(codecs: seq<Codec>, c: Codec, rate: nat)
    ensures EventsAt(codecs + [c], rate) == EventsAt(codecs, rate) + if Fits(c, EVENT, Some(rate)) then 1 else 0
  {
    assert (codecs + [c])[..|codecs|] == codecs;
  }

  lemma {:induction false} FoundIffCounted(codecs: seq<Codec>, rate: nat)
    ensures FindCodec(codecs, EVENT, Some(rate)).Some? <==> EventsAt(codecs, rate) > 0
    decreases |codecs|
  {
    hide Fits;
    if codecs != [] {
      FoundIffCounted(codecs[..|codecs| - 1], rate);
      var front, last := codecs[..|codecs| - 1], codecs[|codecs| - 1];
      assert codecs == front + [last];
      var found, before := FindCodec(codecs, EVENT, Some(rate)), FindCodec(front, EVENT, Some(rate));
      if before.Some? {
        var i :| 0 <= i < |front| && front[i] == before.value;
        assert codecs[i] == before.value;
      }
      if found.Some? {
        var i :| 0 <= i < |codecs| && codecs[i] == found.value;
        if i < |front| {
          assert front[i] == codecs[i];
        }
      }
    }
  }

  /** Adding events brings the count of every listed rate to one, and changes no other. */
  lemma {:induction false} AddEventsCounts(codecs: seq<Codec>, rates: seq<nat>, pt: nat, rate: nat)
    requires forall i, j :: 0 <= i < j < |rates| ==> rates[i] != rates[j]
    ensures EventsAt(AddEvents(codecs, rates, pt), rate)
            == if rate in rates && EventsAt(codecs, rate) == 0 then 1 else EventsAt(codecs, rate)
    decreases |rates|
  {
    hide FindCodec, EventCodec, Fits;
    if rates != [] {
      FoundIffCounted(codecs, rates[0]);
      if FindCodec(codecs, EVENT, Some(rates[0])).Some? {
        AddEventsCounts(codecs, rates[1..], pt, rate);
      } else {
        var free := FreeType(Used(codecs), pt);
        var c := EventCodec(free, rates[0]);
        EventFields(free, rates[0]);
        EventsSnoc(codecs, c, rate);
        OtherRate(c, rates[0], rate);
        AddEventsCounts(codecs + [c], rates[1..], free, rate);
      }
    }
  }

  lemma OtherRate(c: Codec, rate: nat, other: nat)
    requires Fits(c, EVENT, Some(rate))
    ensures Fits(c, EVENT, Some(other)) <==> other == rate
  {
  }

  /** An offer keeps the codecs, uses every payload type once, and has a telephone-event for every clock rate: exactly
      one if the codecs given bring at most one. */
  lemma OfferShape(ip: string, port: int, codecs: seq<Codec>, dtmf: nat, rate: nat)
    requires DistinctTypes(codecs)
    ensures var offered := LocalOffer(ip, port, codecs, Some(dtmf)).codecs;
            && DistinctTypes(offered) && codecs <= offered
            && (rate in Rates(codecs) ==>
                EventsAt(offered, rate) == if EventsAt(codecs, rate) == 0 then 1 else EventsAt(codecs, rate))
            && (rate !in Rates(codecs) ==> EventsAt(offered, rate) == EventsAt(codecs, rate))
  {
    hide Rates, EventsAt, DistinctTypes;
    AddEventsDistinct(codecs, Rates(codecs), dtmf);
    AddEventsCounts(codecs, Rates(codecs), dtmf, rate);
  }

  /** Telephone events as every end writes them: one channel and the events 0 to 16. */
  predicate TelephoneEvents(c: Codec) {
    c.name == "telephone-event" && c.channels == 1 && c.fmtp == "0-16"
  }

  /** Every payload type from `pt` to that of codec i belongs to a codec before it. */
  predicate LeastType(codecs: seq<Codec>, pt: nat, i: nat)
    requires i < |codecs|
  {
    codecs[i].pt >= pt && forall x :: pt <= x < codecs[i].pt ==> x in Used(codecs[..i])
  }

  lemma {:induction false} LeastTypes(codecs: seq<Codec>, rates: seq<nat>, pt: nat, i: nat)
    requires |codecs| <= i < |AddEvents(codecs, rates, pt)| && DistinctTypes(codecs)
    ensures LeastType(AddEvents(codecs, rates, pt), pt, i)
    decreases |rates|
  {
    hide FindCodec, FreeType, LeastType;
    if FindCodec(codecs, EVENT, Some(rates[0])).Some? {
      LeastTypes(codecs, rates[1..], pt, i);
    } else {
      var free := FreeType(Used(codecs), pt);
      var more := codecs + [EventCodec(free, rates[0])];
      var all := AddEvents(more, rates[1..], free);
      EventFields(free, rates[0]);
      MoreDistinct(codecs, EventCodec(free, rates[0]));
      AddEventsDistinct(more, rates[1..], free);
      if i > |codecs| {
        LeastTypes(more, rates[1..], free, i);
      }
      TypesBelow(codecs, EventCodec(free, rates[0]), all, pt, i);
    }
  }

  lemma TypesBelow(codecs: seq<Codec>, c: Codec, all: seq<Codec>, pt: nat, i: nat)
    requires codecs + [c] <= all && |codecs| <= i < |all| && c.pt == FreeType(Used(codecs), pt)
    requires i > |codecs| ==> LeastType(all, c.pt, i)
    ensures LeastType(all, pt, i)
  {
    assert all[|codecs|] == (codecs + [c])[|codecs|] == c;
    forall x | pt <= x < all[i].pt ensures x in Used(all[..i]) {
      if x < c.pt {
        assert x in Used(codecs);
        var j :| 0 <= j < |codecs| && codecs[j].pt == x;
        assert all[..i][j] == (codecs + [c])[j] == codecs[j];
      } else if x == c.pt {
        assert all[..i][|codecs|] == c;
      }
    }
  }

  // ---- The answer ----

  predicate Supports(sc: Codec, oc: Codec) {
    Upper(oc.name) == Upper(sc.name) && oc.rate == sc.rate && oc.channels == sc.channels
  }

  function Support(oc: Codec, supported: seq<Codec>): (sc: Option<Codec>)
    ensures sc.Some? ==> sc.value in supported && Supports(sc.value, oc)
    ensures sc.None? ==> forall i :: 0 <= i < |supported| ==> !Supports(supported[i], oc)
  {
    if supported == [] then None
    else if Supports(supported[0], oc) then Some(supported[0])
    else Support(oc, supported[1..])
  }

  function Agreed(oc: Codec, sc: Codec): Codec {
    Codec(oc.pt, sc.name, sc.rate, sc.channels, if sc.fmtp != "" then sc.fmtp else oc.fmtp)
  }

  function Choose(offered: seq<Codec>, supported: seq<Codec>): Option<Codec> {
    if offered == [] then None
    else
      var sc := Support(offered[0], supported);
      if sc.Some? then Some(Agreed(offered[0], sc.value)) else Choose(offered[1..], supported)
  }

  /** The choice is the first offered codec that is supported at all. */
  lemma {:induction false} FirstSupported(offered: seq<Codec>, supported: seq<Codec>)
    ensures Choose(offered, supported).None?
            <==> forall i :: 0 <= i < |offered| ==> Support(offered[i], supported).None?
    ensures Choose(offered, supported).Some? ==>
              exists i :: 0 <= i < |offered| && Chosen(offered, supported, i, Choose(offered, supported).value)
    decreases |offered|
  {
    hide Support;
    if offered != [] {
      if Support(offered[0], supported).Some? {
        assert Chosen(offered, supported, 0, Choose(offered, supported).value);
      } else {
        FirstSupported(offered[1..], supported);
        if Choose(offered[1..], supported).Some? {
          var i :| 0 <= i < |offered[1..]| && Chosen(offered[1..], supported, i, Choose(offered[1..], supported).value);
          ChosenLater(offered, supported, i, Choose(offered, supported).value);
        } else {
          forall i | 0 <= i < |offered| ensures Support(offered[i], supported).None? {
            if i > 0 {
              assert offered[1..][i - 1] == offered[i];
            }
          }
        }
      }
    }
  }

  predicate Chosen(offered: seq<Codec>, supported: seq<Codec>, i: nat, c: Codec)
    requires i < |offered|
  {
    && Support(offered[i], supported).Some?
    && c == Agreed(offered[i], Support(offered[i], supported).value)
    && forall j :: 0 <= j < i ==> Support(offered[j], supported).None?
  }

  lemma ChosenLater(offered: seq<Codec>, supported: seq<Codec>, i: nat, c: Codec)
    requires i + 1 < |offered| && Support(offered[0], supported).None? && Chosen(offered[1..], supported, i, c)
    ensures Chosen(offered, supported, i + 1, c)
  {
    hide Support;
    forall j | 0 <= j < i + 1 ensures Support(offered[j], supported).None? {
      if j > 0 {
        assert offered[1..][j - 1] == offered[j];
      }
    }
  }

  function Mirrored(direction: string): string {
    match direction
    case "sendonly" => "recvonly"
    case "recvonly" => "sendonly"
    case "inactive" => "inactive"
    case _ => "sendrecv"
  }

  datatype Answer = Answer(sdp: Sdp, chosen: Codec)

  function EventOf(offer: Sdp, rate: nat): seq<Codec> {
    var exact := FindCodec(offer.codecs, EVENT, Some(rate));
    var any := FindCodec(offer.codecs, EVENT, None);
    if exact.Some? then [EventCodec(exact.value.pt, exact.value.rate)]
    else if any.Some? then [EventCodec(any.value.pt, any.value.rate)]
    else []
  }

  /** `answer_for` */
  function AnswerFor(offer: Sdp, ip: string, port: int, supported: seq<Codec>): Option<Answer> {
    match Choose(offer.codecs, supported)
    case None => None
    case Some(chosen) =>
      Some(Answer(BLANK.(originIp := ip, connIp := ip, port := port, ptime := Some(20),
                         direction := Mirrored(offer.direction),
                         codecs := [chosen] + EventOf(offer, chosen.rate)), chosen))
  }

  method FirstSupport(oc: Codec, supported: seq<Codec>) returns (sc: Option<Codec>)
    ensures sc == Support(oc, supported)
  {
    hide Supports;
    assert supported[0..] == supported;
    for i := 0 to |supported|
      invariant Support(oc, supported) == Support(oc, supported[i..])
    {
      assert supported[i..][1..] == supported[i + 1..];
      if Supports(supported[i], oc) {
        return Some(supported[i]);
      }
    }
    return None;
  }

  /** The two nested loops over what is offered and what is supported. */
  method ChooseCodec(offered: seq<Codec>, supported: seq<Codec>) returns (chosen: Option<Codec>)
    ensures chosen == Choose(offered, supported)
  {
    hide Support;
    assert offered[0..] == offered;
    for i := 0 to |offered|
      invariant Choose(offered, supported) == Choose(offered[i..], supported)
    {
      assert offered[i..][1..] == offered[i + 1..];
      var sc := FirstSupport(offered[i], supported);
      if sc.Some? {
        return Some(Agreed(offered[i], sc.value));
      }
    }
    return None;
  }

  method AnswerOffer(offer: Sdp, ip: string, port: int, supported: seq<Codec>) returns (answer: Option<Answer>)
    ensures answer == AnswerFor(offer, ip, port, supported)
  {
    hide FindCodec, Choose, Mirrored;
    var chosen := ChooseCodec(offer.codecs, supported);
    if chosen.None? {
      return None;
    }
    var codecs := [chosen.value];
    var te := LookUp(offer.codecs, EVENT, Some(chosen.value.rate));
    if te.None? {
      te := LookUp(offer.codecs, EVENT, None);
    }
    if te.Some? {
      codecs := codecs + [EventCodec(te.value.pt, te.value.rate)];
    }
    assert codecs == [chosen.value] + EventOf(offer, chosen.value.rate);
    answer := Some(Answer(BLANK.(originIp := ip, connIp := ip, port := port, ptime := Some(20),
                                 direction := Mirrored(offer.direction),
                                 codecs := codecs), chosen.value));
  }

  /** `match_answer`; the offered codec is found by name and rate alone. */
  function MatchAnswer(offered: seq<Codec>, answered: seq<Codec>): Option<Codec> {
    if answered == [] then None
    else
      var ac := answered[0];
      if Lower(ac.name) == EVENT then MatchAnswer(offered, answered[1..])
      else
        var oc := FindCodec(offered, ac.name, Some(ac.rate));
        if oc.Some? then Some(Codec(ac.pt, oc.value.name, oc.value.rate, oc.value.channels, oc.value.fmtp))
        else MatchAnswer(offered, answered[1..])
  }

  method MatchOffer(offered: seq<Codec>, answered: seq<Codec>) returns (c: Option<Codec>)
    ensures c == MatchAnswer(offered, answered)
  {
    hide FindCodec, Lower;
    assert answered[0..] == answered;
    for i := 0 to |answered|
      invariant MatchAnswer(offered, answered) == MatchAnswer(offered, answered[i..])
    {
      assert answered[i..][1..] == answered[i + 1..];
      var ac := answered[i];
      if Lower(ac.name) != EVENT {
        var oc := LookUp(offered, ac.name, Some(ac.rate));
        if oc.Some? {
          return Some(Codec(ac.pt, oc.value.name, oc.value.rate, oc.value.channels, oc.value.fmtp));
        }
      }
    }
    return None;
  }

  // ---- Agreement ----

  lemma SameCase(a: string, b: string)
    requires Upper(a) == Upper(b)
    ensures Lower(a) == Lower(b)
  {
    assert |a| == |b|;
    forall i | 0 <= i < |a| ensures Lower(a)[i] == Lower(b)[i] {
      assert Upper(a)[i] == Upper(b)[i];
    }
  }

  lemma EventInLowerCase()
    ensures Lower(EVENT) == EVENT
  {
  }

  /** What is supported is audio. */
  predicate Audio(supported: seq<Codec>) {
    forall i :: 0 <= i < |supported| ==> CodecOk(supported[i]) && Lower(supported[i].name) != EVENT
  }

  lemma NotAnEvent(c: Codec, rate: Option<nat>)
    requires Lower(c.name) != EVENT
    ensures !Fits(c, EVENT, rate)
  {
    if Named(c, EVENT) {
      SameCase(c.name, EVENT);
      EventInLowerCase();
    }
  }

  /** Both ends use the same payload type for telephone events. */
  lemma SameDtmfType(offer: Sdp, chosen: Codec, answer: Sdp)
    requires Lower(chosen.name) != EVENT && answer.codecs == [chosen] + EventOf(offer, chosen.rate)
    ensures DtmfTypeFor(answer, chosen.rate) == DtmfTypeFor(offer, chosen.rate)
  {
    NotAnEvent(chosen, Some(chosen.rate));
    NotAnEvent(chosen, None);
    var rest := EventOf(offer, chosen.rate);
    assert answer.codecs[1..] == rest;
    if rest != [] {
      EventFields(rest[0].pt, rest[0].rate);
      assert rest[1..] == [];
    }
  }

  lemma AnswerMatches(offered: seq<Codec>, supported: seq<Codec>, chosen: Codec, i: nat, rest: seq<Codec>)
    requires i < |offered| && Chosen(offered, supported, i, chosen) && Audio(supported)
    ensures Lower(chosen.name) != EVENT && chosen.pt == offered[i].pt && Named(offered[i], chosen.name)
    ensures chosen.rate == offered[i].rate && chosen.channels == offered[i].channels
    ensures FindCodec(offered, chosen.name, Some(chosen.rate)).Some?
    ensures var oc := FindCodec(offered, chosen.name, Some(chosen.rate)).value;
            MatchAnswer(offered, [chosen] + rest) == Some(Codec(chosen.pt, oc.name, oc.rate, oc.channels, oc.fmtp))
  {
    hide CodecOk;
    var sc := Support(offered[i], supported).value;
    assert Fits(offered[i], chosen.name, Some(chosen.rate));
    assert ([chosen] + rest)[0] == chosen;
  }

  lemma AnswerWellFormed(offer: Sdp, ip: string, port: int, supported: seq<Codec>, i: nat)
    requires WellFormed(offer) && Word(ip) && Audio(supported) && AnswerFor(offer, ip, port, supported).Some?
    requires i < |offer.codecs|
    requires Chosen(offer.codecs, supported, i, AnswerFor(offer, ip, port, supported).value.chosen)
    ensures WellFormed(AnswerFor(offer, ip, port, supported).value.sdp)
  {
    hide Support, Mirrored;
    var answer := AnswerFor(offer, ip, port, supported).value;
    SupportOk(offer.codecs[i], supported);
    MirroredKnown(offer.direction);
    EventPlain();
    var rest := EventOf(offer, answer.chosen.rate);
    EventsApart(offer, supported, i, answer.chosen);
    ProtoWord();
  }

  lemma ProtoWord()
    ensures Word(BLANK.proto) && Plain(BLANK.sessionName)
  {
  }

  lemma SupportOk(oc: Codec, supported: seq<Codec>)
    requires Audio(supported) && CodecOk(oc) && Support(oc, supported).Some?
    ensures CodecOk(Agreed(oc, Support(oc, supported).value))
  {
  }

  lemma MirroredKnown(direction: string)
    ensures Mirrored(direction) in DIRECTIONS
  {
    assert DIRECTIONS[0] == "sendrecv" && DIRECTIONS[1] == "sendonly" && DIRECTIONS[2] == "recvonly"
        && DIRECTIONS[3] == "inactive";
  }

  lemma EventPlain()
    ensures forall pt, rate :: CodecOk(EventCodec(pt, rate))
  {
  }

  /** The event's payload type is not the audio's. */
  lemma EventsApart(offer: Sdp, supported: seq<Codec>, i: nat, chosen: Codec)
    requires DistinctTypes(offer.codecs) && i < |offer.codecs| && Chosen(offer.codecs, supported, i, chosen)
    requires Audio(supported)
    ensures DistinctTypes([chosen] + EventOf(offer, chosen.rate))
  {
    hide CodecOk;
    AnswerMatches(offer.codecs, supported, chosen, i, []);
    var rest := EventOf(offer, chosen.rate);
    if rest != [] {
      var exact, any := FindCodec(offer.codecs, EVENT, Some(chosen.rate)), FindCodec(offer.codecs, EVENT, None);
      var te := if exact.Some? then exact.value else any.value;
      var j :| 0 <= j < |offer.codecs| && offer.codecs[j] == te;
      SameCase(offer.codecs[i].name, chosen.name);
      NotAnEvent(offer.codecs[i], None);
      assert Named(te, EVENT);
    }
  }

  /** The answer reads back, and the caller takes the first codec it offered under the chosen name and rate. */
  lemma AnswerReadBack(offer: Sdp, ip: string, port: int, supported: seq<Codec>, now: nat)
    requires WellFormed(offer) && Word(ip) && Audio(supported)
    requires AnswerFor(Carried(offer), ip, port, supported).Some?
    ensures var a := AnswerFor(Carried(offer), ip, port, supported).value;
            var read := Carried(Numbered(a.sdp, now));
            && Parse(Build(Numbered(a.sdp, now))) == Some(read)
            && (exists i :: 0 <= i < |offer.codecs| && Chosen(offer.codecs, supported, i, a.chosen))
            && FindCodec(offer.codecs, a.chosen.name, Some(a.chosen.rate)).Some?
            && var oc := FindCodec(offer.codecs, a.chosen.name, Some(a.chosen.rate)).value;
               MatchAnswer(offer.codecs, read.codecs)
               == Some(Codec(a.chosen.pt, oc.name, oc.rate, oc.channels, oc.fmtp))
  {
    hide WellFormed, Parse, Build, Choose, Support, FindCodec, MatchAnswer, Audio, EventOf, Word, Named;
    FirstSupported(offer.codecs, supported);
    var a := AnswerFor(Carried(offer), ip, port, supported).value;
    var i :| 0 <= i < |offer.codecs| && Chosen(offer.codecs, supported, i, a.chosen);
    CarriedWellFormed(offer);
    AnswerWellFormed(Carried(offer), ip, port, supported, i);
    NumberedWellFormed(a.sdp, now);
    ParseBuild(Numbered(a.sdp, now));
    AnswerMatches(offer.codecs, supported, a.chosen, i, EventOf(Carried(offer), a.chosen.rate));
  }

  /** The supported codec has the offered name up to case, the offered rate and as many channels. */
  predicate Answers(sc: Codec, oc: Codec) {
    && |sc.name| == |oc.name|
    && (forall i :: 0 <= i < |sc.name| ==> UpperChar(sc.name[i]) == UpperChar(oc.name[i]))
    && sc.rate == oc.rate && sc.channels == oc.channels
  }

  /** The offered type, and the rest from the supported codec; the offered parameters only where that has none. */
  predicate Settled(c: Codec, oc: Codec, sc: Codec) {
    && c.pt == oc.pt && c.name == sc.name && c.rate == sc.rate && c.channels == sc.channels
    && (sc.fmtp != "" ==> c.fmtp == sc.fmtp) && (sc.fmtp == "" ==> c.fmtp == oc.fmtp)
  }

  /** Pair (i, k) is the first in the order of what is offered, then of what is supported. */
  predicate FirstPair(offered: seq<Codec>, supported: seq<Codec>, i: nat, k: nat) {
    && i < |offered| && k < |supported| && Answers(supported[k], offered[i])
    && (forall h, j :: 0 <= h < i && 0 <= j < |supported| ==> !Answers(supported[j], offered[h]))
    && (forall j :: 0 <= j < k ==> !Answers(supported[j], offered[i]))
  }

  lemma AnswersIffSupports(sc: Codec, oc: Codec)
    ensures Answers(sc, oc) == Supports(sc, oc)
  {
    if Supports(sc, oc) {
      assert |Upper(sc.name)| == |Upper(oc.name)|;
      forall i | 0 <= i < |sc.name| ensures UpperChar(sc.name[i]) == UpperChar(oc.name[i]) {
        assert Upper(sc.name)[i] == Upper(oc.name)[i];
      }
    }
    if Answers(sc, oc) {
      assert Upper(sc.name) == Upper(oc.name);
    }
  }

  lemma {:induction false} SupportAt(oc: Codec, supported: seq<Codec>) returns (k: nat)
    requires Support(oc, supported).Some?
    ensures k < |supported| && supported[k] == Support(oc, supported).value && Answers(supported[k], oc)
    ensures forall j :: 0 <= j < k ==> !Answers(supported[j], oc)
  {
    hide Answers, Supports;
    AnswersIffSupports(supported[0], oc);
    if Supports(supported[0], oc) {
      k := 0;
    } else {
      var at := SupportAt(oc, supported[1..]);
      k := at + 1;
      forall j | 0 <= j < k ensures !Answers(supported[j], oc) {
        if j > 0 {
          assert supported[1..][j - 1] == supported[j];
        }
      }
    }
  }

  lemma {:induction false} NoneAnswers(oc: Codec, supported: seq<Codec>)
    requires Support(oc, supported).None?
    ensures forall k :: 0 <= k < |supported| ==> !Answers(supported[k], oc)
  {
    hide Answers, Supports;
    forall k | 0 <= k < |supported| ensures !Answers(supported[k], oc) {
      AnswersIffSupports(supported[k], oc);
    }
  }

  /** What the two ends settle on: the first offered codec that anything supported answers to, with the first that does;
      nothing is chosen exactly if no supported codec answers to any that is offered. */
  lemma {:induction false} WhatIsChosen(offered: seq<Codec>, supported: seq<Codec>)
    ensures Choose(offered, supported).None? <==>
              forall i, k :: 0 <= i < |offered| && 0 <= k < |supported| ==> !Answers(supported[k], offered[i])
    ensures Choose(offered, supported).Some? ==>
              exists i: nat, k: nat :: FirstPair(offered, supported, i, k)
                                       && Settled(Choose(offered, supported).value, offered[i], supported[k])
  {
    hide Choose, Support, Answers;
    FirstSupported(offered, supported);
    if Choose(offered, supported).Some? {
      var i :| 0 <= i < |offered| && Chosen(offered, supported, i, Choose(offered, supported).value);
      var k := SupportAt(offered[i], supported);
      forall h | 0 <= h < i ensures forall j :: 0 <= j < |supported| ==> !Answers(supported[j], offered[h]) {
        NoneAnswers(offered[h], supported);
      }
      assert FirstPair(offered, supported, i, k);
    } else {
      forall i | 0 <= i < |offered| ensures forall k :: 0 <= k < |supported| ==> !Answers(supported[k], offered[i]) {
        NoneAnswers(offered[i], supported);
      }
    }
  }

  /** The telephone events of a description at a clock rate: those listed for that rate, else those listed first. */
  lemma {:induction false} EventsFor(s: Sdp, rate: nat, i: nat)
    requires i < |s.codecs| && Named(s.codecs[i], EVENT)
    requires forall j :: 0 <= j < i ==> !(Named(s.codecs[j], EVENT) && s.codecs[j].rate == s.codecs[i].rate)
    ensures s.codecs[i].rate == rate ==> DtmfTypeFor(s, rate) == Some(s.codecs[i].pt)
    ensures (forall j :: 0 <= j < i ==> !Named(s.codecs[j], EVENT))
            && (forall j :: 0 <= j < |s.codecs| ==> !(Named(s.codecs[j], EVENT) && s.codecs[j].rate == rate))
            ==> DtmfTypeFor(s, rate) == Some(s.codecs[i].pt)
  {
    hide Named;
    if s.codecs[i].rate == rate {
      FindsFirst(s.codecs, EVENT, Some(rate), i);
    } else if forall j :: 0 <= j < i ==> !Named(s.codecs[j], EVENT) {
      FindsFirst(s.codecs, EVENT, None, i);
    }
  }

  lemma {:induction false} FindsFirst(codecs: seq<Codec>, name: string, rate: Option<nat>, i: nat)
    requires i < |codecs| && Fits(codecs[i], name, rate)
    requires forall j :: 0 <= j < i ==> !Fits(codecs[j], name, rate)
    ensures FindCodec(codecs, name, rate) == Some(codecs[i])
  {
    hide Fits;
    if i > 0 {
      forall j | 0 <= j < i - 1 ensures !Fits(codecs[1..][j], name, rate) {
        assert codecs[1..][j] == codecs[j + 1];
      }
      FindsFirst(codecs[1..], name, rate, i - 1);
    }
  }

  /** The directions of section 6.1 of RFC 3264, by what they allow. */
  predicate MaySend(direction: string) {
    direction == "sendrecv" || direction == "sendonly"
  }

  predicate MayReceive(direction: string) {
    direction == "sendrecv" || direction == "recvonly"
  }

  /** The answerer sends exactly if the offerer receives, and receives exactly if the offerer sends. */
  lemma DirectionsMeet(direction: string)
    requires direction in DIRECTIONS
    ensures var answered := Mirrored(direction);
            && answered in DIRECTIONS
            && (MaySend(answered) <==> MayReceive(direction)) && (MayReceive(answered) <==> MaySend(direction))
  {
    assert DIRECTIONS[0] == "sendrecv" && DIRECTIONS[1] == "sendonly" && DIRECTIONS[2] == "recvonly"
        && DIRECTIONS[3] == "inactive";
  }

  /** The whole exchange through text. Both ends come out with the same codec name, clock rate, payload type and event
      type; the choice is the first offered codec that is supported; the answerer sends exactly if the offerer receives
      and receives exactly if the offerer sends; and the answer gives the answerer's own address and port. */
  lemma OfferAnswerAgree(offer: Sdp, ip: string, port: int, supported: seq<Codec>, now: nat)
    requires WellFormed(offer) && Word(ip) && Audio(supported)
    ensures Parse(Build(offer)) == Some(Carried(offer))
    ensures AnswerFor(Carried(offer), ip, port, supported).None? <==>
              forall i :: 0 <= i < |offer.codecs| ==> Support(offer.codecs[i], supported).None?
    ensures AnswerFor(Carried(offer), ip, port, supported).Some? ==>
              var a := AnswerFor(Carried(offer), ip, port, supported).value;
              var text := Build(Numbered(a.sdp, now));
              && Parse(text).Some?
              && (exists i :: 0 <= i < |offer.codecs| && Chosen(offer.codecs, supported, i, a.chosen))
              && var matched := MatchAnswer(offer.codecs, Parse(text).value.codecs);
              && matched.Some? && matched.value.pt == a.chosen.pt && Named(matched.value, a.chosen.name)
              && matched.value.rate == a.chosen.rate
              && DtmfTypeFor(Parse(text).value, matched.value.rate) == DtmfTypeFor(Carried(offer), a.chosen.rate)
              && var read := Parse(text).value;
              && (MaySend(read.direction) <==> MayReceive(offer.direction))
              && (MayReceive(read.direction) <==> MaySend(offer.direction)) && read.direction in DIRECTIONS
              && read.connIp == ip && read.originIp == ip && read.port == port && read.ptime == Some(20)
              && forall k :: 1 <= k < |read.codecs| ==> TelephoneEvents(read.codecs[k])
  {
    hide WellFormed, Parse, Build, Choose, Support, FindCodec, MatchAnswer, Audio, EventOf, Word, Named;
    ParseBuild(offer);
    FirstSupported(offer.codecs, supported);
    if AnswerFor(Carried(offer), ip, port, supported).Some? {
      var a := AnswerFor(Carried(offer), ip, port, supported).value;
      AnswerReadBack(offer, ip, port, supported, now);
      var i :| 0 <= i < |offer.codecs| && Chosen(offer.codecs, supported, i, a.chosen);
      AnswerMatches(offer.codecs, supported, a.chosen, i, []);
      MatchedName(offer.codecs, a.chosen);
      SameDtmfType(Carried(offer), a.chosen, Carried(Numbered(a.sdp, now)));
      OfferDirection(offer);
      DirectionsMeet(offer.direction);
      EventsAnswered(Carried(offer), a.chosen.rate);
    }
  }

  lemma EventsAnswered(offer: Sdp, rate: nat)
    ensures forall k :: 0 <= k < |EventOf(offer, rate)| ==> TelephoneEvents(EventOf(offer, rate)[k])
  {
    hide FindCodec;
  }

  lemma OfferDirection(offer: Sdp)
    requires WellFormed(offer)
    ensures offer.direction in DIRECTIONS
  {
    hide CodecOk, DistinctTypes;
  }

  lemma MatchedName(offered: seq<Codec>, chosen: Codec)
    requires FindCodec(offered, chosen.name, Some(chosen.rate)).Some?
    ensures var oc := FindCodec(offered, chosen.name, Some(chosen.rate)).value;
            oc.rate == chosen.rate && Named(Codec(chosen.pt, oc.name, oc.rate, oc.channels, oc.fmtp), chosen.name)
  {
  }

  lemma CarriedWellFormed(s: Sdp)
    requires WellFormed(s)
    ensures WellFormed(Carried(s))
  {
    hide CodecOk, DistinctTypes;
    ProtoWord();
  }

  lemma NumberedWellFormed(s: Sdp, now: nat)
    requires WellFormed(s)
    ensures WellFormed(Numbered(s, now))
  {
    hide CodecOk, DistinctTypes;
  }

  /** A local offer can be sent: it is well formed when its codecs are. */
  lemma OfferWellFormed(ip: string, port: int, codecs: seq<Codec>, dtmf: Option<nat>, now: nat)
    requires Word(ip) && DistinctTypes(codecs) && forall i :: 0 <= i < |codecs| ==> CodecOk(codecs[i])
    ensures WellFormed(Numbered(LocalOffer(ip, port, codecs, dtmf), now))
  {
    hide CodecOk, DistinctTypes, Rates, EventCodec;
    ProtoWord();
    EventPlain();
    MirroredKnown("");
    if dtmf.Some? {
      AddEventsDistinct(codecs, Rates(codecs), dtmf.value);
      var all := AddEvents(codecs, Rates(codecs), dtmf.value);
      forall i | 0 <= i < |all| ensures CodecOk(all[i]) {
        if i < |codecs| {
          assert all[i] == codecs[i];
        }
      }
    }
  }

  /** What the called end reads of an offer: the caller's address and port, that both may send, the codecs as they were
      given, and after them telephone events, each under the least payload type from `dtmf` on that is still free. */
  lemma OfferReadsBack(ip: string, port: int, codecs: seq<Codec>, dtmf: Option<nat>, now: nat)
    requires Word(ip) && DistinctTypes(codecs) && forall i :: 0 <= i < |codecs| ==> CodecOk(codecs[i])
    ensures var parsed := Parse(Build(Numbered(LocalOffer(ip, port, codecs, dtmf), now)));
            && parsed.Some?
            && var read := parsed.value;
            && read.connIp == ip && read.originIp == ip && read.port == port && read.ptime == Some(20)
            && read.direction == "sendrecv"
            && codecs <= read.codecs && (dtmf.None? ==> read.codecs == codecs)
            && forall i :: |codecs| <= i < |read.codecs| ==>
                 TelephoneEvents(read.codecs[i]) && LeastType(read.codecs, dtmf.value, i)
  {
    hide WellFormed, Parse, Build, CodecOk, DistinctTypes, Rates, AddEvents, LeastType, Word;
    OfferWellFormed(ip, port, codecs, dtmf, now);
    ParseBuild(Numbered(LocalOffer(ip, port, codecs, dtmf), now));
    if dtmf.Some? {
      AddEventsDistinct(codecs, Rates(codecs), dtmf.value);
      var all := AddEvents(codecs, Rates(codecs), dtmf.value);
      forall i | |codecs| <= i < |all| ensures TelephoneEvents(all[i]) && LeastType(all, dtmf.value, i) {
        LeastTypes(codecs, Rates(codecs), dtmf.value, i);
      }
    }
  }

  // ---- Channels ----

  /** Two codecs that are told apart by more than their channels, or have the same. */
  predicate ToldApart(a: Codec, b: Codec) {
    Lower(a.name) != EVENT && SameName(a, b) && a.rate == b.rate ==> a.channels == b.channels
  }

  /** No two audio codecs of the offer share a name and a clock rate and differ in their channels. */
  predicate Unambiguous(offered: seq<Codec>) {
    forall i, j :: 0 <= i < j < |offered| ==> ToldApart(offered[i], offered[j])
  }

  predicate SameName(a: Codec, b: Codec) {
    Upper(a.name) == Upper(b.name)
  }

  /** Whatever is answered to the offer through text, the caller takes it with the channels the answerer chose. */
  predicate ChannelsAgree(offer: Sdp, ip: string, port: int, supported: seq<Codec>, now: nat) {
    var answer := AnswerFor(Carried(offer), ip, port, supported);
    answer.Some? ==>
      var read := Parse(Build(Numbered(answer.value.sdp, now)));
      && read.Some?
      && var matched := MatchAnswer(offer.codecs, read.value.codecs);
         matched.Some? && matched.value.channels == answer.value.chosen.channels
  }

  /** With an unambiguous offer the codec found by name and rate has the channels of the chosen one. */
  lemma UnambiguousAgrees(offer: Sdp, ip: string, port: int, supported: seq<Codec>, now: nat)
    requires WellFormed(offer) && Word(ip) && Audio(supported) && Unambiguous(offer.codecs)
    ensures ChannelsAgree(offer, ip, port, supported, now)
  {
    hide WellFormed, Parse, Build, Choose, FindCodec, MatchAnswer, EventOf, Word, Support, Unambiguous, Numbered;
    if AnswerFor(Carried(offer), ip, port, supported).Some? {
      AnswerReadBack(offer, ip, port, supported, now);
      var a := AnswerFor(Carried(offer), ip, port, supported).value;
      var i :| 0 <= i < |offer.codecs| && Chosen(offer.codecs, supported, i, a.chosen);
      AnswerMatches(offer.codecs, supported, a.chosen, i, []);
      SameChannels(offer.codecs, i, a.chosen);
    }
  }

  lemma SameChannels(offered: seq<Codec>, i: nat, chosen: Codec)
    requires Unambiguous(offered) && i < |offered| && Lower(chosen.name) != EVENT && Named(offered[i], chosen.name)
    requires chosen.rate == offered[i].rate && chosen.channels == offered[i].channels
    requires FindCodec(offered, chosen.name, Some(chosen.rate)).Some?
    ensures FindCodec(offered, chosen.name, Some(chosen.rate)).value.channels == chosen.channels
  {
    hide FindCodec, ToldApart, Named, Fits, Lower;
    var found := FindCodec(offered, chosen.name, Some(chosen.rate)).value;
    var m :| 0 <= m < |offered| && offered[m] == found;
    BothApart(found, offered[i], chosen);
  }

  lemma BothApart(found: Codec, oc: Codec, chosen: Codec)
    requires ToldApart(found, oc) || ToldApart(oc, found) || found == oc
    requires Fits(found, chosen.name, Some(chosen.rate)) && Named(oc, chosen.name) && oc.rate == chosen.rate
    requires Lower(chosen.name) != EVENT
    ensures found.channels == oc.channels
  {
    hide Upper, Lower;
    SameCase(oc.name, chosen.name);
    SameCase(found.name, chosen.name);
  }

  /** Two audio codecs of the offer that differ in channels only: one of them, supported alone, is taken for the
      other. */
  lemma AmbiguousConfuses(offer: Sdp, ip: string, port: int, now: nat, i: nat, j: nat) returns (supported: seq<Codec>)
    requires WellFormed(offer) && Word(ip) && i < j < |offer.codecs| && Lower(offer.codecs[i].name) != EVENT
    requires SameName(offer.codecs[i], offer.codecs[j]) && offer.codecs[i].rate == offer.codecs[j].rate
    requires offer.codecs[i].channels != offer.codecs[j].channels
    ensures Audio(supported) && AnswerFor(Carried(offer), ip, port, supported).Some?
    ensures !ChannelsAgree(offer, ip, port, supported, now)
  {
    hide Parse, Build, Choose, MatchAnswer, EventOf, Word, Support, Numbered, Upper, Lower, CodecOk, DistinctTypes,
        Fits;
    var oc := offer.codecs[i];
    SameCase(oc.name, offer.codecs[j].name);
    FoundByName(offer.codecs, oc, i);
    var first := FindCodec(offer.codecs, oc.name, Some(oc.rate)).value;
    var k := if first.channels == oc.channels then j else i;
    var sc := offer.codecs[k];
    FoundByName(offer.codecs, sc, k);
    SameSearch(offer.codecs, oc, sc);
    supported := [sc];
    OnlyChoice(offer.codecs, sc, k);
    OfferAnswerAgree(offer, ip, port, supported, now);
    AnswerReadBack(offer, ip, port, supported, now);
    var a := AnswerFor(Carried(offer), ip, port, supported).value;
    var m :| 0 <= m < |offer.codecs| && Chosen(offer.codecs, supported, m, a.chosen);
    ChoiceOfOne(offer.codecs, sc, m, a.chosen);
    SameSearch(offer.codecs, sc, a.chosen);
  }

  lemma FoundByName(offered: seq<Codec>, c: Codec, i: nat)
    requires i < |offered| && offered[i] == c
    ensures FindCodec(offered, c.name, Some(c.rate)).Some?
  {
    assert Fits(offered[i], c.name, Some(c.rate));
  }

  /** The search does not mind how the name is spelt. */
  lemma {:induction false} SameSearch(offered: seq<Codec>, a: Codec, b: Codec)
    requires SameName(a, b) && a.rate == b.rate
    ensures FindCodec(offered, a.name, Some(a.rate)) == FindCodec(offered, b.name, Some(b.rate))
  {
    hide Upper;
    if offered != [] {
      SameSearch(offered[1..], a, b);
    }
  }

  lemma OnlyChoice(offered: seq<Codec>, sc: Codec, k: nat)
    requires k < |offered| && offered[k] == sc
    ensures Support(offered[k], [sc]).Some?
  {
    hide Upper;
    assert Supports([sc][0], offered[k]);
  }

  lemma ChoiceOfOne(offered: seq<Codec>, sc: Codec, m: nat, chosen: Codec)
    requires m < |offered| && Chosen(offered, [sc], m, chosen)
    ensures SameName(chosen, sc) && chosen.rate == sc.rate && chosen.channels == sc.channels
  {
    hide Upper;
  }

  /** The channels come out the same whatever the answerer supports, if and only if no two audio codecs of the offer
      share a name and a rate and differ in channels. */
  lemma ChannelsAgreeIffUnambiguous(offer: Sdp, ip: string, port: int, now: nat)
    requires WellFormed(offer) && Word(ip)
    ensures (forall supported :: Audio(supported) ==> ChannelsAgree(offer, ip, port, supported, now))
            <==> Unambiguous(offer.codecs)
  {
    hide WellFormed, ChannelsAgree, Audio, Word, SameName, Lower;
    if Unambiguous(offer.codecs) {
      forall supported | Audio(supported) ensures ChannelsAgree(offer, ip, port, supported, now) {
        UnambiguousAgrees(offer, ip, port, supported, now);
      }
    } else {
      var i, j :| 0 <= i < j < |offer.codecs| && !ToldApart(offer.codecs[i], offer.codecs[j]);
      var supported := AmbiguousConfuses(offer, ip, port, now, i, j);
    }
  }

  const STEREO := Codec(96, "L16", 44100, 2, "")
  const MONO := Codec(97, "L16", 44100, 1, "")

  /** Offered in stereo and in mono, answered in mono: the caller takes the answer for stereo. */
  lemma ChannelsConfused() returns (supported: seq<Codec>)
    ensures Choose([STEREO, MONO], [Codec(11, "L16", 44100, 1, "")]) == Some(MONO)
    ensures MatchAnswer([STEREO, MONO], [MONO]) == Some(Codec(97, "L16", 44100, 2, ""))
    ensures var offer := Numbered(LocalOffer("h", 4000, [STEREO, MONO], None), 0);
            WellFormed(offer) && Audio(supported) && !ChannelsAgree(offer, "h", 4000, supported, 0)
  {
    hide WellFormed, ChannelsAgree, Audio, Parse, Build, AnswerFor;
    var sc := Codec(11, "L16", 44100, 1, "");
    assert [STEREO, MONO][1..] == [MONO] && [sc][1..] == [];
    assert Support(STEREO, [sc]) == None && Support(MONO, [sc]) == Some(sc);
    assert |Lower("L16")| != |EVENT|;
    assert Fits(STEREO, "L16", Some(44100));
    OfferWellFormed("h", 4000, [STEREO, MONO], None, 0);
    var offer := Numbered(LocalOffer("h", 4000, [STEREO, MONO], None), 0);
    supported := AmbiguousConfuses(offer, "h", 4000, 0, 0, 1);
  }
}
